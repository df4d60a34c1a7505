/** The top navigation header's profile menu: an open/closed flag and the logout action. */
module ProfileHeader {
  import opened Wrappers

  /** The landing route logout returns to. */
  const Landing := "/"

  /** The profile area's visible parts: the dropdown menu and the "Account" tooltip. */
  datatype ProfileView = ProfileView(menu: bool, tooltip: bool)

  class Header {
    var isProfileOpen: bool
    /** The route last navigated to, if any. */
    var navigation: Option<string>

    constructor ()
      ensures !isProfileOpen && navigation == None
    {
      isProfileOpen := false;
      navigation := None;
    }

    method AvatarClick()
      modifies this
      ensures isProfileOpen == !old(isProfileOpen) && navigation == old(navigation)
    {
      isProfileOpen := !isProfileOpen;
    }

    /** A mousedown anywhere: outside the profile container it closes the menu; inside it changes nothing. */
    method MouseDown(inside: bool)
      modifies this
      ensures isProfileOpen == (old(isProfileOpen) && inside) && navigation == old(navigation)
    {
      if !inside {
        isProfileOpen := false;
      }
    }

    /** A click on the avatar: its mousedown is inside the container, then the click toggles. */
    method PressAvatar()
      modifies this
      ensures isProfileOpen == !old(isProfileOpen) && navigation == old(navigation)
    {
      MouseDown(true);
      AvatarClick();
    }

    /**
     * Log out with the sign-out's answer: on success the menu closes and the app goes to the
     * landing route; on error (only logged) nothing changes.
     */
    method Logout(signOutError: Option<string>)
      modifies this
      ensures signOutError.None? ==> !isProfileOpen && navigation == Some(Landing)
      ensures signOutError.Some? ==> isProfileOpen == old(isProfileOpen) && navigation == old(navigation)
    {
      if signOutError.None? {
        isProfileOpen := false;
        navigation := Some(Landing);
      }
    }

    /** The menu is shown exactly while open and the tooltip exactly while closed: never both. */
    function View(): (r: ProfileView)
      reads this
      ensures r.menu <==> isProfileOpen
      ensures r.tooltip <==> !isProfileOpen
      ensures r.menu != r.tooltip
    {
      ProfileView(isProfileOpen, !isProfileOpen)
    }
  }
}
