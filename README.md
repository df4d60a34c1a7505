# Ghurnibook client: verified model of its interactive state

Ghurnibook's web client is mostly presentational React. This project models the parts that
decide something, as Dafny state machines and pure functions. They are:

- the **login/signup card** (`AuthForm`): a two-mode controller over a seven-field form record,
  an `error` string and a `loading` flag;
- the **FAQ modal** (`Faq`): a three-entry accordion, an Escape rule and a body scroll lock;
- the **theme and language controls** (`ThemeToggle`): the light/dark flip and the language
  dropdown;
- the **animated background** (`NatureBackground`): it owns the theme, the root `dark` class, the
  stored `theme` preference, the gradient palette and the FAQ open flag;
- the **header's profile menu** (`ProfileHeader`): toggle, outside click and logout.

Each event handler is one atomic step, as in the browser's single-threaded dispatch. The identity
provider's answer is an input of the step: an error with its message, or success with or without a
session. The DOM `contains` test is a boolean "inside" parameter. Navigation is a recorded
"last route" field. Local storage is a `map<string, string>` field. Form values are
`Str`/`Flag` values with JavaScript truthiness, because the input handler stores a checkbox's
`checked` or another input's `value` under whatever name the event carries. An event's name is any
string; a name that is not one of the seven keys changes none of the seven fields. The model also
states which event each rendered input dispatches (`PageEvent`), since that decides what the form
can hold.

Three behaviours of the code are easy to miss:

- The stored theme is not limited to `light`/`dark`. Any non-empty stored string becomes the
  theme. For such a value the root gets no `dark` class, yet the dark gradients are drawn
  (`UnknownThemeMixed`). The first press of the theme button then gives `light`.
- The signup text inputs dispatch change events with an empty name, because the shared
  `InputField` component drops its `name` prop. As written, typing into them changes no field, so
  every signup submit stops at "Please fill in all fields" (see Findings).
- Login validation passes when *either* `email` or `username` is non-empty, but the request sends
  only `username` (`LoginMaySendEmptyIdentifier`). As written, `email` can never be filled in, so a
  login that passes always sends a non-empty identifier (`LoginSendsIdentifierWhenReachable`). With
  named signup events, a signup that returns no session switches to login and keeps the form. A login
  submit from that form can send an empty identifier (`SignupAsIntended`).

## Model

| member | source | states |
|---|---|---|
| AuthForm.With | src/GlassCard.jsx:60-63 | the named field takes the new value and every other field keeps its old value |
| AuthForm.FieldNamed | src/GlassCard.jsx:47 | each of the seven fields is found under exactly its own key, and any other key names no field |
| AuthForm.Assign | src/GlassCard.jsx:60-63 | `[name]` with a field's key sets that field and keeps the other six; with any other key (the empty name included) all seven keep their values |
| AuthForm.StoredValue | src/GlassCard.jsx:59-62 | a checkbox event stores `checked`; any other event stores `value` |
| AuthForm.StoredValueTruthy | src/GlassCard.jsx:62-94 | the guards see a stored checkbox value as filled iff it was ticked, and any other stored value iff its text is non-empty |
| AuthForm.PageEventEffect | src/GlassCard.jsx:12-22 | as written, a change in a signup text input leaves the form unchanged; the login inputs and the terms checkbox set exactly the field they show |
| AuthForm.IntendedEventEffect | src/GlassCard.jsx:277-351 | with each input's `name` forwarded, every input sets exactly the field it shows, to its text or its ticked state |
| AuthForm.PageEventsStayReachable | src/GlassCard.jsx:52-65 | the empty form has email, confirmation, first and last name empty, and every event the page dispatches keeps them empty |
| AuthForm.SignupNeverPasses | src/GlassCard.jsx:86-88 | as written, from every reachable form, the signup submit fails at the "fill in all fields" guard with its localized text |
| AuthForm.LoginSendsIdentifierWhenReachable | src/GlassCard.jsx:72-108 | as written, from every reachable form, a login that passes validation sends a non-empty identifier |
| AuthForm.FirstFailure | src/GlassCard.jsx:72-98 | no guard fires exactly when the form is acceptable for the mode; otherwise the result is the first guard of the mode's ordered chain that rejects, and every earlier guard passes |
| AuthForm.Validate | src/GlassCard.jsx:72-97 | no error iff acceptable; for each guard the exact English/Bangla text (the translated password placeholder for a missing password), and the first failing guard wins |
| AuthForm.LoginAcceptance | src/GlassCard.jsx:72-84 | login accepts iff (email or username non-empty) and password non-empty |
| AuthForm.SignupAcceptance | src/GlassCard.jsx:85-97 | signup accepts iff email, password and confirmation are non-empty, password equals confirmation, and the terms are accepted |
| AuthForm.RequestFor | src/GlassCard.jsx:103-125 | login sends `username` as the email plus the password; signup sends email, password, first/last name and username |
| AuthForm.LoginMaySendEmptyIdentifier | src/GlassCard.jsx:72-108 | for any language and placeholder, a form with an email, a password and an empty username passes login validation and sends an empty identifier |
| AuthForm.AuthCard.constructor | src/GlassCard.jsx:46-50 | the card starts in login mode with the empty form, no error, not loading, nothing sent |
| AuthForm.AuthCard.ToggleAuthMode | src/GlassCard.jsx:52-56 | flips the mode, clears the error, and resets all seven fields (six empty strings, terms unticked); nothing else changes |
| AuthForm.AuthCard.HandleInputChange | src/GlassCard.jsx:58-65 | only the field under the event's name changes, to the stored value, and no field changes for any other name; the error ends empty; nothing else changes |
| AuthForm.AuthCard.TogglePasswordVisibility | src/GlassCard.jsx:199 | flips the show-password flag only |
| AuthForm.AuthCard.Submit | src/GlassCard.jsx:67-143 | a request is sent iff the form is acceptable; on a failed guard the error is the validator's text and nothing else changes; otherwise exactly the mode's request is logged, loading ends false, a provider error is shown verbatim without navigation, login success or signup with a session go to `/home`, and signup without a session alerts and switches to login keeping the form |
| AuthForm.AuthCard.SocialLogin | src/GlassCard.jsx:145-159 | the OAuth request is logged; a provider error is shown and loading drops; on success loading stays up |
| AuthForm.SignupAsWritten | src/GlassCard.jsx:277-351 | as written, typing an email, a password and the same confirmation and ticking the terms still ends in "Please fill in all fields", and no request is sent |
| AuthForm.SignupAsIntended | src/GlassCard.jsx:115-136 | with named events, the same signup sends exactly the sign-up request; with no session returned, the next login submit sends an empty identifier |
| Faq.OverflowFor | src/FAQModal.jsx:21-28 | the body overflow is `hidden` iff the modal is open, `unset` iff closed |
| Faq.NextOpenIndex | src/FAQModal.jsx:72 | a click leaves the clicked entry expanded or none; none exactly when the clicked entry was the open one |
| Faq.ClickTwice | src/FAQModal.jsx:72 | two clicks on entry i give back i when i was open, and none expanded otherwise |
| Faq.FaqModal.constructor | src/FAQModal.jsx:9-28 | the first entry starts expanded and the overflow matches the open prop |
| Faq.FaqModal.ClickEntry | src/FAQModal.jsx:72 | the open index follows the click rule and stays none or an entry |
| Faq.FaqModal.SyncOverflow | src/FAQModal.jsx:21-28 | after the effect the overflow matches the open prop |
| Faq.FaqModal.Unmount | src/FAQModal.jsx:27 | the cleanup leaves the overflow `unset` |
| Faq.FaqModal.Render | src/FAQModal.jsx:30-95 | nothing is rendered iff closed; when open, three entries, entry k expanded iff the open index is k, so never two expanded |
| ThemeToggle.ToggledTheme | src/ThemeToggle.jsx:6-13 | the requested theme is light or dark, and dark exactly when the current theme is light |
| ThemeToggle.ToggleTwice | src/ThemeToggle.jsx:12 | two presses from light or dark restore the theme |
| ThemeToggle.ToggleTwiceUnknown | src/ThemeToggle.jsx:6-13 | two presses from any other value end at dark, not at the start value |
| ThemeToggle.ToggledTimesParity | src/ThemeToggle.jsx:11-13 | from light or dark, an even number of presses restores the theme and an odd number flips it |
| ThemeToggle.ToggledTimesKnown | src/ThemeToggle.jsx:11-13 | after at least one press the theme is light or dark, from any start |
| ThemeToggle.LanguageMenu.constructor | src/ThemeToggle.jsx:7-8 | the dropdown starts closed with the context's language |
| ThemeToggle.LanguageMenu.ToggleOpen | src/ThemeToggle.jsx:40 | the globe button flips the open flag and keeps the language |
| ThemeToggle.LanguageMenu.SelectLanguage | src/ThemeToggle.jsx:29-32 | the language becomes the chosen one and the dropdown is closed, whatever its prior state |
| ThemeToggle.LanguageMenu.MouseDown | src/ThemeToggle.jsx:17-21 | a mousedown outside closes the dropdown; one inside leaves it as it was |
| ThemeToggle.LanguageMenu.PressGlobe | src/ThemeToggle.jsx:17-40 | a full click on the globe (inside mousedown, then click) flips the dropdown, so it closes an open one |
| ThemeToggle.LanguageMenu.Options | src/ThemeToggle.jsx:57-76 | no options while closed; while open, English then Bangla, each marked selected iff it is the current language, so at most one is marked |
| NatureBackground.InitialTheme | src/NatureAnimatedBackground.jsx:31 | the initial theme is the stored value when present and non-empty, otherwise dark; never empty |
| NatureBackground.PaletteFor | src/NatureAnimatedBackground.jsx:46-47 | the light gradients iff the theme is exactly light |
| NatureBackground.GradientLayers | src/NatureAnimatedBackground.jsx:97-103 | exactly eight layers, numbered 1 to 8, all light iff the theme is exactly light |
| NatureBackground.KnownThemeConsistent | src/NatureAnimatedBackground.jsx:38-47 | for light and dark, the root has the dark class iff the dark gradients are drawn |
| NatureBackground.UnknownThemeMixed | src/NatureAnimatedBackground.jsx:38-47 | any other theme value gets no dark class and the dark gradients |
| NatureBackground.ReloadRestoresTheme | src/NatureAnimatedBackground.jsx:31-43 | a stored non-empty theme is read back unchanged on the next load |
| NatureBackground.Background.constructor | src/NatureAnimatedBackground.jsx:30-44 | after mounting: the initial theme, the root class and stored value in step with it, the FAQ closed with its first entry expanded |
| NatureBackground.Background.ToggleTheme | src/NatureAnimatedBackground.jsx:36-44 | the theme becomes the flipped one; the root has the dark class iff the theme is dark; storage holds the theme under `theme` and nothing else in it changes; a reload restores it |
| NatureBackground.Background.OpenFaq | src/NatureAnimatedBackground.jsx:145 | the FAQ button opens the modal and page scrolling is locked |
| NatureBackground.Background.CloseFaq | src/NatureAnimatedBackground.jsx:146 | closing sets the flag false and unlocks scrolling |
| NatureBackground.Background.KeyDown | src/FAQModal.jsx:12-18 | Escape closes the modal; any other key changes nothing |
| NatureBackground.Background.FaqView | src/NatureAnimatedBackground.jsx:146 | the modal renders nothing iff its flag is false, and otherwise shows the open index's entry expanded |
| ProfileHeader.Header.constructor | src/components/Header.jsx:7 | the profile menu starts closed |
| ProfileHeader.Header.AvatarClick | src/components/Header.jsx:71 | an avatar click flips the menu |
| ProfileHeader.Header.MouseDown | src/components/Header.jsx:23-26 | a mousedown outside closes the menu; one inside leaves it as it was |
| ProfileHeader.Header.PressAvatar | src/components/Header.jsx:69-71 | a full click on the avatar (inside mousedown, then click) flips the menu, so it closes an open one |
| ProfileHeader.Header.Logout | src/components/Header.jsx:11-20 | a successful sign-out closes the menu and goes to `/`; a sign-out error changes nothing |
| ProfileHeader.Header.View | src/components/Header.jsx:78-81 | the menu is shown iff open and the "Account" tooltip iff closed, never both |

## Left out

- The identity provider's calls (sign in, sign up, OAuth, sign out) are not modelled. Each one's answer is an input of the handler that awaits it.
- `async`/`await` is not modelled. Each handler is one atomic step, so events that arrive while a provider call is pending are out of the model. One example is a mode toggle during a submit, which the source does not disable.
- AuthForm.AuthCard.Submit: the moment when `loading` is true and the provider call is pending is not observable in one atomic step. The contract states only that a request is sent exactly when validation passes and that `loading` ends false.
- AuthForm.AuthCard.SocialLogin: the success path's browser redirect off the page is not modelled.
- The router is reduced to a recorded last route. `alert` is reduced to a recorded list of alert texts. `console.error` on a failed logout is dropped.
- The DOM `contains` test is a boolean parameter. The ref being unset is not modelled, since it is set while the listener is registered.
- The translations table is not part of this model. The password placeholder used as an error text is a parameter. The language is any string: `English` selects English and every other value selects Bangla.
- The language context's own state and any persistence of the language are not part of this model. The menu holds the current language as a field.
- Markup, class strings, inline styles, SVG, animation and the gradient colour values are not modelled. A gradient layer is reduced to its palette and position.
- AuthForm.AuthCard.HandleInputChange: an event whose name is not one of the seven keys adds that key to the JavaScript record (for example `formData[""]`). The model keeps only the seven fields. Nothing reads the extra key, and a mode toggle drops it.
- The home page, menu page, social button component and route table hold no state or decisions, and are not part of this model.

## Findings

| source | as written | input that shows it | evidently intended | confidence | as-written member | corrected member |
|---|---|---|---|---|---|---|
| src/GlassCard.jsx:12-22 | `InputField` neither takes nor forwards `name`, so the six signup text inputs (lines 277-343) report changes under the empty name, and `handleInputChange` writes none of the seven fields | signup mode: type an email, a password, the same confirmation, tick the terms, submit. The result is "Please fill in all fields" and nothing is sent | each input forwards its `name`, so it sets the field it shows, and a complete signup reaches the provider | high; not executed | AuthForm.SignupAsWritten | AuthForm.SignupAsIntended |
