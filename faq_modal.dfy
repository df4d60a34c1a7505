/**
 * The FAQ modal: a three-entry accordion driven by a single `openIndex`, an Escape rule,
 * and the page-scroll lock it puts on the document body while open.
 */
module Faq {
  import opened Wrappers

  /** The number of question/answer entries the modal lists. */
  const EntryCount: int := 3
  /** The `openIndex` value meaning "no entry expanded". */
  const NoneOpen: int := -1

  const Hidden := "hidden"
  const Unset := "unset"

  /** The body's `overflow` style the effect sets for a given `isOpen` prop. */
  function OverflowFor(isOpen: bool): (r: string)
    ensures r == Hidden <==> isOpen
    ensures r == Unset <==> !isOpen
  {
    if isOpen then Hidden else Unset
  }

  /** Clicking entry `clicked` collapses it when it is the open one and expands it otherwise. */
  function NextOpenIndex(openIndex: int, clicked: int): (r: int)
    requires 0 <= clicked < EntryCount
    ensures r == clicked || r == NoneOpen
    ensures r == NoneOpen <==> clicked == openIndex
  {
    if clicked == openIndex then NoneOpen else clicked
  }

  /** Two clicks on one entry restore an expanded entry and leave any other state collapsed. */
  lemma ClickTwice(openIndex: int, clicked: int)
    requires 0 <= clicked < EntryCount
    ensures NextOpenIndex(NextOpenIndex(openIndex, clicked), clicked) == (if openIndex == clicked then clicked else NoneOpen)
  {
  }

  /** Only the Escape key asks the modal's owner to close it. */
  predicate ClosesOnKey(key: string) {
    key == "Escape"
  }

  class FaqModal {
    var openIndex: int
    /** `document.body.style.overflow`, which only this modal writes. */
    var bodyOverflow: string

    ghost predicate Valid()
      reads this
    {
      NoneOpen <= openIndex < EntryCount
    }

    /** Mounting: the first entry starts expanded and the overflow effect runs once. */
    constructor (isOpen: bool)
      ensures Valid() && openIndex == 0 && bodyOverflow == OverflowFor(isOpen)
    {
      openIndex := 0;
      bodyOverflow := OverflowFor(isOpen);
    }

    method ClickEntry(i: int)
      requires Valid() && 0 <= i < EntryCount
      modifies this`openIndex
      ensures Valid() && openIndex == NextOpenIndex(old(openIndex), i)
    {
      openIndex := if i == openIndex then NoneOpen else i;
    }

    /** The overflow effect, re-run whenever the `isOpen` prop changes (cleanup, then effect). */
    method SyncOverflow(isOpen: bool)
      modifies this`bodyOverflow
      ensures bodyOverflow == OverflowFor(isOpen)
    {
      bodyOverflow := Unset;
      if isOpen {
        bodyOverflow := Hidden;
      } else {
        bodyOverflow := Unset;
      }
    }

    /** The effect's cleanup on unmount. */
    method Unmount()
      modifies this`bodyOverflow
      ensures bodyOverflow == Unset
    {
      bodyOverflow := Unset;
    }

    /**
     * What the modal renders: nothing when closed; otherwise, per entry, whether it is shown
     * expanded. At most one entry is expanded.
     */
    function Render(isOpen: bool): (r: Option<seq<bool>>)
      reads this
      ensures r.None? <==> !isOpen
      ensures r.Some? ==> |r.value| == EntryCount
      ensures r.Some? ==> forall k :: 0 <= k < |r.value| ==> (r.value[k] <==> openIndex == k)
      ensures r.Some? ==> forall j, k :: 0 <= j < k < |r.value| ==> !(r.value[j] && r.value[k])
    {
      if !isOpen then None
      else
        var current := openIndex;
        Some(seq(EntryCount, k => current == k))
    }
  }
}
