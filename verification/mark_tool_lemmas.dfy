/**
  Properties that relate several entry points of the mark-description tool:
  idempotent re-attribution, wrap/unwrap round trips through the tool's own
  selection handling, the blank-commit edge cases and the create/edit/cancel flows.
 */
module MarkToolLemmas {
  import opened Wrappers
  import opened JsString
  import opened InlineDoc
  import opened MarkDescriptionTool

  /** Applying the same description twice is the same as applying it once, on both paths. */
  lemma InsertLinkIdempotent(w: World, link: string)
    requires Valid(w)
    ensures InsertLink(InsertLink(w, link), link) == InsertLink(w, link)
  {
  }

  /** Unlinking right after the creation path restores the document and the selection. */
  lemma UnlinkAfterCreate(w: World, link: string)
    requires Valid(w) && Enclosing(w.doc, w.sel).None?
    ensures Unlink(InsertLink(w, link)) == Done(w)
  {
  }

  /**
    A blank commit with no marker around the restored selection throws out of
    `unlink` before anything is written.
   */
  lemma BlankCommitWithoutMarkThrows(w: World)
    requires Valid(w) && AllWhiteSpace(w.ctl.inputValue)
    requires Enclosing(Restore(w).doc, Restore(w).sel).None?
    ensures EnterPressed(w) == Threw(Restore(w))
  {
    TrimEmptyIffAllWhiteSpace(w.ctl.inputValue);
  }

  /**
    A blank commit inside a marker unlinks it and then wraps the same items again:
    the net effect is a marker at the same place carrying the blank value, with the
    input closed and the saved selection gone.
   */
  lemma BlankCommitReattributes(w: World, i: nat)
    requires Valid(w) && AllWhiteSpace(w.ctl.inputValue)
    requires Enclosing(Restore(w).doc, Restore(w).sel) == Some(i)
    ensures EnterPressed(w).Done?
    ensures EnterPressed(w).world.doc == SetPayload(w.doc, i, Attr(w.ctl.inputValue))
    ensures EnterPressed(w).world.sel == InMark(i)
    ensures !EnterPressed(w).world.ctl.inputOpened && EnterPressed(w).world.ctl.inputValue == []
    ensures EnterPressed(w).world.ctl.saved == None
  {
    var value := w.ctl.inputValue;
    TrimEmptyIffAllWhiteSpace(value);
    var w0 := Restore(w);
    var w1 := UnlinkAt(w0, i);
    var w2 := CloseActions(w1, true);
    assert Restore(w2) == w2;
    var k := |w.doc[i].items|;
    assert w2.sel == Range(i, i + k);
    var w3 := InsertLink(w2, value);
    assert w3.doc == Wrap(w2.doc, i, i + k, Attr(value)) by {
      assert w3.doc == w3.doc[..i] + [w3.doc[i]] + w3.doc[i + 1..];
    }
    WrapUnwrapIsSetPayload(w.doc, i, Attr(value));
  }

  /**
    Creating a description: from a closed tool with a plain selection, `surround`
    opens the input with focus; after typing a non-blank value, Enter wraps exactly
    the selected items in a marker carrying it; the host's `clear` then closes.
   */
  lemma CreateFlow(doc: seq<Item>, lo: nat, hi: nat, value: string)
    requires lo <= hi <= |doc| && Trim(value) != []
    ensures
      var w0 := Initial(doc, Range(lo, hi));
      var w1 := Surround(w0, Some(Range(lo, hi)));
      var w2 := w1.(ctl := w1.ctl.(inputValue := value));
      var r := EnterPressed(w2);
      && w1.ctl.inputOpened && w1.effects == [FocusInput] && w1.doc == doc
      && r.Done?
      && r.world.doc == Wrap(doc, lo, hi, Attr(value))
      && r.world.effects == [FocusInput, InlineToolbarClose]
      && !Clear(r.world).ctl.inputOpened
  {
  }

  /**
    Editing a description: `checkState` inside a marker saves the selection, so a
    non-blank Enter re-attributes that marker and changes nothing else.
   */
  lemma EditFlow(w: World, i: nat, value: string)
    requires Valid(w) && w.sel == InMark(i) && Trim(value) != []
    ensures
      var c := CheckState(w);
      var w2 := c.1.(ctl := c.1.ctl.(inputValue := value));
      && c.0
      && EnterPressed(w2).Done?
      && EnterPressed(w2).world.doc == SetPayload(w.doc, i, Attr(value))
  {
  }

  /**
    Triggering the tool again while the input it opened is still showing cancels:
    the input closes, the document is untouched and the selection it saved is kept.
   */
  lemma SurroundTwiceCancels(w: World, lo: nat, hi: nat, s: Selection)
    requires Valid(w) && !w.ctl.inputOpened && lo <= hi <= |w.doc| && ValidSel(w.doc, s)
    ensures
      var w1 := Surround(w, Some(Range(lo, hi)));
      var w2 := Surround(w1, Some(s));
      && w1.ctl.inputOpened
      && !w2.ctl.inputOpened && !w2.ctl.inputShown && w2.ctl.inputValue == []
      && w2.doc == w.doc && w2.sel == Range(lo, hi)
      && w2.ctl.saved == Some(Range(lo, hi))
  {
  }

  // ---------------------------------------------------------------------------
  // The consistency invariant and the three phases.
  // ---------------------------------------------------------------------------

  /** A freshly constructed tool is consistent and closed. */
  lemma InitialConsistent(doc: seq<Item>, sel: Selection)
    requires ValidSel(doc, sel)
    ensures Consistent(Initial(doc, sel)) && PhaseOf(Initial(doc, sel)) == Closed
  {
  }

  /** Closing, with or without clearing the saved selection, always reaches a consistent closed state. */
  lemma CloseActionsCloses(w: World, clearSaved: bool)
    requires Valid(w)
    ensures Consistent(CloseActions(w, clearSaved)) && PhaseOf(CloseActions(w, clearSaved)) == Closed
  {
  }

  /** Opening keeps the tool consistent as long as a selection was saved to return to. */
  lemma OpenActionsPreservesConsistent(w: World, needFocus: bool)
    requires Consistent(w) && w.ctl.saved.Some?
    ensures Consistent(OpenActions(w, needFocus)) && PhaseOf(OpenActions(w, needFocus)) != Closed
  {
  }

  /** Toggling keeps the tool consistent when a selection is saved, and flips open and closed. */
  lemma ToggleActionsPreservesConsistent(w: World)
    requires Valid(w) && Consistent(w) && w.ctl.saved.Some?
    ensures Consistent(ToggleActions(w))
    ensures (PhaseOf(ToggleActions(w)) == Closed) <==> (PhaseOf(w) != Closed)
  {
  }

  /** `surround` keeps the tool consistent. */
  lemma SurroundPreservesConsistent(w: World, range: Option<Selection>)
    requires Valid(w) && Consistent(w)
    requires range.Some? ==> ValidSel(w.doc, range.value)
    ensures Consistent(Surround(w, range))
  {
  }

  /** `checkState` keeps the tool consistent. */
  lemma CheckStatePreservesConsistent(w: World)
    requires Valid(w) && Consistent(w)
    ensures Consistent(CheckState(w).1)
  {
  }

  /** `clear` always reaches a consistent closed state. */
  lemma ClearCloses(w: World)
    requires Valid(w)
    ensures Consistent(Clear(w)) && PhaseOf(Clear(w)) == Closed
  {
  }

  /** `enterPressed` keeps the tool consistent, whether it completes or throws. */
  lemma EnterPressedPreservesConsistent(w: World)
    requires Valid(w) && Consistent(w)
    ensures Consistent(EnterPressed(w).world)
  {
  }

  /**
    The transitions of `surround` between phases: from Closed on plain text it opens
    for creation; inside a marker, or from either open phase, it ends Closed.
   */
  lemma SurroundPhases(w: World, s: Selection)
    requires Valid(w) && Consistent(w) && ValidSel(w.doc, s)
    ensures PhaseOf(w) == Closed && s.Range? ==> PhaseOf(Surround(w, Some(s))) == OpenForCreate
    ensures PhaseOf(w) == Closed && s.InMark? ==> PhaseOf(Surround(w, Some(s))) == Closed
    ensures PhaseOf(w) != Closed ==> PhaseOf(Surround(w, Some(s))) == Closed
  {
  }

  /** `checkState` from Closed opens for editing exactly when a marker encloses the selection. */
  lemma CheckStatePhases(w: World)
    requires Valid(w) && Consistent(w) && PhaseOf(w) == Closed
    ensures PhaseOf(CheckState(w).1) == (if Enclosing(w.doc, w.sel).Some? then OpenForEdit else Closed)
  {
  }
}
