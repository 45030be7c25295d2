/**
  The mark-description inline tool: a toggle button and a description textarea that
  wrap the selection in a `MARK` carrying `data-body`, edit that attribute, or unwrap
  the marker again. Every entry point is a pure transition of a `World`: the inline
  document, the live selection, the tool's own state and the requests it sends to
  the host toolbars.
 */
module MarkDescriptionTool {
  import opened Wrappers
  import opened JsString
  import opened InlineDoc

  /** Calls into the host that the model records instead of performing. */
  datatype Effect =
    | FocusInput          // `this.nodes.input.focus()`
    | ToolbarClose        // `this.toolbar.close()`
    | InlineToolbarClose  // `this.inlineToolbar.close()`

  /**
    The tool's state: `inputOpened`, the textarea's shown class and value, the
    button's active and unlink classes, and the two facts kept by the tool's
    selection helper (fake background enabled, saved selection) plus the last
    range handed to `surround`.
   */
  datatype Control = Control(
    inputOpened: bool,
    inputShown: bool,
    inputValue: string,
    buttonActive: bool,
    buttonUnlink: bool,
    fakeBackground: bool,
    saved: Option<Selection>,
    range: Option<Selection>)

  datatype World = World(doc: seq<Item>, sel: Selection, ctl: Control, effects: seq<Effect>)

  /** The outcome of a handler: it returned, or a `TypeError` escaped from it. */
  datatype Run = Done(world: World) | Threw(world: World)

  /** The live selection denotes a place in the document. */
  predicate Valid(w: World)
  {
    ValidSel(w.doc, w.sel)
  }

  /**
    The tool's own bookkeeping agrees with itself: the textarea is shown exactly when
    `inputOpened`; a closed input is empty and has no fake background; an open input
    has a saved selection to return to.
   */
  predicate Consistent(w: World)
  {
    && w.ctl.inputOpened == w.ctl.inputShown
    && (!w.ctl.inputOpened ==> w.ctl.inputValue == [] && !w.ctl.fakeBackground)
    && (w.ctl.inputOpened ==> w.ctl.saved.Some?)
  }

  /** The three states of the toggle: closed, opened to create a marker, opened on an existing one. */
  datatype Phase = Closed | OpenForCreate | OpenForEdit

  /**
    Opening through `surround` freezes the selection under a fake background; opening
    through `checkState` does not.
   */
  function PhaseOf(w: World): Phase
  {
    if !w.ctl.inputOpened then Closed
    else if w.ctl.fakeBackground then OpenForCreate
    else OpenForEdit
  }

  /** The state right after the constructor and `render`/`renderActions`. */
  function Initial(doc: seq<Item>, sel: Selection): (w: World)
    requires ValidSel(doc, sel)
    ensures Valid(w) && !w.ctl.inputOpened && w.ctl.saved == None && w.effects == []
  {
    World(doc, sel, Control(false, false, [], false, false, false, None, None), [])
  }

  // ---------------------------------------------------------------------------
  // The selection helper, as abstract effects on the world.
  // ---------------------------------------------------------------------------

  function Save(w: World): World
  {
    w.(ctl := w.ctl.(saved := Some(w.sel)))
  }

  /** Re-select the saved range; nothing happens without one that fits the document. */
  function Restore(w: World): (r: World)
    requires Valid(w)
    ensures Valid(r) && r.doc == w.doc && r.ctl == w.ctl && r.effects == w.effects
    ensures w.ctl.saved.Some? && ValidSel(w.doc, w.ctl.saved.value) ==> r.sel == w.ctl.saved.value
    ensures !(w.ctl.saved.Some? && ValidSel(w.doc, w.ctl.saved.value)) ==> r == w
  {
    match w.ctl.saved
    case Some(s) => if ValidSel(w.doc, s) then w.(sel := s) else w
    case None => w
  }

  function SetFakeBackground(w: World): World
  {
    w.(ctl := w.ctl.(fakeBackground := true))
  }

  function RemoveFakeBackground(w: World): World
  {
    w.(ctl := w.ctl.(fakeBackground := false))
  }

  function ExpandToTag(w: World, i: nat): World
  {
    w.(sel := InMark(i))
  }

  /** Collapse the live selection onto its end boundary; a caret inside a marker stays there. */
  function CollapseToEnd(w: World): (r: World)
    requires Valid(w)
    ensures Valid(r) && r.doc == w.doc && r.ctl == w.ctl && r.effects == w.effects
    ensures w.sel.Range? ==> r.sel == Range(w.sel.hi, w.sel.hi)
    ensures Enclosing(r.doc, r.sel) == Enclosing(w.doc, w.sel)
  {
    match w.sel
    case Range(_, hi) => w.(sel := Range(hi, hi))
    case InMark(_) => w
  }

  function Emit(w: World, e: Effect): World
  {
    w.(effects := w.effects + [e])
  }

  // ---------------------------------------------------------------------------
  // Document edits.
  // ---------------------------------------------------------------------------

  /**
    `insertLink`: re-attribute the enclosing marker, or wrap the selected items in a
    new marker carrying `link` (untrimmed). Either way the selection ends inside the
    marker.
   */
  function InsertLink(w: World, link: string): (r: World)
    requires Valid(w)
    ensures Valid(r) && r.ctl == w.ctl && r.effects == w.effects
    ensures Flatten(r.doc) == Flatten(w.doc)
    ensures Enclosing(w.doc, w.sel).Some? ==>
      var i := w.sel.at;
      && r.sel == w.sel
      && |r.doc| == |w.doc|
      && r.doc[i] == Mark(Attr(link), w.doc[i].items)
      && (forall j :: 0 <= j < |w.doc| && j != i ==> r.doc[j] == w.doc[j])
    ensures Enclosing(w.doc, w.sel).None? ==>
      var lo, hi := w.sel.lo, w.sel.hi;
      && w.sel.Range?
      && r.sel == InMark(lo)
      && r.doc[lo] == Mark(Attr(link), w.doc[lo..hi])
      && r.doc[..lo] == w.doc[..lo]
      && r.doc[lo + 1..] == w.doc[hi..]
  {
    match Enclosing(w.doc, w.sel)
    case Some(i) =>
      SetPayloadPreservesText(w.doc, i, Attr(link));
      ExpandToTag(w.(doc := SetPayload(w.doc, i, Attr(link))), i)
    case None =>
      var lo, hi := w.sel.lo, w.sel.hi;
      WrapPreservesText(w.doc, lo, hi, Attr(link));
      ExpandToTag(w.(doc := Wrap(w.doc, lo, hi, Attr(link))), lo)
  }

  /** `unlink` on the marker at index `i`: its children take its place and are selected. */
  function UnlinkAt(w: World, i: nat): (r: World)
    requires Valid(w) && i < |w.doc| && w.doc[i].Mark?
    ensures Valid(r) && r.ctl == w.ctl && r.effects == w.effects
    ensures r.doc == Unwrap(w.doc, i) && r.sel == Range(i, i + |w.doc[i].items|)
    ensures Flatten(r.doc) == Flatten(w.doc)
  {
    UnwrapPreservesText(w.doc, i);
    w.(doc := Unwrap(w.doc, i), sel := Range(i, i + |w.doc[i].items|))
  }

  /**
    `unlink`: it dereferences the enclosing marker without a check, so without one
    the handler throws and the document is untouched.
   */
  function Unlink(w: World): (r: Run)
    requires Valid(w)
    ensures r.Threw? <==> Enclosing(w.doc, w.sel).None?
    ensures r.Threw? ==> r.world == w
    ensures r.Done? ==>
      && Valid(r.world)
      && r.world.doc == Unwrap(w.doc, w.sel.at)
      && Flatten(r.world.doc) == Flatten(w.doc)
      && r.world.ctl == w.ctl
      && r.world.sel == Range(w.sel.at, w.sel.at + |w.doc[w.sel.at].items|)
      && r.world.effects == w.effects
  {
    match Enclosing(w.doc, w.sel)
    case Some(i) => Done(UnlinkAt(w, i))
    case None => Threw(w)
  }

  // ---------------------------------------------------------------------------
  // The toggle state machine.
  // ---------------------------------------------------------------------------

  /** `openActions(needFocus)`: show the textarea, focusing it only when asked. */
  function OpenActions(w: World, needFocus: bool): (r: World)
    ensures r.ctl.inputOpened && r.ctl.inputShown
    ensures r.doc == w.doc && r.sel == w.sel
    ensures r.ctl == w.ctl.(inputOpened := true, inputShown := true)
    ensures r.effects == w.effects + (if needFocus then [FocusInput] else [])
  {
    var w1 := w.(ctl := w.ctl.(inputShown := true));
    var w2 := if needFocus then Emit(w1, FocusInput) else w1;
    w2.(ctl := w2.ctl.(inputOpened := true))
  }

  /**
    `closeActions(clearSavedSelection)`: hide and empty the textarea. When the fake
    background is on, the current selection is kept aside while the saved one is
    restored to remove the background, then put back.
   */
  function CloseActions(w: World, clearSaved: bool): (r: World)
    requires Valid(w)
    ensures Valid(r)
    ensures !r.ctl.inputOpened && !r.ctl.inputShown && r.ctl.inputValue == []
    ensures !r.ctl.fakeBackground
    ensures r.ctl.saved == (if clearSaved then None else w.ctl.saved)
    ensures r.doc == w.doc && r.sel == w.sel && r.effects == w.effects
    ensures r.ctl.buttonActive == w.ctl.buttonActive && r.ctl.buttonUnlink == w.ctl.buttonUnlink
    ensures r.ctl.range == w.ctl.range
  {
    var w1 :=
      if w.ctl.fakeBackground then
        var current := w.sel;
        RemoveFakeBackground(Restore(w)).(sel := current)
      else w;
    var w2 := w1.(ctl := w1.ctl.(inputShown := false, inputValue := []));
    var w3 := if clearSaved then w2.(ctl := w2.ctl.(saved := None)) else w2;
    w3.(ctl := w3.ctl.(inputOpened := false))
  }

  /** `toggleActions`: open with focus when closed, otherwise close keeping the saved selection. */
  function ToggleActions(w: World): (r: World)
    requires Valid(w)
    ensures Valid(r) && r.doc == w.doc && r.sel == w.sel
    ensures r.ctl.inputOpened == !w.ctl.inputOpened
    ensures r.ctl.inputShown == !w.ctl.inputOpened
    ensures r.ctl.saved == w.ctl.saved
    ensures !w.ctl.inputOpened ==> r.effects == w.effects + [FocusInput]
    ensures w.ctl.inputOpened ==> r.effects == w.effects && r.ctl.inputValue == []
    ensures !w.ctl.inputOpened ==> r.ctl == w.ctl.(inputOpened := true, inputShown := true)
    ensures w.ctl.inputOpened ==>
      r.ctl == w.ctl.(inputOpened := false, inputShown := false, inputValue := [], fakeBackground := false)
  {
    if !w.ctl.inputOpened then OpenActions(w, true) else CloseActions(w, false)
  }

  /** What the textarea shows for a `data-body` value: `null` and the string "null" show as empty. */
  function Display(p: Payload): (v: string)
    ensures p.Absent? ==> v == []
    ensures p.Attr? && p.value != "null" ==> v == p.value
    ensures p.Attr? && p.value == "null" ==> v == []
  {
    match p
    case Absent => []
    case Attr(s) => if s != "null" then s else []
  }

  /**
    `checkState`: true exactly when the selection is inside a marker. Then the input
    opens without focus, pre-filled with the marker's description, the button shows
    active and unlink, and the selection is saved; otherwise both button states go.
   */
  function CheckState(w: World): (r: (bool, World))
    requires Valid(w)
    ensures Valid(r.1) && r.1.doc == w.doc && r.1.sel == w.sel && r.1.effects == w.effects
    ensures r.0 <==> Enclosing(w.doc, w.sel).Some?
    ensures r.0 ==>
      && r.1.ctl.inputOpened && r.1.ctl.inputShown
      && r.1.ctl.buttonActive && r.1.ctl.buttonUnlink
      && r.1.ctl.inputValue == Display(w.doc[w.sel.at].payload)
      && r.1.ctl.saved == Some(w.sel)
    ensures r.0 ==>
      r.1.ctl == w.ctl.(buttonUnlink := true, buttonActive := true, inputOpened := true, inputShown := true,
                        inputValue := Display(w.doc[w.sel.at].payload), saved := Some(w.sel))
    ensures !r.0 ==> r.1.ctl == w.ctl.(buttonActive := false, buttonUnlink := false)
  {
    match Enclosing(w.doc, w.sel)
    case Some(i) =>
      var w1 := w.(ctl := w.ctl.(buttonUnlink := true, buttonActive := true));
      var w2 := OpenActions(w1, false);
      var w3 := w2.(ctl := w2.ctl.(inputValue := Display(w.doc[i].payload)));
      (true, Save(w3))
    case None =>
      (false, w.(ctl := w.ctl.(buttonUnlink := false, buttonActive := false)))
  }

  /** `clear`: the host closes the inline toolbar. */
  function Clear(w: World): (r: World)
    requires Valid(w)
    ensures Valid(r) && r.doc == w.doc && r.sel == w.sel && r.effects == w.effects
    ensures !r.ctl.inputOpened && !r.ctl.inputShown && r.ctl.inputValue == []
    ensures r.ctl.saved == None && !r.ctl.fakeBackground
    ensures r.ctl ==
      w.ctl.(inputOpened := false, inputShown := false, inputValue := [], fakeBackground := false, saved := None)
  {
    CloseActions(w, true)
  }

  /**
    The first half of `surround` on a range: when the input is closed, freeze the
    selection (fake background) and save it; when open, go back to the saved
    selection and drop the background.
   */
  function SurroundPrepare(w: World, s: Selection): (r: World)
    requires ValidSel(w.doc, s)
    ensures Valid(r) && r.doc == w.doc && r.effects == w.effects
    ensures r.ctl.range == Some(s) && r.ctl.inputOpened == w.ctl.inputOpened
    ensures !w.ctl.inputOpened ==> r.sel == s && r.ctl.fakeBackground && r.ctl.saved == Some(s)
    ensures w.ctl.inputOpened ==> !r.ctl.fakeBackground && r.ctl.saved == w.ctl.saved
    ensures w.ctl.inputOpened && w.ctl.saved.Some? && ValidSel(w.doc, w.ctl.saved.value) ==>
      r.sel == w.ctl.saved.value
    ensures !w.ctl.inputOpened ==>
      r == w.(sel := s, ctl := w.ctl.(range := Some(s), fakeBackground := true, saved := Some(s)))
    ensures w.ctl.inputOpened ==>
      && r.ctl == w.ctl.(range := Some(s), fakeBackground := false)
      && r.sel == (if w.ctl.saved.Some? && ValidSel(w.doc, w.ctl.saved.value) then w.ctl.saved.value else s)
  {
    var w1 := w.(sel := s, ctl := w.ctl.(range := Some(s)));
    if !w1.ctl.inputOpened then Save(SetFakeBackground(w1))
    else RemoveFakeBackground(Restore(w1))
  }

  /**
    `surround(range)`: no range, no change. Inside a marker it unlinks it, closes the
    input and asks the toolbar to close; otherwise it toggles the input.
   */
  function Surround(w: World, range: Option<Selection>): (r: World)
    requires Valid(w)
    requires range.Some? ==> ValidSel(w.doc, range.value)
    ensures Valid(r)
    ensures range.None? ==> r == w
    ensures range.Some? ==>
      var p := SurroundPrepare(w, range.value);
      match Enclosing(p.doc, p.sel)
      case Some(i) =>
        && r.doc == Unwrap(p.doc, i)
        && r.sel == Range(i, i + |p.doc[i].items|)
        && !r.ctl.inputOpened && !r.ctl.inputShown && r.ctl.inputValue == []
        && !r.ctl.buttonActive && !r.ctl.buttonUnlink
        && r.ctl.saved == None && !r.ctl.fakeBackground
        && r.effects == w.effects + [ToolbarClose]
      case None =>
        && r.doc == w.doc && r.sel == p.sel
        && r.ctl.inputOpened == !w.ctl.inputOpened
        && r.ctl == (if w.ctl.inputOpened
                     then p.ctl.(inputOpened := false, inputShown := false, inputValue := [])
                     else p.ctl.(inputOpened := true, inputShown := true))
        && r.ctl.saved == p.ctl.saved
        && r.effects == w.effects + (if w.ctl.inputOpened then [] else [FocusInput])
  {
    match range
    case None => w
    case Some(s) =>
      var p := SurroundPrepare(w, s);
      match Enclosing(p.doc, p.sel)
      case Some(i) =>
        var w1 := UnlinkAt(ExpandToTag(p, i), i);
        var w2 := CloseActions(w1, true);
        var w3 := CheckState(w2).1;
        Emit(w3, ToolbarClose)
      case None =>
        ToggleActions(p)
  }

  /**
    The unconditional tail of `enterPressed`: restore the selection, drop the
    background, apply the raw value, collapse the selection and close the inline toolbar.
   */
  function Commit(w: World, value: string): (r: World)
    requires Valid(w)
    ensures Valid(r)
    ensures r.effects == w.effects + [InlineToolbarClose]
    ensures r.ctl == w.ctl.(fakeBackground := false)
    ensures Flatten(r.doc) == Flatten(w.doc)
    ensures var s := Restore(w).sel;
      match Enclosing(w.doc, s)
      case Some(i) => r.doc == SetPayload(w.doc, i, Attr(value)) && r.sel == InMark(i)
      case None => r.doc == Wrap(w.doc, s.lo, s.hi, Attr(value)) && r.sel == InMark(s.lo)
  {
    var w1 := RemoveFakeBackground(Restore(w));
    var w2 := InsertLink(w1, value);
    assert Enclosing(w1.doc, w1.sel).None? ==>
      w2.doc == w2.doc[..w1.sel.lo] + [w2.doc[w1.sel.lo]] + w2.doc[w1.sel.lo + 1..];
    Emit(CollapseToEnd(w2), InlineToolbarClose)
  }

  /**
    `enterPressed`: a blank value first restores the selection, unlinks and closes the
    input; then, blank or not, the raw value is committed.
   */
  function EnterPressed(w: World): (r: Run)
    requires Valid(w)
    ensures Valid(r.world)
    ensures Flatten(r.world.doc) == Flatten(w.doc)
    ensures r.Threw? <==>
      Trim(w.ctl.inputValue) == [] && Enclosing(Restore(w).doc, Restore(w).sel).None?
    ensures r.Threw? ==> r.world == Restore(w)
    ensures Trim(w.ctl.inputValue) != [] ==>
      var value, s := w.ctl.inputValue, Restore(w).sel;
      && r.Done?
      && r.world.ctl == w.ctl.(fakeBackground := false)
      && match Enclosing(w.doc, s)
         case Some(i) => r.world.doc == SetPayload(w.doc, i, Attr(value)) && r.world.sel == InMark(i)
         case None => r.world.doc == Wrap(w.doc, s.lo, s.hi, Attr(value)) && r.world.sel == InMark(s.lo)
    ensures r.Done? ==> r.world.effects == w.effects + [InlineToolbarClose]
  {
    var value := w.ctl.inputValue;
    if Trim(value) == [] then
      match Unlink(Restore(w))
      case Threw(w1) => Threw(w1)
      case Done(w1) => Done(Commit(CloseActions(w1, true), value))
    else
      Done(Commit(w, value))
  }
}
