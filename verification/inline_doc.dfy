/**
  The editable block as a sequence of inline items. A `MARK` element is an item
  carrying its `data-body` attribute and its own child items; text nodes are `Text`
  items. The DOM edits of the tool (`extractContents`, wrapping in a new marker,
  removing the emptied marker, `insertNode`) become rewrites of this sequence.
 */
module InlineDoc {
  import opened Wrappers

  /** The `data-body` attribute: absent (`getAttribute` gives `null`) or a string. */
  datatype Payload = Absent | Attr(value: string)

  /** An inline node: a text node, or a `MARK` element with its attribute and children. */
  datatype Item = Text(s: string) | Mark(payload: Payload, items: seq<Item>)

  /**
    The live selection. `Range(lo, hi)` spans the top-level items `lo .. hi-1` with both
    boundaries in the block itself; `InMark(i)` has a boundary inside the `MARK` at
    top-level index `i` (as left by `expandToTag`, or a caret/selection in its text).
   */
  datatype Selection = Range(lo: nat, hi: nat) | InMark(at: nat)

  /** The text content of a sequence of items, markers transparent. */
  function Flatten(d: seq<Item>): string
    decreases d
  {
    if |d| == 0 then [] else ItemText(d[0]) + Flatten(d[1..])
  }

  /** The text content of one item. */
  function ItemText(it: Item): string
    decreases it
  {
    match it
    case Text(s) => s
    case Mark(_, items) => Flatten(items)
  }

  /** A selection that denotes a place in `d`. */
  predicate ValidSel(d: seq<Item>, s: Selection)
  {
    match s
    case Range(lo, hi) => lo <= hi <= |d|
    case InMark(i) => i < |d| && d[i].Mark?
  }

  /** `findParentTag('MARK')`: the index of the marker enclosing the selection, if any. */
  function Enclosing(d: seq<Item>, s: Selection): (r: Option<nat>)
    ensures r.Some? <==> s.InMark? && ValidSel(d, s)
    ensures r.Some? ==> r.value == s.at && r.value < |d| && d[r.value].Mark?
  {
    match s
    case InMark(i) => if i < |d| && d[i].Mark? then Some(i) else None
    case Range(_, _) => None
  }

  /**
    The creation path of `insertLink`: extract the selected items, put them in a new
    marker whose payload is set at creation, and insert the marker where they were.
   */
  function Wrap(d: seq<Item>, lo: nat, hi: nat, p: Payload): (r: seq<Item>)
    requires lo <= hi <= |d|
    ensures |r| == |d| - (hi - lo) + 1
    ensures r[..lo] == d[..lo] && r[lo + 1..] == d[hi..]
    ensures r[lo] == Mark(p, d[lo..hi])
  {
    d[..lo] + [Mark(p, d[lo..hi])] + d[hi..]
  }

  /**
    `unlink`: extract the marker's children, remove the emptied marker and insert the
    children at its position.
   */
  function Unwrap(d: seq<Item>, i: nat): (r: seq<Item>)
    requires i < |d| && d[i].Mark?
    ensures |r| == |d| - 1 + |d[i].items|
    ensures r[..i] == d[..i] && r[i + |d[i].items|..] == d[i + 1..]
    ensures r[i..i + |d[i].items|] == d[i].items
  {
    d[..i] + d[i].items + d[i + 1..]
  }

  /** The editing path of `insertLink`: `setAttribute('data-body', …)` on an existing marker. */
  function SetPayload(d: seq<Item>, i: nat, p: Payload): (r: seq<Item>)
    requires i < |d| && d[i].Mark?
    ensures |r| == |d| && r[i] == Mark(p, d[i].items)
    ensures forall j :: 0 <= j < |d| && j != i ==> r[j] == d[j]
  {
    d[i := Mark(p, d[i].items)]
  }

  /** Flattening distributes over concatenation. */
  lemma {:induction false} FlattenAppend(a: seq<Item>, b: seq<Item>)
    ensures Flatten(a + b) == Flatten(a) + Flatten(b)
    decreases |a|
  {
    if |a| == 0 {
      assert a + b == b;
    } else {
      assert (a + b)[0] == a[0];
      assert (a + b)[1..] == a[1..] + b;
      FlattenAppend(a[1..], b);
    }
  }

  /** The text of a one-item sequence is the text of that item. */
  lemma FlattenSingleMark(p: Payload, items: seq<Item>)
    ensures Flatten([Mark(p, items)]) == Flatten(items)
  {
    assert [Mark(p, items)][1..] == [];
  }

  /** Flattening distributes over a three-way concatenation. */
  lemma FlattenAppend3(a: seq<Item>, b: seq<Item>, c: seq<Item>)
    ensures Flatten(a + b + c) == Flatten(a) + Flatten(b) + Flatten(c)
  {
    FlattenAppend(a + b, c);
    FlattenAppend(a, b);
  }

  /** Putting a run of items inside a marker does not change the text around it. */
  lemma FlattenWrapPieces(front: seq<Item>, mid: seq<Item>, back: seq<Item>, p: Payload)
    ensures Flatten(front + [Mark(p, mid)] + back) == Flatten(front + mid + back)
  {
    FlattenAppend3(front, [Mark(p, mid)], back);
    FlattenSingleMark(p, mid);
    FlattenAppend3(front, mid, back);
  }

  /** A sequence is the concatenation of its three slices around `lo` and `hi`. */
  lemma SliceThree(d: seq<Item>, lo: nat, hi: nat)
    requires lo <= hi <= |d|
    ensures d[..lo] + d[lo..hi] + d[hi..] == d
  {
  }

  /** Wrapping never changes the text of the block. */
  lemma WrapPreservesText(d: seq<Item>, lo: nat, hi: nat, p: Payload)
    requires lo <= hi <= |d|
    ensures Flatten(Wrap(d, lo, hi, p)) == Flatten(d)
  {
    SliceThree(d, lo, hi);
    FlattenWrapPieces(d[..lo], d[lo..hi], d[hi..], p);
  }

  /** Unwrapping never changes the text of the block. */
  lemma UnwrapPreservesText(d: seq<Item>, i: nat)
    requires i < |d| && d[i].Mark?
    ensures Flatten(Unwrap(d, i)) == Flatten(d)
  {
    SliceThree(d, i, i + 1);
    assert d[i..i + 1] == [Mark(d[i].payload, d[i].items)];
    FlattenWrapPieces(d[..i], d[i].items, d[i + 1..], d[i].payload);
  }

  /** Re-attributing a marker never changes the text of the block. */
  lemma SetPayloadPreservesText(d: seq<Item>, i: nat, p: Payload)
    requires i < |d| && d[i].Mark?
    ensures Flatten(SetPayload(d, i, p)) == Flatten(d)
  {
    var r := SetPayload(d, i, p);
    SliceThree(d, i, i + 1);
    SliceThree(r, i, i + 1);
    assert d[i..i + 1] == [Mark(d[i].payload, d[i].items)];
    assert r[i..i + 1] == [Mark(p, d[i].items)];
    assert r[..i] == d[..i] && r[i + 1..] == d[i + 1..];
    FlattenWrapPieces(d[..i], d[i].items, d[i + 1..], p);
    FlattenWrapPieces(d[..i], d[i].items, d[i + 1..], d[i].payload);
  }

  /** Setting the same payload twice is the same as setting it once. */
  lemma SetPayloadIdempotent(d: seq<Item>, i: nat, p: Payload)
    requires i < |d| && d[i].Mark?
    ensures SetPayload(SetPayload(d, i, p), i, p) == SetPayload(d, i, p)
  {
  }

  /** Unwrapping the marker just created by wrapping restores the original items. */
  lemma UnwrapWrap(d: seq<Item>, lo: nat, hi: nat, p: Payload)
    requires lo <= hi <= |d|
    ensures Unwrap(Wrap(d, lo, hi, p), lo) == d
  {
  }

  /** Conversely, re-wrapping the children of an unwrapped marker rebuilds it. */
  lemma WrapUnwrap(d: seq<Item>, i: nat)
    requires i < |d| && d[i].Mark?
    ensures Wrap(Unwrap(d, i), i, i + |d[i].items|, d[i].payload) == d
  {
  }

  /** Unwrapping and re-wrapping with another payload only re-attributes the marker. */
  lemma WrapUnwrapIsSetPayload(d: seq<Item>, i: nat, p: Payload)
    requires i < |d| && d[i].Mark?
    ensures Wrap(Unwrap(d, i), i, i + |d[i].items|, p) == SetPayload(d, i, p)
  {
  }
}
