/** The per-slot loops of history and events: the nested lists of the
    entities (each rider's events, each weekend's races) are spread over
    slot columns 0, 1, ...; the loop takes one slot column at a time, makes a
    frame with one row per entity, tags it with the 1-based slot number and
    appends it. An entity with fewer items than the widest gives a row with
    no item (all NaN) in the slots it lacks. */
module Tagging {
  import opened JsonValues

  /** One row of the concatenated frame: the entity it belongs to (its
      position in the index), the slot tag, and the item, if the entity has
      one in that slot. */
  datatype Tagged<R> = Tagged(entity: nat, tag: nat, item: Option<R>)

  /** The number of slot columns: the length of the longest list. */
  function Width<R>(groups: seq<seq<R>>): (w: nat)
    ensures forall g :: g in groups ==> |g| <= w
    ensures groups != [] ==> exists g :: g in groups && |g| == w
    ensures groups == [] ==> w == 0
  {
    if groups == [] then 0
    else
      var rest := Width(groups[1..]);
      assert forall g :: g in groups ==> g == groups[0] || g in groups[1..];
      if |groups[0]| >= rest then |groups[0]| else rest
  }

  /** The row of entity e in the frame of slot p. */
  function Cell<R>(groups: seq<seq<R>>, e: nat, p: nat): Tagged<R>
    requires e < |groups|
  {
    Tagged(e, p + 1, if p < |groups[e]| then Some(groups[e][p]) else None)
  }

  /** row is the row of its entity for its tag's slot: tagged t, it holds
      the item at position t - 1 of its entity's list, or no item when the
      list is shorter. */
  ghost predicate InSlot<R>(groups: seq<seq<R>>, row: Tagged<R>)
  {
    && row.entity < |groups| && 1 <= row.tag
    && row.item == (if row.tag <= |groups[row.entity]| then Some(groups[row.entity][row.tag - 1]) else None)
  }

  /** The frame of slot p: one row per entity, in index order. */
  function SlotFrame<R>(groups: seq<seq<R>>, p: nat): (f: seq<Tagged<R>>)
    ensures |f| == |groups|
    ensures forall e :: 0 <= e < |groups| ==> f[e] == Cell(groups, e, p)
  {
    seq(|groups|, e requires 0 <= e < |groups| => Cell(groups, e, p))
  }

  /** The frames of slots 0 .. p - 1, concatenated in slot order. */
  function FramesBefore<R>(groups: seq<seq<R>>, p: nat): seq<Tagged<R>>
  {
    if p == 0 then [] else FramesBefore(groups, p - 1) + SlotFrame(groups, p - 1)
  }

  /** pd.concat(dfs) after the loop over every slot column. */
  function TagAll<R>(groups: seq<seq<R>>): seq<Tagged<R>>
  {
    FramesBefore(groups, Width(groups))
  }

  /** The frame of one slot column, built row by row and tagged p + 1. */
  method SlotRows<R>(groups: seq<seq<R>>, p: nat) returns (frame: seq<Tagged<R>>)
    ensures frame == SlotFrame(groups, p)
  {
    frame := [];
    var e := 0;
    while e < |groups|
      invariant 0 <= e <= |groups|
      invariant |frame| == e
      invariant forall j :: 0 <= j < e ==> frame[j] == Cell(groups, j, p)
    {
      var item := if p < |groups[e]| then Some(groups[e][p]) else None;
      frame := frame + [Tagged(e, p + 1, item)];
      e := e + 1;
    }
  }

  /** The loop over the slot columns: each slot's frame is appended to what
      the earlier slots gave. */
  method TagSlots<R>(groups: seq<seq<R>>) returns (rows: seq<Tagged<R>>)
    ensures rows == TagAll(groups)
  {
    var width := Width(groups);
    rows := [];
    var p := 0;
    while p < width
      invariant 0 <= p <= width
      invariant rows == FramesBefore(groups, p)
    {
      var frame := SlotRows(groups, p);
      rows := rows + frame;
      p := p + 1;
    }
  }

  /** There is one row per entity and slot. */
  lemma {:induction false} FramesBeforeLength<R>(groups: seq<seq<R>>, p: nat)
    ensures |FramesBefore(groups, p)| == p * |groups|
  {
    if p > 0 {
      FramesBeforeLength(groups, p - 1);
      assert p * |groups| == (p - 1) * |groups| + |groups|;
    }
  }

  /** The row of entity e in slot q sits at q * n + e, where n is the number
      of entities. */
  lemma {:induction false} FramesBeforeAt<R>(groups: seq<seq<R>>, p: nat, q: nat, e: nat)
    requires q < p && e < |groups|
    ensures q * |groups| + e < |FramesBefore(groups, p)|
    ensures FramesBefore(groups, p)[q * |groups| + e] == Cell(groups, e, q)
  {
    var n := |groups|;
    FramesBeforeLength(groups, p);
    FramesBeforeLength(groups, p - 1);
    assert p * n == (p - 1) * n + n;
    if q == p - 1 {
      assert FramesBefore(groups, p)[q * n + e] == SlotFrame(groups, p - 1)[e];
    } else {
      FramesBeforeAt(groups, p - 1, q, e);
      assert q * n + e < (p - 1) * n by {
        assert (q + 1) * n <= (p - 1) * n by {
          MultiplyMonotone(q + 1, p - 1, n);
        }
      }
    }
  }

  lemma MultiplyMonotone(a: nat, b: nat, n: nat)
    requires a <= b
    ensures a * n <= b * n
  {
  }

  /** The result has width * n rows, n being the number of entities. */
  lemma TagAllLength<R>(groups: seq<seq<R>>)
    ensures |TagAll(groups)| == Width(groups) * |groups|
  {
    FramesBeforeLength(groups, Width(groups));
  }

  /** Every item of an entity's list at 0-based position q is in the result,
      at q * n + e, tagged q + 1; a slot past the end of an entity's list
      gives a row without an item. */
  lemma TagAllAt<R>(groups: seq<seq<R>>, q: nat, e: nat)
    requires q < Width(groups) && e < |groups|
    ensures q * |groups| + e < |TagAll(groups)|
    ensures TagAll(groups)[q * |groups| + e] == Cell(groups, e, q)
  {
    FramesBeforeAt(groups, Width(groups), q, e);
  }

  /** Every row's tag is a slot number 1 .. width, and an item in a row tagged
      t is the item at position t - 1 of that row's entity. */
  lemma {:induction false} FramesBeforeRows<R>(groups: seq<seq<R>>, p: nat, k: nat)
    requires k < |FramesBefore(groups, p)|
    ensures 1 <= FramesBefore(groups, p)[k].tag <= p
    ensures InSlot(groups, FramesBefore(groups, p)[k])
  {
    var before := FramesBefore(groups, p - 1);
    if k < |before| {
      FramesBeforeRows(groups, p - 1, k);
    } else {
      assert FramesBefore(groups, p)[k] == SlotFrame(groups, p - 1)[k - |before|];
    }
  }

  /** Every item of every entity's list is in the result, tagged with its
      1-based position. */
  lemma TagAllHasItem<R>(groups: seq<seq<R>>, e: nat, q: nat)
    requires e < |groups| && q < |groups[e]|
    ensures Tagged(e, q + 1, Some(groups[e][q])) in TagAll(groups)
  {
    assert groups[e] in groups;
    TagAllAt(groups, q, e);
  }

  lemma IndexOf<T>(s: seq<T>, x: T) returns (k: nat)
    requires x in s
    ensures k < |s| && s[k] == x
  {
    k :| 0 <= k < |s| && s[k] == x;
  }

  /** Every row of the result is the row of its entity for its tag's slot. */
  lemma TagAllRows<R>(groups: seq<seq<R>>, row: Tagged<R>)
    requires row in TagAll(groups)
    ensures row.tag <= Width(groups) && InSlot(groups, row)
  {
    var k := IndexOf(TagAll(groups), row);
    FramesBeforeRows(groups, Width(groups), k);
  }

  /** When every item records its own 1-based position (num(item) == q + 1 for
      the item at q), the tag of every row with an item equals that number;
      so ordering by the recorded event number is ordering by slot. */
  lemma TagMatchesPosition<R>(groups: seq<seq<R>>, num: R -> int, k: nat)
    requires forall e, q :: 0 <= e < |groups| && 0 <= q < |groups[e]| ==> num(groups[e][q]) == q + 1
    requires k < |TagAll(groups)|
    requires TagAll(groups)[k].item.Some?
    ensures num(TagAll(groups)[k].item.value) == TagAll(groups)[k].tag
  {
    FramesBeforeRows(groups, Width(groups), k);
  }
}
