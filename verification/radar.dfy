/**
 * The bottleneck radar: a badge next to a menu entry that appears while any
 * bottleneck of that entry's category is still open, turns red when one of
 * them is clogged, and lists them with a note once there are more than three.
 */
module Radar {
  import opened Wrappers
  import opened Types
  import opened Seqs

  /** Open means anything but RESOLVED. */
  predicate IsOpenIn(b: Bottleneck, category: Category) {
    b.category == category && b.status != Resolved
  }

  /** The open bottlenecks of one category, in their original order. */
  function Relevant(bs: seq<Bottleneck>, category: Category): (r: seq<Bottleneck>)
    ensures IsSubsequence(r, bs)
    ensures forall b :: b in r <==> b in bs && IsOpenIn(b, category)
    ensures forall k :: 0 <= k < |r| ==> r[k].category == category && r[k].status != Resolved
    ensures forall x :: multiset(r)[x] == if IsOpenIn(x, category) then multiset(bs)[x] else 0
  {
    var r := Filter(bs, b => IsOpenIn(b, category));
    assert forall k :: 0 <= k < |r| ==> r[k] in r;
    r
  }

  /** The clogged ones among the relevant bottlenecks. */
  function CloggedAmong(relevant: seq<Bottleneck>): (r: seq<Bottleneck>)
    ensures IsSubsequence(r, relevant)
    ensures forall b :: b in r <==> b in relevant && b.status == Clogged
    ensures forall x :: multiset(r)[x] == if x.status == Clogged then multiset(relevant)[x] else 0
  {
    Filter(relevant, (b: Bottleneck) => b.status == Clogged)
  }

  /** Some relevant bottleneck is clogged. */
  function IsClogged(relevant: seq<Bottleneck>): (c: bool)
    ensures c <==> exists b :: b in relevant && b.status == Clogged
  {
    var r := CloggedAmong(relevant);
    if |r| > 0 then
      assert r[0] in r;
      true
    else
      false
  }

  /** The relevant list holds a clogged entry exactly when the whole list holds an open, clogged one of the category. */
  lemma CloggedInCategory(bs: seq<Bottleneck>, category: Category)
    ensures IsClogged(Relevant(bs, category))
            <==> exists b :: b in bs && b.category == category && b.status == Clogged
  {
    var relevant := Relevant(bs, category);
    if exists b :: b in bs && b.category == category && b.status == Clogged {
      var b :| b in bs && b.category == category && b.status == Clogged;
      assert b in relevant;
    }
  }

  datatype Color = Red | Yellow

  /**
   * What the radar shows: the dot's colour, the bottlenecks listed in the
   * tooltip, and how many the overflow note reports, when it is shown.
   */
  datatype Badge = Badge(color: Color, items: seq<Bottleneck>, overflow: Option<nat>)

  /** How many entries the tooltip is sized for before the overflow note appears. */
  const SHOWN_BEFORE_OVERFLOW := 3

  /**
   * The radar for `category`: nothing while no bottleneck of it is open;
   * otherwise a red dot exactly when an open one is clogged, every open one
   * listed, and an overflow note counting those beyond the third.
   */
  function Render(bs: seq<Bottleneck>, category: Category): (r: Option<Badge>)
    ensures r.None? <==> forall b :: b in bs ==> !IsOpenIn(b, category)
    ensures r.Some? ==>
              && r.value.items == Relevant(bs, category)
              && (r.value.color == Red <==> exists b :: b in bs && b.category == category && b.status == Clogged)
              && (r.value.overflow.Some? <==> |r.value.items| > SHOWN_BEFORE_OVERFLOW)
              && (r.value.overflow.Some? ==> r.value.overflow.value == |r.value.items| - SHOWN_BEFORE_OVERFLOW)
  {
    var relevant := Relevant(bs, category);
    if |relevant| == 0 then
      None
    else
      assert relevant[0] in relevant;
      CloggedInCategory(bs, category);
      Some(Badge(
        if IsClogged(relevant) then Red else Yellow,
        relevant,
        if |relevant| > SHOWN_BEFORE_OVERFLOW then Some(|relevant| - SHOWN_BEFORE_OVERFLOW) else None))
  }
}
