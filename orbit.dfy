/**
 * What the orbit layout decides besides geometry: which of the two rings an
 * item sits on, and which items are drawn with the visited badge
 * (src/components/Universe.jsx).
 */
module Orbit {

  /** Radius of the inner ring. */
  const BaseRadius: int := 160
  /** Distance between the inner and the outer ring. */
  const RingGap: int := 80

  /** `i % 2 === 0 ? baseRadius : baseRadius + 80`: even positions on the inner
      ring, odd positions on the outer one. */
  function RingRadius(i: nat): (r: int)
    ensures r == 160 || r == 240
    ensures r == 160 <==> i % 2 == 0
  {
    if i % 2 == 0 then BaseRadius else BaseRadius + RingGap
  }

  /** The radius of each item of an `n`-item catalog, one entry per item in
      catalog order: neighbouring items are on different rings, and the inner
      ring holds the larger half (`ceil(n / 2)` items), the outer ring the
      rest. */
  function RingRadii(n: nat): (r: seq<int>)
    ensures |r| == n
    ensures forall i :: 0 <= i < n ==> r[i] == RingRadius(i)
    ensures forall i :: 0 <= i < n - 1 ==> r[i] != r[i + 1]
    ensures multiset(r)[BaseRadius] == (n + 1) / 2
    ensures multiset(r)[BaseRadius + RingGap] == n / 2
  {
    if n == 0 then []
    else
      var prefix := RingRadii(n - 1);
      assert multiset(prefix + [RingRadius(n - 1)]) == multiset(prefix) + multiset{RingRadius(n - 1)};
      prefix + [RingRadius(n - 1)]
  }

  /** Neighbouring items are on different rings; items two apart share one. */
  lemma NeighboursAlternate(i: nat)
    ensures RingRadius(i) != RingRadius(i + 1)
    ensures RingRadius(i) == RingRadius(i + 2)
  {
  }

  /** `completed.has(item.id)`, for every item of the catalog in order. */
  function VisitedFlags(ids: seq<int>, completed: set<int>): (r: seq<bool>)
    ensures |r| == |ids|
    ensures forall i :: 0 <= i < |ids| ==> (r[i] <==> ids[i] in completed)
  {
    if ids == [] then [] else [ids[0] in completed] + VisitedFlags(ids[1..], completed)
  }
}
