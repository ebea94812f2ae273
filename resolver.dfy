/** The overlap filter run when both directions are identified: each
    candidate of one direction is checked against the candidates of the
    other, and kept or dropped by the last of them only, because the
    `flag` that decides is overwritten on every inner iteration. The same
    rule filters up trends against down trends and down trends against up
    trends; both filters read the other direction's unfiltered list. */
module Resolver {
  import opened Common

  /** `(to - from).days`, with keys counted in days. */
  function Span(s: Segment): int
  {
    s.to - s.from
  }

  /** The overlap test: an endpoint of a lies strictly inside b. */
  predicate EndpointInside(a: Segment, b: Segment)
  {
    b.from < a.from < b.to || b.from < a.to < b.to
  }

  /** The inner loop body: c is kept against o unless an endpoint of c lies
      inside o and c does not span strictly more days. */
  predicate Survives(c: Segment, o: Segment)
  {
    !EndpointInside(c, o) || Span(c) > Span(o)
  }

  /** The value of `flag` after the inner loop: true when there are no
      opposite candidates, else decided by the last of them. */
  predicate KeepAgainst(c: Segment, opposite: seq<Segment>)
  {
    opposite == [] || Survives(c, opposite[|opposite| - 1])
  }

  /** The candidates the filter keeps, in their order. */
  function Survivors(candidates: seq<Segment>, opposite: seq<Segment>): seq<Segment>
  {
    if candidates == [] then []
    else
      var c := candidates[|candidates| - 1];
      Survivors(candidates[..|candidates| - 1], opposite) + (if KeepAgainst(c, opposite) then [c] else [])
  }

  /** The filter loop of `identify_trends` and `identify_all_trends` in
      'both' mode, for either direction. */
  method Resolve(candidates: seq<Segment>, opposite: seq<Segment>) returns (kept: seq<Segment>)
    ensures kept == Survivors(candidates, opposite)
  {
    kept := [];
    for i := 0 to |candidates|
      invariant kept == Survivors(candidates[..i], opposite)
    {
      var c := candidates[i];
      var flag := true;
      for j := 0 to |opposite|
        invariant flag == (j == 0 || Survives(c, opposite[j - 1]))
      {
        var o := opposite[j];
        if EndpointInside(c, o) {
          if Span(c) > Span(o) {
            flag := true;
          } else {
            flag := false;
          }
        } else {
          flag := true;
        }
      }
      if flag {
        kept := kept + [c];
      }
      assert candidates[..i + 1][..i] == candidates[..i];
    }
    assert candidates[..|candidates|] == candidates;
  }

  /** The survivors are exactly the candidates that pass against the last
      opposite candidate, in their original order: positions is the
      strictly increasing list of the kept candidates' positions. */
  lemma {:induction false} SurvivorPositions(candidates: seq<Segment>, opposite: seq<Segment>)
    returns (positions: seq<nat>)
    ensures |positions| == |Survivors(candidates, opposite)|
    ensures forall k :: 0 <= k < |positions| ==>
      positions[k] < |candidates| && Survivors(candidates, opposite)[k] == candidates[positions[k]]
    ensures forall k, l :: 0 <= k < l < |positions| ==> positions[k] < positions[l]
    ensures forall i :: 0 <= i < |candidates| ==>
      (KeepAgainst(candidates[i], opposite) <==> i in positions)
  {
    if candidates == [] {
      positions := [];
    } else {
      var n := |candidates| - 1;
      var init := candidates[..n];
      var p := SurvivorPositions(init, opposite);
      if KeepAgainst(candidates[n], opposite) {
        positions := p + [n];
      } else {
        positions := p;
      }
      forall i | 0 <= i < |candidates|
        ensures KeepAgainst(candidates[i], opposite) <==> i in positions
      {
        if i < n {
          assert candidates[i] == init[i];
          assert n !in p;
        }
      }
    }
  }

  /** Membership, both ways: a segment is kept iff it is a candidate that
      passes against the last opposite candidate. */
  lemma {:induction false} SurvivorsMembership(candidates: seq<Segment>, opposite: seq<Segment>, s: Segment)
    ensures s in Survivors(candidates, opposite) <==> s in candidates && KeepAgainst(s, opposite)
  {
    if candidates != [] {
      var init := candidates[..|candidates| - 1];
      SurvivorsMembership(init, opposite, s);
      assert candidates == init + [candidates[|candidates| - 1]];
    }
  }

  /** Only the last opposite candidate matters. */
  lemma {:induction false} LastDecides(candidates: seq<Segment>, opposite: seq<Segment>)
    requires opposite != []
    ensures Survivors(candidates, opposite) == Survivors(candidates, [opposite[|opposite| - 1]])
  {
    if candidates != [] {
      LastDecides(candidates[..|candidates| - 1], opposite);
    }
  }

  /** Filtering never adds: at most as many survivors as candidates, and
      none are dropped when there is no opposite candidate (order is kept,
      by SurvivorPositions). */
  lemma {:induction false} SurvivorsShrink(candidates: seq<Segment>, opposite: seq<Segment>)
    ensures |Survivors(candidates, opposite)| <= |candidates|
    ensures opposite == [] ==> Survivors(candidates, opposite) == candidates
  {
    if candidates != [] {
      SurvivorsShrink(candidates[..|candidates| - 1], opposite);
      assert candidates[..|candidates| - 1] + [candidates[|candidates| - 1]] == candidates;
    }
  }

  /** Two overlapping trends of equal length both fail: neither spans
      strictly more days than the other. */
  lemma EqualSpansDropBoth(up: Segment, down: Segment)
    requires EndpointInside(up, down) && Span(up) == Span(down)
    ensures !Survives(up, down) && !Survives(down, up)
  {
  }

  /** Of two trends that overlap each other, never both are kept. */
  lemma MutualOverlapKeepsAtMostOne(up: Segment, down: Segment)
    requires EndpointInside(up, down) && EndpointInside(down, up)
    ensures !(Survives(up, down) && Survives(down, up))
  {
  }

  /** Trends that only share an endpoint, or coincide, do not overlap. */
  lemma SharedEndpointsNoOverlap(a: Segment, b: Segment)
    requires a.from <= a.to && b.from <= b.to
    requires a.to == b.from || a == b
    ensures !EndpointInside(a, b) && !EndpointInside(b, a)
  {
  }
}
