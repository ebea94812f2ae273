/** Writing trend labels into a label column of the table: `zip` pairs the
    i-th trend with the i-th label, and every row whose index key lies in
    the trend's inclusive key range gets that label, trend after trend, so
    a later trend overwrites an earlier one on the rows they share. */
module Labeler {
  import opened Common

  const Alphabet: string := "ABCDEFGHIJKLMNOPQRSTUVWXYZ"

  /** `[letter for letter in string.ascii_uppercase[:n]]`. */
  function AutoLabels(n: nat): (r: seq<string>)
    ensures |r| == Min(n, 26)
    ensures forall i :: 0 <= i < |r| ==> r[i] == [(65 + i) as char]
  {
    var letters := Alphabet[..Min(n, 26)];
    seq(|letters|, i requires 0 <= i < |letters| => [letters[i]])
  }

  /** The rows of `df[from:to]`: the index key lies in the inclusive range. */
  predicate Covers(s: Segment, key: int)
  {
    s.from <= key <= s.to
  }

  /** The column after writing one label over one trend's rows. */
  function Paint(col: seq<Option<string>>, keys: seq<int>, s: Segment, tag: string): (r: seq<Option<string>>)
    requires |col| == |keys|
    ensures |r| == |col|
  {
    seq(|col|, r requires 0 <= r < |col| => if Covers(s, keys[r]) then Some(tag) else col[r])
  }

  /** The column after the first m pairs of the `zip`. */
  function Painted(col: seq<Option<string>>, keys: seq<int>, segs: seq<Segment>, labels: seq<string>, m: nat)
    : (r: seq<Option<string>>)
    requires |col| == |keys| && m <= |segs| && m <= |labels|
    ensures |r| == |col|
    decreases m
  {
    if m == 0 then col
    else Paint(Painted(col, keys, segs, labels, m - 1), keys, segs[m - 1], labels[m - 1])
  }

  /** The column after the whole `zip(segs, labels)` loop. */
  function Labelled(col: seq<Option<string>>, keys: seq<int>, segs: seq<Segment>, labels: seq<string>)
    : seq<Option<string>>
    requires |col| == |keys|
  {
    Painted(col, keys, segs, labels, Min(|segs|, |labels|))
  }

  /** The last of the first m trends that covers key, if any. */
  function LastCovering(segs: seq<Segment>, key: int, m: nat): (r: Option<nat>)
    requires m <= |segs|
    ensures r.Some? ==> r.value < m && Covers(segs[r.value], key)
    ensures r.Some? ==> forall j :: r.value < j < m ==> !Covers(segs[j], key)
    ensures r.None? ==> forall j :: 0 <= j < m ==> !Covers(segs[j], key)
    decreases m
  {
    if m == 0 then None
    else if Covers(segs[m - 1], key) then Some(m - 1)
    else LastCovering(segs, key, m - 1)
  }

  /** What every row ends up holding: the label of the last paired trend
      covering its key, or its old value when no paired trend covers it. */
  lemma {:induction false} PaintedRow(col: seq<Option<string>>, keys: seq<int>, segs: seq<Segment>,
                                      labels: seq<string>, m: nat, r: nat)
    requires |col| == |keys| && m <= |segs| && m <= |labels| && r < |col|
    ensures Painted(col, keys, segs, labels, m)[r] ==
      match LastCovering(segs, keys[r], m)
      case None => col[r]
      case Some(i) => Some(labels[i])
    decreases m
  {
    if m > 0 {
      PaintedRow(col, keys, segs, labels, m - 1, r);
    }
  }

  /** The `zip` stops at the shorter list: trends without a label leave
      the column as the labelled trends made it. */
  lemma LabelledRow(col: seq<Option<string>>, keys: seq<int>, segs: seq<Segment>, labels: seq<string>, r: nat)
    requires |col| == |keys| && r < |col|
    ensures Labelled(col, keys, segs, labels)[r] ==
      match LastCovering(segs, keys[r], Min(|segs|, |labels|))
      case None => col[r]
      case Some(i) => Some(labels[i])
  {
    PaintedRow(col, keys, segs, labels, Min(|segs|, |labels|), r);
  }

  /** The row-labelling loops: for each pair of the `zip`, every row in the
      trend's key range is assigned the label. */
  method LabelRows(col: array<Option<string>>, keys: seq<int>, segs: seq<Segment>, labels: seq<string>)
    requires col.Length == |keys|
    modifies col
    ensures col[..] == Labelled(old(col[..]), keys, segs, labels)
  {
    ghost var original := col[..];
    var pairs := Min(|segs|, |labels|);
    for i := 0 to pairs
      invariant col[..] == Painted(original, keys, segs, labels, i)
    {
      ghost var before := col[..];
      var s := segs[i];
      for row := 0 to col.Length
        invariant forall q :: 0 <= q < row ==> col[q] == (if Covers(s, keys[q]) then Some(labels[i]) else before[q])
        invariant forall q :: row <= q < col.Length ==> col[q] == before[q]
      {
        if s.from <= keys[row] <= s.to {
          col[row] := Some(labels[i]);
        }
      }
      assert col[..] == Paint(before, keys, s, labels[i]);
    }
  }
}
