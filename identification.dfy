/** The three entry points of the trend identification module: each checks
    its arguments, scans the negated series for up trends and the series
    itself for down trends, filters overlapping trends when both directions
    are wanted, and writes the labels into the table's `Up Trend` and
    `Down Trend` columns. The table is a Frame, whose label columns are
    updated in place. */
module Identification {
  import opened Common
  import opened Validation
  import Scanner
  import Resolver
  import Labeler

  /** The table: its index keys (ascending day numbers), its numeric columns, and the
      label columns the entry points write (`Trend` is written by the older
      entry point). A label column holds None where no label was written. */
  class Frame {
    const keys: seq<int>
    const columns: map<string, seq<real>>
    const upTrend: array<Option<string>>
    const downTrend: array<Option<string>>
    const trend: array<Option<string>>

    ghost predicate Valid()
    {
      && upTrend.Length == |keys| && downTrend.Length == |keys| && trend.Length == |keys|
      && upTrend != downTrend && upTrend != trend && downTrend != trend
      && StrictlyIncreasing(keys)
      && forall c :: c in columns ==> |columns[c]| == |keys|
    }

    /** A table with the given rows and no label written yet. */
    constructor (keys: seq<int>, columns: map<string, seq<real>>)
      requires forall c :: c in columns ==> |columns[c]| == |keys|
      requires StrictlyIncreasing(keys)
      ensures Valid() && this.keys == keys && this.columns == columns
      ensures fresh(upTrend) && fresh(downTrend) && fresh(trend)
      ensures forall r :: 0 <= r < |keys| ==> upTrend[r].None? && downTrend[r].None? && trend[r].None?
    {
      this.keys := keys;
      this.columns := columns;
      upTrend := new Option<string>[|keys|](_ => None);
      downTrend := new Option<string>[|keys|](_ => None);
      trend := new Option<string>[|keys|](_ => None);
    }
  }

  /** `np.negative`: up trends are the down trends of the negated series. */
  function Negate(series: seq<real>): seq<real>
  {
    seq(|series|, i requires 0 <= i < |series| => -series[i])
  }

  lemma NegateInvolution(series: seq<real>)
    ensures |Negate(series)| == |series|
    ensures Negate(Negate(series)) == series
  {
  }

  /** The trends of one scan, as index keys, or the failed lookup. */
  function Candidates(series: seq<real>, keys: seq<int>, w: nat): Result<seq<Segment>, Scanner.ScanError>
  {
    Scanner.Locate(Scanner.Runs(series, w, None), keys)
  }

  /** The trends to be labelled in each column; None: the column is not written. */
  datatype Outcome = Outcome(up: Option<seq<Segment>>, down: Option<seq<Segment>>)

  /** The scans and filters of one call: the up scan runs first, and a
      failed lookup in either scan ends the call. */
  function Directions(mode: Mode, series: seq<real>, keys: seq<int>, w: nat): Result<Outcome, Scanner.ScanError>
  {
    match mode
    case UpOnly =>
      (match Candidates(Negate(series), keys, w)
       case Err(e) => Err(e)
       case Ok(ups) => Ok(Outcome(Some(ups), None)))
    case DownOnly =>
      (match Candidates(series, keys, w)
       case Err(e) => Err(e)
       case Ok(downs) => Ok(Outcome(None, Some(downs))))
    case Both =>
      (match Candidates(Negate(series), keys, w)
       case Err(e) => Err(e)
       case Ok(ups) =>
         match Candidates(series, keys, w)
         case Err(e) => Err(e)
         case Ok(downs) => Ok(Outcome(Some(Resolver.Survivors(ups, downs)), Some(Resolver.Survivors(downs, ups)))))
  }

  /** The caller's labels, or as many letters as there are trends (at most 26). */
  function LabelsFor(labels: Option<seq<string>>, n: nat): seq<string>
  {
    if labels.Some? then labels.value else Labeler.AutoLabels(n)
  }

  /** A label column after one direction's labelling loop. */
  function Apply(col: seq<Option<string>>, keys: seq<int>, segs: Option<seq<Segment>>, labels: Option<seq<string>>)
    : seq<Option<string>>
    requires |col| == |keys|
  {
    match segs
    case None => col
    case Some(s) => Labeler.Labelled(col, keys, s, LabelsFor(labels, |s|))
  }

  datatype TrendError =
    | BadArgument(config: ConfigError)        // a ValueError from the argument checks
    | IndexError(lookup: Scanner.ScanError)   // a trend end past the last row

  /** One scan, with a failed lookup returned as such. */
  method ScanDirection(series: seq<real>, keys: seq<int>, w: nat) returns (r: Result<seq<Segment>, Scanner.ScanError>)
    requires |series| == |keys|
    ensures r == Candidates(series, keys, w)
  {
    r := Scanner.ScanSegments(series, keys, w, None);
  }

  /** Everything after the argument checks: the scans, the filters in
      'both' mode, and the labelling of each direction's column. */
  method Pipeline(frame: Frame, series: seq<real>, w: nat, mode: Mode, labels: Option<seq<string>>)
    returns (r: Result<(), Scanner.ScanError>)
    requires frame.Valid() && |series| == |frame.keys|
    modifies frame.upTrend, frame.downTrend
    ensures match Directions(mode, series, frame.keys, w)
      case Err(e) =>
        r == Err(e) && frame.upTrend[..] == old(frame.upTrend[..]) && frame.downTrend[..] == old(frame.downTrend[..])
      case Ok(outcome) =>
        && r == Ok(())
        && frame.upTrend[..] == Apply(old(frame.upTrend[..]), frame.keys, outcome.up, labels)
        && frame.downTrend[..] == Apply(old(frame.downTrend[..]), frame.keys, outcome.down, labels)
  {
    var keys := frame.keys;
    var ups: seq<Segment> := [];
    var downs: seq<Segment> := [];
    if mode != DownOnly {
      var scanned := ScanDirection(Negate(series), keys, w);
      if scanned.Err? {
        return Err(scanned.error);
      }
      ups := scanned.value;
    }
    if mode != UpOnly {
      var scanned := ScanDirection(series, keys, w);
      if scanned.Err? {
        return Err(scanned.error);
      }
      downs := scanned.value;
    }
    if mode == Both {
      var upKept := Resolver.Resolve(ups, downs);
      Labeler.LabelRows(frame.upTrend, keys, upKept, LabelsFor(labels, |upKept|));
      var downKept := Resolver.Resolve(downs, ups);
      Labeler.LabelRows(frame.downTrend, keys, downKept, LabelsFor(labels, |downKept|));
    } else if mode == UpOnly {
      Labeler.LabelRows(frame.upTrend, keys, ups, LabelsFor(labels, |ups|));
    } else {
      Labeler.LabelRows(frame.downTrend, keys, downs, LabelsFor(labels, |downs|));
    }
    r := Ok(());
  }

  /** The label columns after a whole call: unchanged on any error. */
  ghost predicate Written(frame: Frame, up: seq<Option<string>>, down: seq<Option<string>>,
                          checked: Result<Mode, ConfigError>, series: seq<real>, w: int,
                          labels: Option<seq<string>>, r: Result<(), TrendError>)
    reads frame, frame.upTrend, frame.downTrend
    requires |up| == |frame.keys| && |down| == |frame.keys|
    requires checked.Ok? ==> w >= 0
  {
    match checked
    case Err(e) => r == Err(BadArgument(e)) && frame.upTrend[..] == up && frame.downTrend[..] == down
    case Ok(mode) =>
      match Directions(mode, series, frame.keys, w)
      case Err(e) => r == Err(IndexError(e)) && frame.upTrend[..] == up && frame.downTrend[..] == down
      case Ok(outcome) =>
        && r == Ok(())
        && frame.upTrend[..] == Apply(up, frame.keys, outcome.up, labels)
        && frame.downTrend[..] == Apply(down, frame.keys, outcome.down, labels)
  }

  /** identify_trends, on the already fetched history in frame (whose
      `Close` column is scanned). trend_limit is checked, and checked
      against the number of labels, but stops nothing. */
  method IdentifyTrends(frame: Frame, windowSize: int, trendLimit: int, labels: Option<seq<string>>, identify: string)
    returns (r: Result<(), TrendError>)
    requires frame.Valid() && "Close" in frame.columns
    modifies frame.upTrend, frame.downTrend
    ensures Written(frame, old(frame.upTrend[..]), old(frame.downTrend[..]),
                    ValidateTrends(windowSize, trendLimit, labels, identify),
                    frame.columns["Close"], windowSize, labels, r)
  {
    var checked := ValidateTrends(windowSize, trendLimit, labels, identify);
    if checked.Err? {
      return Err(BadArgument(checked.error));
    }
    var done := Pipeline(frame, frame.columns["Close"], windowSize, checked.value, labels);
    if done.Err? {
      return Err(IndexError(done.error));
    }
    r := Ok(());
  }

  /** identify_all_trends: as identify_trends, always with letter labels. */
  method IdentifyAllTrends(frame: Frame, windowSize: int, identify: string) returns (r: Result<(), TrendError>)
    requires frame.Valid() && "Close" in frame.columns
    modifies frame.upTrend, frame.downTrend
    ensures Written(frame, old(frame.upTrend[..]), old(frame.downTrend[..]),
                    ValidateAll(windowSize, identify), frame.columns["Close"], windowSize, None, r)
  {
    var checked := ValidateAll(windowSize, identify);
    if checked.Err? {
      return Err(BadArgument(checked.error));
    }
    var done := Pipeline(frame, frame.columns["Close"], windowSize, checked.value, None);
    if done.Err? {
      return Err(IndexError(done.error));
    }
    r := Ok(());
  }

  /** identify_df_trends: as identify_all_trends, on the named column. */
  method IdentifyDfTrends(frame: Frame, column: string, windowSize: int, identify: string)
    returns (r: Result<(), TrendError>)
    requires frame.Valid()
    modifies frame.upTrend, frame.downTrend
    ensures column !in frame.columns ==>
      r == Err(BadArgument(UnknownColumn))
      && frame.upTrend[..] == old(frame.upTrend[..]) && frame.downTrend[..] == old(frame.downTrend[..])
    ensures column in frame.columns ==>
      Written(frame, old(frame.upTrend[..]), old(frame.downTrend[..]),
              ValidateDf(frame.columns.Keys, column, windowSize, identify), frame.columns[column],
              windowSize, None, r)
  {
    var checked := ValidateDf(frame.columns.Keys, column, windowSize, identify);
    if checked.Err? {
      return Err(BadArgument(checked.error));
    }
    var done := Pipeline(frame, frame.columns[column], windowSize, checked.value, None);
    if done.Err? {
      return Err(IndexError(done.error));
    }
    r := Ok(());
  }

  // ----- Properties of the composition -----

  /** Negating the series swaps the directions: its up trends are the
      series' down trends and the other way round, filters included. */
  lemma NegationSwapsDirections(mode: Mode, series: seq<real>, keys: seq<int>, w: nat)
    ensures Directions(UpOnly, series, keys, w).Ok? <==> Directions(DownOnly, Negate(series), keys, w).Ok?
    ensures Directions(UpOnly, series, keys, w).Ok? ==>
      Directions(UpOnly, series, keys, w).value.up == Directions(DownOnly, Negate(series), keys, w).value.down
    ensures Directions(Both, series, keys, w).Ok? <==> Directions(Both, Negate(series), keys, w).Ok?
    ensures Directions(Both, series, keys, w).Ok? ==>
      && Directions(Both, Negate(series), keys, w).value.up == Directions(Both, series, keys, w).value.down
      && Directions(Both, Negate(series), keys, w).value.down == Directions(Both, series, keys, w).value.up
  {
    NegateInvolution(series);
  }

  /** In 'both' mode the trends kept for each direction, and handed to the
      labelling `zip`, are the candidates that pass against the last
      opposite candidate, in scan order; in 'up' and 'down' mode every
      candidate of the one scanned direction is handed to the `zip` and the
      other column gets none. The `zip` writes only the first
      min(#trends, #labels) of them (Labeler.LabelledRow). */
  lemma DirectionsKeep(mode: Mode, series: seq<real>, keys: seq<int>, w: nat, s: Segment)
    requires Directions(mode, series, keys, w).Ok?
    ensures var o := Directions(mode, series, keys, w).value;
      && (mode == UpOnly ==> o.down.None? && o.up == Some(Candidates(Negate(series), keys, w).value))
      && (mode == DownOnly ==> o.up.None? && o.down == Some(Candidates(series, keys, w).value))
      && (mode == Both ==>
            var ups := Candidates(Negate(series), keys, w).value;
            var downs := Candidates(series, keys, w).value;
            && o.up.Some? && o.down.Some?
            && (s in o.up.value <==> s in ups && Resolver.KeepAgainst(s, downs))
            && (s in o.down.value <==> s in downs && Resolver.KeepAgainst(s, ups)))
  {
    if mode == Both {
      var ups := Candidates(Negate(series), keys, w).value;
      var downs := Candidates(series, keys, w).value;
      Resolver.SurvivorsMembership(ups, downs, s);
      Resolver.SurvivorsMembership(downs, ups, s);
    }
  }

  /** With letter labels, the i-th written trend gets the i-th letter, and
      only the first 26 trends are written at all. */
  lemma AutoLabelledRow(col: seq<Option<string>>, keys: seq<int>, segs: seq<Segment>, r: nat)
    requires |col| == |keys| && r < |col|
    ensures Apply(col, keys, Some(segs), None)[r] ==
      match Labeler.LastCovering(segs, keys[r], Min(|segs|, 26))
      case None => col[r]
      case Some(i) => Some([(65 + i) as char])
  {
    var labels := Labeler.AutoLabels(|segs|);
    assert Apply(col, keys, Some(segs), None) == Labeler.Labelled(col, keys, segs, labels);
    Labeler.LabelledRow(col, keys, segs, labels, r);
    assert Min(|segs|, |labels|) == Min(|segs|, 26);
    match Labeler.LastCovering(segs, keys[r], Min(|segs|, 26))
    case None =>
    case Some(i) =>
      assert labels[i] == [(65 + i) as char];
  }
}
