/** The older single-direction entry point: the same scan over the raw
    `Close` series (no negation), stopped as soon as trend_limit trends
    are recorded, with the labels written into the `Trend` column. */
module Legacy {
  import opened Common
  import opened Validation
  import Scanner
  import Labeler
  import Identification

  /** The labels of the older entry point: the caller's, or the first
      trend_limit letters. */
  function LegacyLabels(labels: Option<seq<string>>, trendLimit: nat): seq<string>
  {
    if labels.Some? then labels.value else Labeler.AutoLabels(trendLimit)
  }

  /** The trends of the capped scan, or the failed lookup. */
  function LegacyTrends(series: seq<real>, keys: seq<int>, w: nat, trendLimit: nat)
    : Result<seq<Segment>, Scanner.ScanError>
  {
    Scanner.Locate(Scanner.Runs(series, w, Some(trendLimit)), keys)
  }

  /** identify_trends of the older module, on the already fetched history
      in frame. */
  method LegacyIdentifyTrends(frame: Identification.Frame, windowSize: int, trendLimit: int,
                              labels: Option<seq<string>>)
    returns (r: Result<(), Identification.TrendError>)
    requires frame.Valid() && "Close" in frame.columns
    modifies frame.trend
    ensures ValidateLegacy(windowSize, trendLimit, labels).Err? ==>
      r == Err(Identification.BadArgument(ValidateLegacy(windowSize, trendLimit, labels).error))
      && frame.trend[..] == old(frame.trend[..])
    ensures ValidateLegacy(windowSize, trendLimit, labels).Ok? ==>
      match LegacyTrends(frame.columns["Close"], frame.keys, windowSize, trendLimit)
      case Err(e) => r == Err(Identification.IndexError(e)) && frame.trend[..] == old(frame.trend[..])
      case Ok(segs) =>
        r == Ok(()) &&
        frame.trend[..] == Labeler.Labelled(old(frame.trend[..]), frame.keys, segs, LegacyLabels(labels, trendLimit))
  {
    var checked := ValidateLegacy(windowSize, trendLimit, labels);
    if checked.Err? {
      return Err(Identification.BadArgument(checked.error));
    }
    var names := LegacyLabels(labels, trendLimit);
    var scanned := Scanner.ScanSegments(frame.columns["Close"], frame.keys, windowSize, Some(trendLimit));
    if scanned.Err? {
      return Err(Identification.IndexError(scanned.error));
    }
    Labeler.LabelRows(frame.trend, frame.keys, scanned.value, names);
    r := Ok(());
  }

  /** At most trend_limit trends, each of them labelled when the caller
      gave the labels or trend_limit is at most 26: the `zip` then drops
      no trend. */
  lemma LegacyAllLabelled(series: seq<real>, keys: seq<int>, w: nat, trendLimit: nat, labels: Option<seq<string>>)
    requires trendLimit >= 1 && (labels.None? || |labels.value| == trendLimit)
    requires LegacyTrends(series, keys, w, trendLimit).Ok?
    ensures |LegacyTrends(series, keys, w, trendLimit).value| <= trendLimit
    ensures labels.Some? || trendLimit <= 26 ==>
      |LegacyTrends(series, keys, w, trendLimit).value| <= |LegacyLabels(labels, trendLimit)|
  {
    Scanner.CapBound(series, w, trendLimit);
    Scanner.LocateSpec(Scanner.Runs(series, w, Some(trendLimit)), keys);
  }

  /** The older entry point looks up the first trend_limit runs of the
      uncapped scan that the newer entry points run; when the newer scan's
      lookup succeeds, the older one succeeds too and reports its first
      trend_limit trends. The older one can succeed where the newer one
      fails: its `break` may come before the run whose end overshoots. */
  lemma LegacyIsTruncation(series: seq<real>, keys: seq<int>, w: nat, trendLimit: nat)
    requires trendLimit >= 1
    ensures var all := Scanner.Runs(series, w, None);
      LegacyTrends(series, keys, w, trendLimit) ==
        Scanner.Locate(if |all| <= trendLimit then all else all[..trendLimit], keys)
    ensures Identification.Candidates(series, keys, w).Ok? ==>
      var all := Identification.Candidates(series, keys, w).value;
      && LegacyTrends(series, keys, w, trendLimit).Ok?
      && LegacyTrends(series, keys, w, trendLimit).value == if |all| <= trendLimit then all else all[..trendLimit]
  {
    var all := Scanner.Runs(series, w, None);
    Scanner.CapTruncates(series, w, trendLimit);
    Scanner.LocateSpec(all, keys);
    var capped := Scanner.Runs(series, w, Some(trendLimit));
    Scanner.LocateSpec(capped, keys);
  }
}
