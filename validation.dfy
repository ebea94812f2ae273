/** The argument checks each entry point runs, in order, before any data
    is read or scanned. Each check that fails raises `ValueError`; here it
    yields the first failing check's error. */
module Validation {
  import opened Common

  /** Which directions to identify: 'both', 'up' or 'down'. */
  datatype Mode = Both | UpOnly | DownOnly

  datatype ConfigError =
    | WindowTooSmall        // window_size < 3
    | TrendLimitTooSmall    // trend_limit < 1
    | LabelCountMismatch    // labels given, but not trend_limit of them
    | UnknownIdentify       // identify not in [both, up, down]
    | UnknownColumn         // column not in df.columns

  /** `identify in ['both', 'up', 'down']`, and which one. */
  function ParseIdentify(identify: string): (r: Option<Mode>)
    ensures r.None? <==> identify !in {"both", "up", "down"}
    ensures r == Some(Both) <==> identify == "both"
    ensures r == Some(UpOnly) <==> identify == "up"
    ensures r == Some(DownOnly) <==> identify == "down"
  {
    if identify == "both" then Some(Both)
    else if identify == "up" then Some(UpOnly)
    else if identify == "down" then Some(DownOnly)
    else None
  }

  /** identify_trends: window_size, trend_limit, the number of labels, then identify. */
  function ValidateTrends(windowSize: int, trendLimit: int, labels: Option<seq<string>>, identify: string)
    : (r: Result<Mode, ConfigError>)
    ensures r.Ok? <==>
      windowSize >= 3 && trendLimit >= 1 && (labels.None? || |labels.value| == trendLimit)
      && identify in {"both", "up", "down"}
    ensures r.Ok? ==> ParseIdentify(identify) == Some(r.value)
    ensures r == Err(WindowTooSmall) <==> windowSize < 3
    ensures r == Err(TrendLimitTooSmall) <==> windowSize >= 3 && trendLimit < 1
    ensures r == Err(LabelCountMismatch) <==>
      windowSize >= 3 && trendLimit >= 1 && labels.Some? && |labels.value| != trendLimit
    ensures r.Err? ==> r.error != UnknownColumn
  {
    if windowSize < 3 then Err(WindowTooSmall)
    else if trendLimit < 1 then Err(TrendLimitTooSmall)
    else if labels.Some? && |labels.value| != trendLimit then Err(LabelCountMismatch)
    else match ParseIdentify(identify)
      case None => Err(UnknownIdentify)
      case Some(mode) => Ok(mode)
  }

  /** identify_all_trends: window_size, then identify. */
  function ValidateAll(windowSize: int, identify: string): (r: Result<Mode, ConfigError>)
    ensures r.Ok? <==> windowSize >= 3 && identify in {"both", "up", "down"}
    ensures r.Ok? ==> ParseIdentify(identify) == Some(r.value)
    ensures r == Err(WindowTooSmall) <==> windowSize < 3
    ensures r.Err? ==> r.error in {WindowTooSmall, UnknownIdentify}
  {
    if windowSize < 3 then Err(WindowTooSmall)
    else match ParseIdentify(identify)
      case None => Err(UnknownIdentify)
      case Some(mode) => Ok(mode)
  }

  /** identify_df_trends: the column must be one of the table's, then
      window_size, then identify. */
  function ValidateDf(columns: set<string>, column: string, windowSize: int, identify: string): (r: Result<Mode, ConfigError>)
    ensures r.Ok? <==> column in columns && windowSize >= 3 && identify in {"both", "up", "down"}
    ensures r == Err(UnknownColumn) <==> column !in columns
    ensures column in columns ==> r == ValidateAll(windowSize, identify)
  {
    if column !in columns then Err(UnknownColumn)
    else ValidateAll(windowSize, identify)
  }

  /** The older identify_trends: window_size, trend_limit, then the number of labels. */
  function ValidateLegacy(windowSize: int, trendLimit: int, labels: Option<seq<string>>): (r: Result<(), ConfigError>)
    ensures r.Ok? <==> windowSize >= 3 && trendLimit >= 1 && (labels.None? || |labels.value| == trendLimit)
    ensures r == Err(WindowTooSmall) <==> windowSize < 3
    ensures r == Err(TrendLimitTooSmall) <==> windowSize >= 3 && trendLimit < 1
    ensures r.Err? ==> r.error in {WindowTooSmall, TrendLimitTooSmall, LabelCountMismatch}
  {
    if windowSize < 3 then Err(WindowTooSmall)
    else if trendLimit < 1 then Err(TrendLimitTooSmall)
    else if labels.Some? && |labels.value| != trendLimit then Err(LabelCountMismatch)
    else Ok(())
  }

  /** identify_all_trends accepts everything identify_trends accepts, in the
      same mode; identify_trends adds only the trend_limit and label checks. */
  lemma StricterThanAll(windowSize: int, trendLimit: int, labels: Option<seq<string>>, identify: string)
    ensures ValidateTrends(windowSize, trendLimit, labels, identify).Ok? ==>
      ValidateAll(windowSize, identify) == ValidateTrends(windowSize, trendLimit, labels, identify)
    ensures ValidateTrends(windowSize, trendLimit, labels, identify).Ok? <==>
      ValidateAll(windowSize, identify).Ok? &&
      ValidateLegacy(windowSize, trendLimit, labels).Ok?
  {
  }
}
