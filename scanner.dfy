/** The segment scanner: one pass over a numeric series that accumulates a
    run of values lying below their running mean and, when a value rises
    above that mean, closes the run and (if the run was long enough)
    records a trend ending at the run's first minimum.

    The scan is specified step by step (Step, ScanPrefix) over positions
    (Run); Locate then turns positions into index keys, which can fail
    because the recorded end may lie past the last row. ScanSegments is
    the imperative loop, proved equal to that specification. */
module Scanner {
  import opened Common

  function Sum(s: seq<real>): real
  {
    if s == [] then 0.0 else Sum(s[..|s| - 1]) + s[|s| - 1]
  }

  /** The arithmetic mean, as computed exactly. */
  function Mean(s: seq<real>): real
    requires s != []
  {
    Sum(s) / (|s| as real)
  }

  /** Position of the first occurrence of the minimum of s. */
  function FirstMinIndex(s: seq<real>): (k: nat)
    requires s != []
    ensures k < |s|
    ensures forall j :: 0 <= j < |s| ==> s[k] <= s[j]
    ensures forall j :: 0 <= j < k ==> s[j] > s[k]
  {
    if |s| == 1 then 0
    else
      var t := FirstMinIndex(s[1..]);
      if s[0] <= s[1 + t] then 0 else 1 + t
  }

  /** The two properties of FirstMinIndex determine it. */
  lemma FirstMinIndexUnique(s: seq<real>, k: nat)
    requires k < |s|
    requires forall j :: 0 <= j < |s| ==> s[k] <= s[j]
    requires forall j :: 0 <= j < k ==> s[j] > s[k]
    ensures k == FirstMinIndex(s)
  {
  }

  /** `min(values)`, then the index of its first occurrence. */
  method FirstMinimum(values: seq<real>) returns (counter: nat)
    requires values != []
    ensures counter < |values|
    ensures forall j :: 0 <= j < |values| ==> values[counter] <= values[j]
    ensures forall j :: 0 <= j < counter ==> values[j] > values[counter]
  {
    var minValue := values[0];
    for i := 1 to |values|
      invariant minValue in values[..i]
      invariant forall j :: 0 <= j < i ==> minValue <= values[j]
    {
      if values[i] < minValue {
        minValue := values[i];
      }
    }
    assert values[..|values|] == values;
    counter := 0;
    while values[counter] != minValue
      invariant counter < |values|
      invariant exists j :: counter <= j < |values| && values[j] == minValue
      invariant forall j :: 0 <= j < counter ==> values[j] != minValue
      decreases |values| - counter
    {
      counter := counter + 1;
    }
  }

  /** `to_trend`: from_trend plus the offset of the first minimum of values. */
  method TrendEnd(values: seq<real>, fromTrend: nat) returns (toTrend: nat)
    requires values != []
    ensures toTrend == fromTrend + FirstMinIndex(values)
  {
    var counter := FirstMinimum(values);
    FirstMinIndexUnique(values, counter);
    toTrend := fromTrend + counter;
  }

  /** A recorded trend, by position: `from` is `from_trend`, `to` is
      `from_trend + counter`, and `closedAt` is the position of the value
      that closed the run (the model keeps it for the proofs; the source
      does not record it). */
  datatype Run = Run(from: nat, to: nat, closedAt: nat)

  /** The scanner's variables. `limit`, `values`, `fromTrend` and `runs`
      are the source's `limit`, `values`, `from_trend` and `trends`;
      `runStart` is where the current `values` began, which `from_trend`
      leaves behind whenever a value ties with the mean in mid-run;
      `stopped` records the early `break` of the older entry point. */
  datatype ScanState = ScanState(
    limit: Option<real>,
    values: seq<real>,
    fromTrend: nat,
    runStart: nat,
    runs: seq<Run>,
    stopped: bool)

  /** Python truthiness of `limit`: set and non-zero. */
  predicate Armed(limit: Option<real>)
  {
    limit.Some? && limit.value != 0.0
  }

  function Start(): ScanState
  {
    ScanState(None, [], 0, 0, [], false)
  }

  /** One iteration of the scan loop on the value v at position index.
      cap is the older entry point's `trend_limit` (None: no early stop). */
  function Step(st: ScanState, index: nat, v: real, w: nat, cap: Option<nat>): ScanState
  {
    if st.stopped then st
    else if Armed(st.limit) && st.limit.value > v then Extend(st, v)
    else if Armed(st.limit) && st.limit.value < v then Close(st, index, w, cap)
    else Rearm(st, index, v)
  }

  /** `limit > value`: the value joins the run and the mean is recomputed. */
  function Extend(st: ScanState, v: real): ScanState
  {
    st.(values := st.values + [v], limit := Some(Mean(st.values + [v])))
  }

  /** `limit < value`: the run ends; it is recorded if it holds more than
      w values, and the older entry point stops once cap runs are recorded. */
  function Close(st: ScanState, index: nat, w: nat, cap: Option<nat>): ScanState
  {
    if |st.values| > w then
      var runs := st.runs + [Run(st.fromTrend, st.fromTrend + FirstMinIndex(st.values), index)];
      if cap.Some? && |runs| >= cap.value then st.(runs := runs, stopped := true)
      else st.(runs := runs, limit := None, values := [])
    else st.(limit := None, values := [])
  }

  /** The remaining case (no limit, a zero limit, or a tie with it):
      `from_trend` moves to this position and the value joins `values`. */
  function Rearm(st: ScanState, index: nat, v: real): ScanState
  {
    st.(fromTrend := index,
        runStart := if st.values == [] then index else st.runStart,
        values := st.values + [v],
        limit := Some(Mean(st.values + [v])))
  }

  /** The scanner's state after the first n values of series. */
  function ScanPrefix(series: seq<real>, n: nat, w: nat, cap: Option<nat>): ScanState
    requires n <= |series|
  {
    if n == 0 then Start()
    else Step(ScanPrefix(series, n - 1, w, cap), n - 1, series[n - 1], w, cap)
  }

  /** The same scan read forwards: the final state reached from st when
      the values from position i on are still to come. */
  function ScanRest(st: ScanState, series: seq<real>, i: nat, w: nat, cap: Option<nat>): ScanState
    requires i <= |series|
    decreases |series| - i
  {
    if i == |series| then st
    else ScanRest(Step(st, i, series[i], w, cap), series, i + 1, w, cap)
  }

  /** The trends recorded by a whole scan, by position. */
  function Runs(series: seq<real>, w: nat, cap: Option<nat>): seq<Run>
  {
    ScanRest(Start(), series, 0, w, cap).runs
  }

  lemma {:induction false} ScanRestFromPrefix(series: seq<real>, i: nat, w: nat, cap: Option<nat>)
    requires i <= |series|
    ensures ScanRest(ScanPrefix(series, i, w, cap), series, i, w, cap) == ScanPrefix(series, |series|, w, cap)
    decreases |series| - i
  {
    if i < |series| {
      ScanRestFromPrefix(series, i + 1, w, cap);
    }
  }

  datatype ScanError = IndexOutOfRange(position: nat)

  /** `df.index.tolist()[from_trend]` and `[to_trend]` for every recorded
      run, in order; the first position past the end is an IndexError. */
  function Locate(runs: seq<Run>, keys: seq<int>): Result<seq<Segment>, ScanError>
  {
    if runs == [] then Ok([])
    else
      match Locate(runs[..|runs| - 1], keys)
      case Err(e) => Err(e)
      case Ok(segs) =>
        var last := runs[|runs| - 1];
        if last.from >= |keys| then Err(IndexOutOfRange(last.from))
        else if last.to >= |keys| then Err(IndexOutOfRange(last.to))
        else Ok(segs + [Segment(keys[last.from], keys[last.to])])
  }

  /** Lookup succeeds exactly when every recorded position is a row, and
      then yields the keys at those positions, one segment per run. */
  lemma {:induction false} LocateSpec(runs: seq<Run>, keys: seq<int>)
    ensures Locate(runs, keys).Ok? <==>
      forall k :: 0 <= k < |runs| ==> runs[k].from < |keys| && runs[k].to < |keys|
    ensures Locate(runs, keys).Ok? ==> |Locate(runs, keys).value| == |runs|
    ensures Locate(runs, keys).Ok? ==> forall k :: 0 <= k < |runs| ==>
      Locate(runs, keys).value[k] == Segment(keys[runs[k].from], keys[runs[k].to])
  {
    if runs != [] {
      LocateSpec(runs[..|runs| - 1], keys);
    }
  }

  /** Looking up one more run. */
  lemma LocateAppend(runs: seq<Run>, run: Run, keys: seq<int>)
    requires Locate(runs, keys).Ok?
    ensures Locate(runs + [run], keys) ==
      if run.from >= |keys| then Err(IndexOutOfRange(run.from))
      else if run.to >= |keys| then Err(IndexOutOfRange(run.to))
      else Ok(Locate(runs, keys).value + [Segment(keys[run.from], keys[run.to])])
  {
    assert (runs + [run])[..|runs + [run]| - 1] == runs;
  }

  /** Once lookup has failed, later runs do not change the outcome. */
  lemma {:induction false} LocateKeepsError(a: seq<Run>, b: seq<Run>, keys: seq<int>)
    requires Locate(a, keys).Err?
    ensures Locate(a + b, keys) == Locate(a, keys)
  {
    if b != [] {
      var b' := b[..|b| - 1];
      assert (a + b)[..|a + b| - 1] == a + b';
      LocateKeepsError(a, b', keys);
    } else {
      assert a + b == a;
    }
  }

  /** After the early break nothing changes any more. */
  lemma {:induction false} StoppedIsFinal(st: ScanState, series: seq<real>, i: nat, w: nat, cap: Option<nat>)
    requires i <= |series| && st.stopped
    ensures ScanRest(st, series, i, w, cap) == st
    decreases |series| - i
  {
    if i < |series| {
      StoppedIsFinal(st, series, i + 1, w, cap);
    }
  }

  /** The run a step records: one when a long enough run is closed. */
  function Closed(st: ScanState, index: nat, v: real, w: nat): seq<Run>
  {
    if !st.stopped && Armed(st.limit) && st.limit.value < v && |st.values| > w
    then [Run(st.fromTrend, st.fromTrend + FirstMinIndex(st.values), index)]
    else []
  }

  /** A step only ever appends to the recorded runs, and only that run. */
  lemma StepRuns(st: ScanState, index: nat, v: real, w: nat, cap: Option<nat>)
    ensures Step(st, index, v, w, cap).runs == st.runs + Closed(st, index, v, w)
  {
    if Closed(st, index, v, w) == [] {
      assert st.runs + [] == st.runs;
    }
  }

  /** Once a lookup has failed, the scan's outcome is that failure. */
  lemma {:induction false} ErrorIsFinal(st: ScanState, series: seq<real>, i: nat, w: nat, cap: Option<nat>, keys: seq<int>)
    requires i <= |series| && Locate(st.runs, keys).Err?
    ensures Locate(ScanRest(st, series, i, w, cap).runs, keys) == Locate(st.runs, keys)
    decreases |series| - i
  {
    if i < |series| {
      var next := Step(st, i, series[i], w, cap);
      StepRuns(st, i, series[i], w, cap);
      LocateKeepsError(st.runs, Closed(st, i, series[i], w), keys);
      ErrorIsFinal(next, series, i + 1, w, cap, keys);
    }
  }

  /** One step of the forward scan, in each branch of the loop body,
      written over the loop's own variables. */
  lemma AdvanceExtend(limit: Option<real>, values: seq<real>, fromTrend: nat, runStart: nat, runs: seq<Run>,
                      series: seq<real>, index: nat, w: nat, cap: Option<nat>)
    requires index < |series| && Armed(limit) && limit.value > series[index]
    ensures ScanRest(ScanState(limit, values, fromTrend, runStart, runs, false), series, index, w, cap) ==
      ScanRest(ScanState(Some(Mean(values + [series[index]])), values + [series[index]], fromTrend, runStart, runs, false),
               series, index + 1, w, cap)
  {
  }

  lemma AdvanceReset(limit: Option<real>, values: seq<real>, fromTrend: nat, runStart: nat, runs: seq<Run>,
                     series: seq<real>, index: nat, w: nat, cap: Option<nat>)
    requires index < |series| && Armed(limit) && limit.value < series[index] && |values| <= w
    ensures ScanRest(ScanState(limit, values, fromTrend, runStart, runs, false), series, index, w, cap) ==
      ScanRest(ScanState(None, [], fromTrend, runStart, runs, false), series, index + 1, w, cap)
  {
  }

  lemma AdvanceRecord(limit: Option<real>, values: seq<real>, fromTrend: nat, runStart: nat, runs: seq<Run>,
                      series: seq<real>, index: nat, w: nat, cap: Option<nat>, run: Run)
    requires index < |series| && Armed(limit) && limit.value < series[index] && |values| > w
    requires run == Run(fromTrend, fromTrend + FirstMinIndex(values), index)
    requires cap.None? || |runs| + 1 < cap.value
    ensures ScanRest(ScanState(limit, values, fromTrend, runStart, runs, false), series, index, w, cap) ==
      ScanRest(ScanState(None, [], fromTrend, runStart, runs + [run], false), series, index + 1, w, cap)
  {
  }

  lemma AdvanceStop(limit: Option<real>, values: seq<real>, fromTrend: nat, runStart: nat, runs: seq<Run>,
                    series: seq<real>, index: nat, w: nat, cap: Option<nat>, run: Run)
    requires index < |series| && Armed(limit) && limit.value < series[index] && |values| > w
    requires run == Run(fromTrend, fromTrend + FirstMinIndex(values), index)
    requires cap.Some? && |runs| + 1 >= cap.value
    ensures ScanRest(ScanState(limit, values, fromTrend, runStart, runs, false), series, index, w, cap).runs ==
      runs + [run]
  {
    var next := ScanState(limit, values, fromTrend, runStart, runs + [run], true);
    StoppedIsFinal(next, series, index + 1, w, cap);
  }

  lemma AdvanceRearm(limit: Option<real>, values: seq<real>, fromTrend: nat, runStart: nat, runs: seq<Run>,
                     series: seq<real>, index: nat, w: nat, cap: Option<nat>)
    requires index < |series|
    requires !(Armed(limit) && limit.value > series[index]) && !(Armed(limit) && limit.value < series[index])
    ensures ScanRest(ScanState(limit, values, fromTrend, runStart, runs, false), series, index, w, cap) ==
      ScanRest(ScanState(Some(Mean(values + [series[index]])), values + [series[index]], index,
                         if values == [] then index else runStart, runs, false),
               series, index + 1, w, cap)
  {
  }

  /** A failed lookup while recording a run decides the whole scan. */
  lemma AdvanceFail(limit: Option<real>, values: seq<real>, fromTrend: nat, runStart: nat, runs: seq<Run>,
                    series: seq<real>, index: nat, w: nat, cap: Option<nat>, run: Run, keys: seq<int>)
    requires index < |series| && Armed(limit) && limit.value < series[index] && |values| > w
    requires run == Run(fromTrend, fromTrend + FirstMinIndex(values), index)
    requires Locate(runs + [run], keys).Err?
    ensures Locate(ScanRest(ScanState(limit, values, fromTrend, runStart, runs, false), series, index, w, cap).runs, keys) ==
      Locate(runs + [run], keys)
  {
    if cap.Some? && |runs| + 1 >= cap.value {
      AdvanceStop(limit, values, fromTrend, runStart, runs, series, index, w, cap, run);
    } else {
      AdvanceRecord(limit, values, fromTrend, runStart, runs, series, index, w, cap, run);
      ErrorIsFinal(ScanState(None, [], fromTrend, runStart, runs + [run], false), series, index + 1, w, cap, keys);
    }
  }

  /** The scan loop of `identify_trends`, `identify_all_trends`,
      `identify_df_trends` (cap None) and of the older `identify_trends`
      (cap Some(trend_limit)), with the key lookup done at the moment the
      trend is recorded. */
  method ScanSegments(series: seq<real>, keys: seq<int>, windowSize: nat, cap: Option<nat>)
    returns (r: Result<seq<Segment>, ScanError>)
    requires |keys| == |series|
    ensures r == Locate(Runs(series, windowSize, cap), keys)
  {
    ghost var final := ScanRest(Start(), series, 0, windowSize, cap);
    var limit: Option<real> := None;
    var values: seq<real> := [];
    var fromTrend: nat := 0;
    var trends: seq<Segment> := [];
    ghost var runStart: nat := 0;
    ghost var runs: seq<Run> := [];
    var index := 0;
    while index < |series|
      invariant index <= |series|
      invariant ScanRest(ScanState(limit, values, fromTrend, runStart, runs, false),
                         series, index, windowSize, cap) == final
      invariant Armed(limit) ==> values != [] && fromTrend < index
      invariant Locate(runs, keys) == Ok(trends) && |trends| == |runs|
    {
      var value := series[index];
      if Armed(limit) && limit.value > value {
        AdvanceExtend(limit, values, fromTrend, runStart, runs, series, index, windowSize, cap);
        values := values + [value];
        limit := Some(Mean(values));
      } else if Armed(limit) && limit.value < value {
        if |values| > windowSize {
          var toTrend := TrendEnd(values, fromTrend);
          ghost var run := Run(fromTrend, toTrend, index);
          LocateAppend(runs, run, keys);
          if toTrend >= |keys| {
            AdvanceFail(limit, values, fromTrend, runStart, runs, series, index, windowSize, cap, run, keys);
            return Err(IndexOutOfRange(toTrend));
          }
          trends := trends + [Segment(keys[fromTrend], keys[toTrend])];
          if cap.Some? && |trends| >= cap.value {
            AdvanceStop(limit, values, fromTrend, runStart, runs, series, index, windowSize, cap, run);
            return Ok(trends);
          }
          AdvanceRecord(limit, values, fromTrend, runStart, runs, series, index, windowSize, cap, run);
          runs := runs + [run];
        } else {
          AdvanceReset(limit, values, fromTrend, runStart, runs, series, index, windowSize, cap);
        }
        limit := None;
        values := [];
      } else {
        AdvanceRearm(limit, values, fromTrend, runStart, runs, series, index, windowSize, cap);
        runStart := if values == [] then index else runStart;
        fromTrend := index;
        values := values + [value];
        limit := Some(Mean(values));
      }
      index := index + 1;
    }
    r := Ok(trends);
  }

  // ----- Invariants of every reachable scanner state -----

  /** Where the next run can begin at the earliest. */
  function Frontier(st: ScanState, i: nat): nat
  {
    if !st.stopped && st.values != [] then st.runStart else i
  }

  /** The current run has not been re-armed by a tie since it began. */
  predicate Clean(st: ScanState)
  {
    !st.stopped && st.values != [] && st.fromTrend == st.runStart
  }

  /** A mid-run tie (or a zero mean) has moved `from_trend` away from the
      start of the values it will be added to. */
  predicate Rearmed(st: ScanState)
  {
    !st.stopped && st.values != [] && st.fromTrend != st.runStart
  }

  /** Every value after the first lies strictly below the mean of those before it. */
  ghost predicate Declining(values: seq<real>)
  {
    forall k :: 0 < k < |values| ==> values[k] < Mean(values[..k])
  }

  /** Where the recorded runs lie: each before the frontier and before the next. */
  ghost predicate RunsPlaced(series: seq<real>, i: nat, st: ScanState)
  {
    && (forall k :: 0 <= k < |st.runs| ==>
          st.runs[k].from <= st.runs[k].to
          && st.runs[k].from < st.runs[k].closedAt < Frontier(st, i)
          && st.runs[k].closedAt < |series|)
    && (forall k :: 0 < k < |st.runs| ==> st.runs[k - 1].closedAt < st.runs[k].from)
  }

  /** `values` is the stretch of the series since runStart, `limit` its mean. */
  ghost predicate ValuesTracked(series: seq<real>, i: nat, st: ScanState)
  {
    && i <= |series|
    && (!st.stopped ==> (st.values == [] <==> st.limit.None?))
    && (!st.stopped && st.values != [] ==>
          && st.runStart <= st.fromTrend < i
          && st.runStart + |st.values| == i
          && st.values == series[st.runStart..i]
          && st.limit == Some(Mean(st.values)))
  }

  ghost predicate Inv(series: seq<real>, i: nat, st: ScanState)
  {
    RunsPlaced(series, i, st) && ValuesTracked(series, i, st) && (Clean(st) ==> Declining(st.values))
  }

  lemma StepKeepsInv(series: seq<real>, i: nat, st: ScanState, w: nat, cap: Option<nat>)
    requires i < |series| && Inv(series, i, st)
    ensures Inv(series, i + 1, Step(st, i, series[i], w, cap))
  {
    var v := series[i];
    if st.stopped {
    } else if Armed(st.limit) && st.limit.value > v {
      ExtendKeepsInv(series, i, st, w, cap);
    } else if Armed(st.limit) && st.limit.value < v {
      CloseKeepsInv(series, i, st, w, cap);
    } else {
      RearmKeepsInv(series, i, st, w, cap);
    }
  }

  lemma ExtendKeepsInv(series: seq<real>, i: nat, st: ScanState, w: nat, cap: Option<nat>)
    requires i < |series| && Inv(series, i, st)
    requires !st.stopped && Armed(st.limit) && st.limit.value > series[i]
    ensures Inv(series, i + 1, Step(st, i, series[i], w, cap))
  {
    var v := series[i];
    var next := Step(st, i, v, w, cap);
    assert next == st.(values := st.values + [v], limit := Some(Mean(st.values + [v])));
    assert st.values + [v] == series[st.runStart..i + 1];
    assert ValuesTracked(series, i + 1, next);
    assert RunsPlaced(series, i + 1, next);
    if Clean(st) {
      forall k | 0 < k < |next.values|
        ensures next.values[k] < Mean(next.values[..k])
      {
        if k < |st.values| {
          assert next.values[..k] == st.values[..k];
        } else {
          assert next.values[..k] == st.values;
        }
      }
    }
  }

  lemma CloseKeepsInv(series: seq<real>, i: nat, st: ScanState, w: nat, cap: Option<nat>)
    requires i < |series| && Inv(series, i, st)
    requires !st.stopped && Armed(st.limit) && st.limit.value < series[i]
    ensures Inv(series, i + 1, Step(st, i, series[i], w, cap))
  {
    var next := Step(st, i, series[i], w, cap);
    assert Frontier(next, i + 1) == i + 1;
    assert !Clean(next);
    StepRuns(st, i, series[i], w, cap);
    if |st.values| > w {
      assert RunsPlaced(series, i + 1, next);
    }
  }

  lemma RearmKeepsInv(series: seq<real>, i: nat, st: ScanState, w: nat, cap: Option<nat>)
    requires i < |series| && Inv(series, i, st)
    requires !st.stopped && !(Armed(st.limit) && st.limit.value > series[i])
    requires !(Armed(st.limit) && st.limit.value < series[i])
    ensures Inv(series, i + 1, Step(st, i, series[i], w, cap))
  {
    assert Step(st, i, series[i], w, cap) == Rearm(st, i, series[i]);
    RearmTracked(series, i, st);
    RearmPlaced(series, i, st);
    RearmClean(series, i, st);
  }

  lemma RearmTracked(series: seq<real>, i: nat, st: ScanState)
    requires i < |series| && !st.stopped && ValuesTracked(series, i, st)
    ensures ValuesTracked(series, i + 1, Rearm(st, i, series[i]))
  {
    var start := if st.values == [] then i else st.runStart;
    assert st.values + [series[i]] == series[start..i + 1];
  }

  lemma RearmPlaced(series: seq<real>, i: nat, st: ScanState)
    requires i < |series| && !st.stopped && ValuesTracked(series, i, st) && RunsPlaced(series, i, st)
    ensures RunsPlaced(series, i + 1, Rearm(st, i, series[i]))
  {
  }

  lemma RearmClean(series: seq<real>, i: nat, st: ScanState)
    requires i < |series| && !st.stopped && ValuesTracked(series, i, st)
    ensures Clean(Rearm(st, i, series[i])) ==> Declining(Rearm(st, i, series[i]).values)
  {
    if st.values == [] {
      assert Rearm(st, i, series[i]).values == [series[i]];
    }
  }

  lemma {:induction false} ScanPrefixInv(series: seq<real>, n: nat, w: nat, cap: Option<nat>)
    requires n <= |series|
    ensures Inv(series, n, ScanPrefix(series, n, w, cap))
  {
    if n > 0 {
      ScanPrefixInv(series, n - 1, w, cap);
      StepKeepsInv(series, n - 1, ScanPrefix(series, n - 1, w, cap), w, cap);
    }
  }

  // ----- Properties of every scan -----

  /** Trends are recorded in order: each starts after the value that
      closed the one before, and no end comes before its start. */
  lemma RunsOrdered(series: seq<real>, w: nat, cap: Option<nat>)
    ensures var runs := Runs(series, w, cap);
      && (forall k :: 0 <= k < |runs| ==>
            runs[k].from <= runs[k].to && runs[k].from < runs[k].closedAt < |series|)
      && (forall k :: 0 < k < |runs| ==> runs[k - 1].closedAt < runs[k].from)
  {
    ScanPrefixInv(series, |series|, w, cap);
    ScanRestFromPrefix(series, 0, w, cap);
  }

  /** On an ascending index, a successful lookup yields trends whose start
      keys ascend and whose end key is never before their start key. */
  lemma SegmentsOrdered(series: seq<real>, keys: seq<int>, w: nat, cap: Option<nat>)
    requires |keys| == |series| && StrictlyIncreasing(keys)
    requires Locate(Runs(series, w, cap), keys).Ok?
    ensures var segs := Locate(Runs(series, w, cap), keys).value;
      && (forall k :: 0 <= k < |segs| ==> segs[k].from <= segs[k].to)
      && (forall k :: 0 < k < |segs| ==> segs[k - 1].from < segs[k].from)
  {
    var runs := Runs(series, w, cap);
    RunsOrdered(series, w, cap);
    LocateSpec(runs, keys);
    var segs := Locate(runs, keys).value;
    forall k | 0 <= k < |segs|
      ensures segs[k].from <= segs[k].to
    {
      if runs[k].from < runs[k].to {
        assert keys[runs[k].from] < keys[runs[k].to];
      }
    }
    forall k | 0 < k < |segs|
      ensures segs[k - 1].from < segs[k].from
    {
      assert keys[runs[k - 1].from] < keys[runs[k].from];
    }
  }

  // ----- The early break of the older entry point -----

  /** How a scan with cap Some(c) relates to the uncapped scan. */
  ghost predicate Truncation(a: ScanState, b: ScanState, c: nat)
  {
    && (!a.stopped ==> a == b && |a.runs| < c)
    && (a.stopped ==> |a.runs| == c <= |b.runs| && a.runs == b.runs[..c])
  }

  lemma StepTruncation(a: ScanState, b: ScanState, index: nat, v: real, w: nat, c: nat)
    requires Truncation(a, b, c) && !b.stopped
    ensures Truncation(Step(a, index, v, w, Some(c)), Step(b, index, v, w, None), c)
    ensures !Step(b, index, v, w, None).stopped
  {
    var b' := Step(b, index, v, w, None);
    StepRuns(b, index, v, w, None);
    if a.stopped {
      assert b'.runs[..c] == b.runs[..c];
    } else if Armed(a.limit) && a.limit.value < v && |a.values| > w {
      if |a.runs| + 1 >= c {
        assert b'.runs[..c] == b'.runs;
      }
    }
  }

  lemma {:induction false} ScanTruncation(series: seq<real>, n: nat, w: nat, c: nat)
    requires n <= |series| && c >= 1
    ensures Truncation(ScanPrefix(series, n, w, Some(c)), ScanPrefix(series, n, w, None), c)
    ensures !ScanPrefix(series, n, w, None).stopped
  {
    if n > 0 {
      ScanTruncation(series, n - 1, w, c);
      var a := ScanPrefix(series, n - 1, w, Some(c));
      var b := ScanPrefix(series, n - 1, w, None);
      StepTruncation(a, b, n - 1, series[n - 1], w, c);
    }
  }

  /** The early break keeps the first trend_limit trends of the uncapped
      scan and nothing else. */
  lemma CapTruncates(series: seq<real>, w: nat, c: nat)
    requires c >= 1
    ensures var all := Runs(series, w, None);
      Runs(series, w, Some(c)) == if |all| <= c then all else all[..c]
  {
    ScanTruncation(series, |series|, w, c);
    ScanRestFromPrefix(series, 0, w, None);
    ScanRestFromPrefix(series, 0, w, Some(c));
    var all := Runs(series, w, None);
    if ScanPrefix(series, |series|, w, Some(c)).stopped && |all| <= c {
      assert all[..c] == all;
    }
  }

  /** Hence never more than trend_limit trends. */
  lemma CapBound(series: seq<real>, w: nat, c: nat)
    requires c >= 1
    ensures |Runs(series, w, Some(c))| <= c
  {
    CapTruncates(series, w, c);
  }

  // ----- Scans without a mid-run tie -----

  /** Every element of s lies strictly below b. */
  predicate AllBelow(s: seq<real>, b: real)
  {
    s == [] || (s[0] < b && AllBelow(s[1..], b))
  }

  lemma {:induction false} AllBelowIff(s: seq<real>, b: real)
    ensures AllBelow(s, b) <==> forall j :: 0 <= j < |s| ==> s[j] < b
  {
    if s != [] {
      AllBelowIff(s[1..], b);
      assert forall j :: 0 < j < |s| ==> s[j] == s[1..][j - 1];
    }
  }

  /** A clean trend: it starts at the first value of a
      declining run of more than w values, every later value of the run
      lies below that first one, it ends at the run's first minimum, and
      the run was closed at closedAt. */
  ghost predicate WellFormedRun(series: seq<real>, r: Run, w: nat)
  {
    && r.from < r.to < r.closedAt < |series|
    && r.closedAt - r.from > w
    && AllBelow(series[r.from + 1..r.closedAt], series[r.from])
    && r.to == r.from + FirstMinIndex(series[r.from..r.closedAt])
  }

  /** No value of the series ever equals the running mean of an open run
      (and no open run has mean zero), so `from_trend` always stays at the
      start of `values`. */
  ghost predicate NoMidRunTie(series: seq<real>, w: nat, cap: Option<nat>)
  {
    forall k :: 0 <= k < |series| ==> !Rearmed(ScanPrefix(series, k, w, cap))
  }

  lemma MeanSingleton(x: real)
    ensures Mean([x]) == x
  {
    assert [x][..0] == [];
    assert Sum([x]) == x;
  }

  lemma {:induction false} SumBelow(s: seq<real>, b: real)
    requires forall j :: 0 <= j < |s| ==> s[j] <= b
    ensures Sum(s) <= |s| as real * b
  {
    if s != [] {
      SumBelow(s[..|s| - 1], b);
    }
  }

  lemma MeanBelow(s: seq<real>, b: real)
    requires s != [] && forall j :: 0 <= j < |s| ==> s[j] <= b
    ensures Mean(s) <= b
  {
    SumBelow(s, b);
    var n := |s| as real;
    assert Sum(s) / n <= (n * b) / n;
  }

  /** In a declining run every value after the first lies below the first:
      each lies below the mean of those before it, which are all at most
      the first. */
  lemma {:induction false} DecliningBelowFirst(values: seq<real>, k: nat)
    requires Declining(values) && 0 < k < |values|
    ensures values[k] < values[0]
    decreases k
  {
    var before := values[..k];
    forall j | 0 <= j < k
      ensures before[j] <= values[0]
    {
      if j > 0 {
        DecliningBelowFirst(values, j);
      }
    }
    MeanBelow(before, values[0]);
  }

  lemma CloseWellFormed(series: seq<real>, i: nat, st: ScanState, w: nat)
    requires i < |series| && Inv(series, i, st) && w >= 1
    requires !st.stopped && Armed(st.limit) && st.limit.value < series[i] && |st.values| > w
    requires !Rearmed(st)
    ensures WellFormedRun(series, Run(st.fromTrend, st.fromTrend + FirstMinIndex(st.values), i), w)
  {
    var values := st.values;
    assert Clean(st);
    assert values[..1] == [values[0]];
    MeanSingleton(values[0]);
    assert values[1] < values[0];
    assert values == series[st.fromTrend..i];
    var rest := series[st.fromTrend + 1..i];
    forall j | 0 <= j < |rest|
      ensures rest[j] < series[st.fromTrend]
    {
      DecliningBelowFirst(values, j + 1);
    }
    AllBelowIff(rest, series[st.fromTrend]);
  }

  ghost predicate AllWellFormed(series: seq<real>, runs: seq<Run>, w: nat)
  {
    forall k :: 0 <= k < |runs| ==> WellFormedRun(series, runs[k], w)
  }

  lemma StepWellFormed(series: seq<real>, i: nat, st: ScanState, w: nat, cap: Option<nat>, next: ScanState)
    requires i < |series| && Inv(series, i, st) && w >= 1 && !Rearmed(st)
    requires AllWellFormed(series, st.runs, w)
    requires next == Step(st, i, series[i], w, cap)
    ensures AllWellFormed(series, next.runs, w)
  {
    var v := series[i];
    StepRuns(st, i, v, w, cap);
    if !st.stopped && Armed(st.limit) && st.limit.value < v && |st.values| > w {
      CloseWellFormed(series, i, st, w);
    }
  }

  /** One more step without a tie keeps the recorded runs clean. */
  lemma TieFreeStep(series: seq<real>, n: nat, w: nat, cap: Option<nat>)
    requires n < |series| && w >= 1 && !Rearmed(ScanPrefix(series, n, w, cap))
    requires AllWellFormed(series, ScanPrefix(series, n, w, cap).runs, w)
    ensures AllWellFormed(series, ScanPrefix(series, n + 1, w, cap).runs, w)
  {
    var st := ScanPrefix(series, n, w, cap);
    ScanPrefixInv(series, n, w, cap);
    StepWellFormed(series, n, st, w, cap, ScanPrefix(series, n + 1, w, cap));
  }

  lemma {:induction false} TieFreePrefix(series: seq<real>, n: nat, w: nat, cap: Option<nat>)
    requires n <= |series| && w >= 1 && NoMidRunTie(series, w, cap)
    ensures AllWellFormed(series, ScanPrefix(series, n, w, cap).runs, w)
  {
    if n > 0 {
      TieFreePrefix(series, n - 1, w, cap);
      assert !Rearmed(ScanPrefix(series, n - 1, w, cap));
      TieFreeStep(series, n - 1, w, cap);
    }
  }

  /** Without a mid-run tie or zero mean every trend is clean: it comes
      from a run of more than window_size values whose first value is its
      largest, it ends at the run's first minimum before the value that
      closed it, each trend ends before the next begins, and every position
      is a row, so the lookup succeeds. */
  lemma TieFreeTrends(series: seq<real>, keys: seq<int>, w: nat, cap: Option<nat>)
    requires |keys| == |series| && w >= 1 && NoMidRunTie(series, w, cap)
    ensures var runs := Runs(series, w, cap);
      && AllWellFormed(series, runs, w)
      && (forall k :: 0 < k < |runs| ==> runs[k - 1].to < runs[k].from)
      && Locate(runs, keys).Ok?
  {
    var runs := Runs(series, w, cap);
    TieFreePrefix(series, |series|, w, cap);
    ScanRestFromPrefix(series, 0, w, cap);
    RunsOrdered(series, w, cap);
    LocateSpec(runs, keys);
  }

  // ----- Worked examples -----

  /** One forward step, for following a scan by hand. */
  lemma Forward(st: ScanState, next: ScanState, series: seq<real>, i: nat, w: nat, cap: Option<nat>)
    requires i < |series| && next == Step(st, i, series[i], w, cap)
    ensures ScanRest(st, series, i, w, cap) == ScanRest(next, series, i + 1, w, cap)
  {
  }

  lemma SumAppend(s: seq<real>, x: real)
    ensures Sum(s + [x]) == Sum(s) + x
  {
    assert (s + [x])[..|s|] == s;
  }

  /** Exactly window_size declining values are not a trend. */
  lemma WindowTooShort()
    ensures Runs([10.0, 9.0, 8.0, 11.0], 3, None) == []
  {
    var a := [10.0, 9.0, 8.0, 11.0];
    var v1 := [] + [10.0];
    var v2 := v1 + [9.0];
    var v3 := v2 + [8.0];
    SumAppend([], 10.0);
    SumAppend(v1, 9.0);
    SumAppend(v2, 8.0);
    ScanRestFromPrefix(a, 0, 3, None);
    Forward(Start(), ScanState(Some(10.0), v1, 0, 0, [], false), a, 0, 3, None);
    Forward(ScanState(Some(10.0), v1, 0, 0, [], false),
            ScanState(Some(9.5), v2, 0, 0, [], false), a, 1, 3, None);
    Forward(ScanState(Some(9.5), v2, 0, 0, [], false),
            ScanState(Some(9.0), v3, 0, 0, [], false), a, 2, 3, None);
    Forward(ScanState(Some(9.0), v3, 0, 0, [], false),
            ScanState(None, [], 0, 0, [], false), a, 3, 3, None);
  }

  /** One value more than window_size is a trend, ending at its minimum. */
  lemma WindowExceeded()
    ensures Runs([10.0, 9.0, 8.0, 7.0, 11.0], 3, None) == [Run(0, 3, 4)]
  {
    var a := [10.0, 9.0, 8.0, 7.0, 11.0];
    var v1 := [] + [10.0];
    var v2 := v1 + [9.0];
    var v3 := v2 + [8.0];
    var v4 := v3 + [7.0];
    SumAppend([], 10.0);
    SumAppend(v1, 9.0);
    SumAppend(v2, 8.0);
    SumAppend(v3, 7.0);
    ScanRestFromPrefix(a, 0, 3, None);
    Forward(Start(), ScanState(Some(10.0), v1, 0, 0, [], false), a, 0, 3, None);
    Forward(ScanState(Some(10.0), v1, 0, 0, [], false),
            ScanState(Some(9.5), v2, 0, 0, [], false), a, 1, 3, None);
    Forward(ScanState(Some(9.5), v2, 0, 0, [], false),
            ScanState(Some(9.0), v3, 0, 0, [], false), a, 2, 3, None);
    Forward(ScanState(Some(9.0), v3, 0, 0, [], false),
            ScanState(Some(8.5), v4, 0, 0, [], false), a, 3, 3, None);
    FirstMinIndexUnique(v4, 3);
    Forward(ScanState(Some(8.5), v4, 0, 0, [], false),
            ScanState(None, [], 0, 0, [Run(0, 3, 4)], false), a, 4, 3, None);
  }

  /** The run must exceed window_size values, the trend need not: here a
      run of four values closes, but its minimum is its second value, so
      the labelled trend covers two rows with window 3. */
  lemma ShortTrend()
    ensures Runs([10.0, 5.0, 6.0, 6.5, 20.0], 3, None) == [Run(0, 1, 4)]
    ensures Locate(Runs([10.0, 5.0, 6.0, 6.5, 20.0], 3, None), [0, 1, 2, 3, 4]) == Ok([Segment(0, 1)])
  {
    var a := [10.0, 5.0, 6.0, 6.5, 20.0];
    var v1 := [] + [10.0];
    var v2 := v1 + [5.0];
    var v3 := v2 + [6.0];
    var v4 := v3 + [6.5];
    SumAppend([], 10.0);
    SumAppend(v1, 5.0);
    SumAppend(v2, 6.0);
    SumAppend(v3, 6.5);
    ScanRestFromPrefix(a, 0, 3, None);
    Forward(Start(), ScanState(Some(10.0), v1, 0, 0, [], false), a, 0, 3, None);
    Forward(ScanState(Some(10.0), v1, 0, 0, [], false),
            ScanState(Some(7.5), v2, 0, 0, [], false), a, 1, 3, None);
    Forward(ScanState(Some(7.5), v2, 0, 0, [], false),
            ScanState(Some(7.0), v3, 0, 0, [], false), a, 2, 3, None);
    Forward(ScanState(Some(7.0), v3, 0, 0, [], false),
            ScanState(Some(6.875), v4, 0, 0, [], false), a, 3, 3, None);
    FirstMinIndexUnique(v4, 1);
    Forward(ScanState(Some(6.875), v4, 0, 0, [], false),
            ScanState(None, [], 0, 0, [Run(0, 1, 4)], false), a, 4, 3, None);
    var runs := [Run(0, 1, 4)];
    assert runs[..0] == [];
    assert [] + [Segment(0, 1)] == [Segment(0, 1)];
  }

  /** A value equal to the running mean moves `from_trend` but keeps
      `values`, so the offset of the minimum is counted from the wrong
      place: here the end lands past the last row and the lookup fails. */
  lemma TieOvershoot()
    ensures Runs([4.0, 2.0, 3.0, 1.0, 5.0], 3, None) == [Run(2, 5, 4)]
    ensures Locate(Runs([4.0, 2.0, 3.0, 1.0, 5.0], 3, None), [0, 1, 2, 3, 4]) == Err(IndexOutOfRange(5))
  {
    var a := [4.0, 2.0, 3.0, 1.0, 5.0];
    var v1 := [] + [4.0];
    var v2 := v1 + [2.0];
    var v3 := v2 + [3.0];
    var v4 := v3 + [1.0];
    SumAppend([], 4.0);
    SumAppend(v1, 2.0);
    SumAppend(v2, 3.0);
    SumAppend(v3, 1.0);
    ScanRestFromPrefix(a, 0, 3, None);
    Forward(Start(), ScanState(Some(4.0), v1, 0, 0, [], false), a, 0, 3, None);
    Forward(ScanState(Some(4.0), v1, 0, 0, [], false),
            ScanState(Some(3.0), v2, 0, 0, [], false), a, 1, 3, None);
    Forward(ScanState(Some(3.0), v2, 0, 0, [], false),
            ScanState(Some(3.0), v3, 2, 0, [], false), a, 2, 3, None);
    Forward(ScanState(Some(3.0), v3, 2, 0, [], false),
            ScanState(Some(2.5), v4, 2, 0, [], false), a, 3, 3, None);
    FirstMinIndexUnique(v4, 3);
    Forward(ScanState(Some(2.5), v4, 2, 0, [], false),
            ScanState(None, [], 2, 0, [Run(2, 5, 4)], false), a, 4, 3, None);
    var runs := [Run(2, 5, 4)];
    assert runs[..0] == [];
  }

  /** A running mean of exactly zero in mid-run is falsy, so the next value
      re-arms like a tie: on [1, -1, -2, -3, -4, 5] with window 3 the mean
      of [1, -1] is 0, `from_trend` moves to 2 while `values` is kept, the
      run closes at 5 with its minimum at offset 4, and position 6 is past
      the last row. */
  lemma ZeroMeanOvershoot()
    ensures Runs([1.0, -1.0, -2.0, -3.0, -4.0, 5.0], 3, None) == [Run(2, 6, 5)]
    ensures Locate(Runs([1.0, -1.0, -2.0, -3.0, -4.0, 5.0], 3, None), [0, 1, 2, 3, 4, 5])
      == Err(IndexOutOfRange(6))
  {
    var a := [1.0, -1.0, -2.0, -3.0, -4.0, 5.0];
    ScanRestFromPrefix(a, 0, 3, None);
    ZeroMeanHead(a);
    ZeroMeanTail(a);
    var runs := [Run(2, 6, 5)];
    assert runs[..0] == [];
  }

  /** The first three steps of ZeroMeanOvershoot: the mean reaches 0, then re-arms. */
  lemma ZeroMeanHead(a: seq<real>)
    requires a == [1.0, -1.0, -2.0, -3.0, -4.0, 5.0]
    ensures ScanRest(Start(), a, 0, 3, None)
      == ScanRest(ScanState(Some(-2.0 / 3.0), [1.0, -1.0, -2.0], 2, 0, [], false), a, 3, 3, None)
  {
    var v1 := [] + [1.0];
    var v2 := v1 + [-1.0];
    var v3 := v2 + [-2.0];
    var s1 := ScanState(Some(1.0), v1, 0, 0, [], false);
    var s2 := ScanState(Some(0.0), v2, 0, 0, [], false);
    var s3 := ScanState(Some(-2.0 / 3.0), v3, 2, 0, [], false);
    assert ScanRest(Start(), a, 0, 3, None) == ScanRest(s1, a, 1, 3, None) by {
      SumAppend([], 1.0);
      Forward(Start(), s1, a, 0, 3, None);
    }
    assert ScanRest(s1, a, 1, 3, None) == ScanRest(s2, a, 2, 3, None) by {
      SumAppend([], 1.0);
      SumAppend(v1, -1.0);
      Forward(s1, s2, a, 1, 3, None);
    }
    assert ScanRest(s2, a, 2, 3, None) == ScanRest(s3, a, 3, 3, None) by {
      SumAppend([], 1.0);
      SumAppend(v1, -1.0);
      SumAppend(v2, -2.0);
      Forward(s2, s3, a, 2, 3, None);
    }
    assert v3 == [1.0, -1.0, -2.0];
  }

  /** The last three steps of ZeroMeanOvershoot: two extensions, then the close. */
  lemma ZeroMeanTail(a: seq<real>)
    requires a == [1.0, -1.0, -2.0, -3.0, -4.0, 5.0]
    ensures ScanRest(ScanState(Some(-2.0 / 3.0), [1.0, -1.0, -2.0], 2, 0, [], false), a, 3, 3, None)
      == ScanState(None, [], 2, 0, [Run(2, 6, 5)], false)
  {
    var v3 := [1.0, -1.0, -2.0];
    var v4 := v3 + [-3.0];
    var v5 := v4 + [-4.0];
    var s3 := ScanState(Some(-2.0 / 3.0), v3, 2, 0, [], false);
    var s4 := ScanState(Some(-5.0 / 4.0), v4, 2, 0, [], false);
    var s5 := ScanState(Some(-9.0 / 5.0), v5, 2, 0, [], false);
    assert Sum(v3) == -2.0 by {
      assert v3 == ([] + [1.0] + [-1.0]) + [-2.0];
      SumAppend([], 1.0);
      SumAppend([] + [1.0], -1.0);
      SumAppend([] + [1.0] + [-1.0], -2.0);
    }
    assert ScanRest(s3, a, 3, 3, None) == ScanRest(s4, a, 4, 3, None) by {
      SumAppend(v3, -3.0);
      Forward(s3, s4, a, 3, 3, None);
    }
    assert ScanRest(s4, a, 4, 3, None) == ScanRest(s5, a, 5, 3, None) by {
      SumAppend(v3, -3.0);
      SumAppend(v4, -4.0);
      Forward(s4, s5, a, 4, 3, None);
    }
    ZeroMeanClose(a, v5);
  }

  /** The last step of ZeroMeanOvershoot: 5 closes the run of five values. */
  lemma ZeroMeanClose(a: seq<real>, v5: seq<real>)
    requires a == [1.0, -1.0, -2.0, -3.0, -4.0, 5.0] && v5 == [1.0, -1.0, -2.0, -3.0, -4.0]
    ensures ScanRest(ScanState(Some(-9.0 / 5.0), v5, 2, 0, [], false), a, 5, 3, None)
      == ScanState(None, [], 2, 0, [Run(2, 6, 5)], false)
  {
    FirstMinIndexUnique(v5, 4);
    Forward(ScanState(Some(-9.0 / 5.0), v5, 2, 0, [], false),
            ScanState(None, [], 2, 0, [Run(2, 6, 5)], false), a, 5, 3, None);
  }
}
