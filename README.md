# trendet: trend segmentation, modelled in Dafny

trendet labels up-trends and down-trends in a daily price series. It makes one pass over the values and keeps a run of values that lie below the run's running mean. When a value rises above that mean, the run closes. A run of more than `window_size` values is recorded as a trend. The trend reaches from where the run started to the first minimum of the run.

Up trends come from the same scan over the negated series. When both directions are wanted, each candidate is filtered against the candidates of the other direction. The kept trends are handed to a labelling `zip` with the labels, which are the caller's or the letters A, B, C, and so on. The `zip` writes the first min(#trends, #labels) of them into the table's `Up Trend` and `Down Trend` label columns.

The older entry point in `trendet/__init__.py` does the same with three differences:
- it scans only the raw `Close` series;
- it stops after `trend_limit` trends;
- it writes a single `Trend` column.

Modules:

- `Common` (common.dfy): `Option`, `Result` and `Segment`. A `Segment` is a trend as a pair of index keys.
- `Scanner` (scanner.dfy): the scan loop.
  - `Step`, `ScanPrefix` and `ScanRest` specify it step by step over positions (`Run`).
  - `Locate` turns positions into keys. The lookup can fail, which is the source's `IndexError`.
  - `ScanSegments` is the imperative loop. It is proved equal to `Locate(Runs(...))`.
  - The invariants of the scan are proved and preserved here. So are the effect of the early `break` and five worked examples.
- `Resolver` (resolver.dfy): the overlap filter of 'both' mode. `Resolve` is the nested loop and `Survivors` is its specification.
- `Labeler` (labeler.dfy): letter labels, and the `zip`-and-slice loop. `LabelRows` writes that loop into a label column held as an `array`.
- `Validation` (validation.dfy): the argument checks of each entry point, in source order.
- `Identification` (identification.dfy): the frame, and the three entry points `identify_trends`, `identify_all_trends` and `identify_df_trends`. The frame is a class whose label columns are arrays updated in place.
- `Legacy` (legacy.dfy): the older `identify_trends`.

Conventions of the model:
- Index keys (dates) are integers counting days. A key difference is `(to - from).days`.
- Prices are exact `real`s.
- A label column holds `None` where pandas would hold NaN.

What the code does, where its docstrings say otherwise or say nothing:

- **Equal spans.** Take an up and a down candidate that overlap and span the same number of days. The code keeps neither: both comparisons are strict (`>` at `trendet/identification.py:181`, `<` at `:207`). The docstring (`trendet/identification.py:23`) says only that the longer trend is kept, and says nothing about ties. The model follows the code (`Resolver.EqualSpansDropBoth`).
- **The last opposite candidate decides.** In the filter, `flag` is overwritten on every inner iteration. Only the last candidate of the other direction decides, not the whole list (`Resolver.LastDecides`). Both filters read the other direction's unfiltered list.
- **trend_limit in `trendet/identification.py`.** It is validated, and checked against the number of labels. Its docstring promises at most trend_limit trends per direction (`trendet/identification.py:24`), but it never limits the scan. Only the older `trendet/__init__.py` stops early, at lines 120-121.
- **A value equal to the running mean in mid-run.** A value that equals the current mean of an open run falls into the re-arming branch. That branch moves `from_trend` to the current position but keeps appending to `values`. A trend closed later then computes its end as the new `from_trend` plus the minimum's offset within the old `values`. That end can lie past where the run closed, and even past the last row, where the lookup raises `IndexError`. `Scanner.TieOvershoot` shows this on `[4, 2, 3, 1, 5]` with window 3. The clean properties — every trend coming from a run of more than window_size values that starts at its largest value, ending at the run's first minimum, the lookup never failing — are proved for every series without a mid-run tie or zero mean (`Scanner.TieFreeTrends`).
- **A labelled trend can be shorter than the window.** The length test at `trendet/identification.py:147` is on the run (`values`), but the trend ends at the run's first minimum, which can come early. On `[10, 5, 6, 6.5, 20]` with window 3 a run of four values closes and the trend covers only the first two rows (`Scanner.ShortTrend`).
- **A running mean of exactly zero** is falsy in Python (`if limit and ...`), so the next value falls into the re-arming branch (`Scanner.Armed`). With `values` empty that is the same as an unset limit. In mid-run, `values` is kept and `from_trend` moves to the current position exactly as for a tie, with the same overshoot: `Scanner.ZeroMeanOvershoot` shows this on `[1, -1, -2, -3, -4, 5]` with window 3, where the lookup raises `IndexError` at position 6.
- **More than 26 trends with letter labels.** The newer entry points generate `ascii_uppercase[:len(trends)]`, so at most 26 letters. The `zip` then leaves trends after the 26th unlabelled (`Identification.AutoLabelledRow`). The older entry point generates `trend_limit` letters (at most 26).

## Model

| member | source | states |
|---|---|---|
| Scanner.Armed | trendet/identification.py:143 | definition: Python truthiness of `limit`, which is set and non-zero |
| Scanner.Sum | trendet/identification.py:145 | definition: the exact sum of the values, used by `Mean` |
| Scanner.Mean | trendet/identification.py:145 | definition: `statistics.mean(values)` as an exact real, the `limit` every branch of the loop compares against (also at line 169, and `trendet/__init__.py:102`, :129) |
| Scanner.Start | trendet/identification.py:137-140 | definition: the loop's set-up, `limit = None`, `values = list()`, `trends = list()` (also `trendet/__init__.py:94-97`); `from_trend` is first read only after the re-arming branch has set it, so its initial 0 never reaches a trend |
| Scanner.Step | trendet/identification.py:143-169 | definition: one loop iteration (for the older loop with its `break`, `trendet/__init__.py:100-129`); extend below a truthy mean, close above it, re-arm otherwise |
| Scanner.Extend | trendet/identification.py:143-145 | definition: append the value to `values` and set `limit` to their mean |
| Scanner.Close | trendet/identification.py:146-164 | definition: record `Run(from_trend, from_trend + first-minimum offset, index)` when more than window_size values were collected, then clear `limit` and `values`; with a cap, stop once cap runs are recorded (`trendet/__init__.py:118-121`) |
| Scanner.Rearm | trendet/identification.py:165-169 | definition: `from_trend` becomes the current position, the value is appended, `limit` becomes the mean |
| Scanner.ScanPrefix | trendet/identification.py:142-169 | definition: the state after the first n iterations |
| Scanner.ScanRest | trendet/identification.py:142-169 | definition: the final state when the iterations from position i on are still to run |
| Scanner.Runs | trendet/identification.py:136-171 | definition: the runs recorded by the whole loop |
| Scanner.Locate | trendet/identification.py:156-159 | definition: `df.index.tolist()[from_trend]` and `[to_trend]` for each run in order; the first position past the last row is the IndexError |
| Scanner.AllBelow | trendet/identification.py:143-145 | definition: every element lies strictly below the bound |
| Scanner.WellFormedRun | trendet/identification.py:146-154 | definition: a clean trend (see Scanner.CloseWellFormed) |
| Scanner.NoMidRunTie | trendet/identification.py:165-169 | definition: no reachable state has `from_trend` moved away from the start of `values` by the re-arming branch |
| Resolver.Span | trendet/identification.py:181 | definition: `(to - from).days`, with keys counted in days |
| Resolver.EndpointInside | trendet/identification.py:180 | definition: `o.from < c.from < o.to or o.from < c.to < o.to` (mirrored at line 206) |
| Resolver.Survives | trendet/identification.py:180-186 | definition: the inner loop body's `flag`: true unless an endpoint of c lies inside o and c does not span strictly more days (mirrored at lines 206-212) |
| Resolver.KeepAgainst | trendet/identification.py:177-188 | definition: `flag` after the inner loop: true with no opposite candidates, else set by the last one |
| Resolver.Survivors | trendet/identification.py:174-189 | definition: the candidates whose `flag` ends true, in order (mirrored at lines 200-215) |
| Labeler.Covers | trendet/identification.py:197 | definition: the rows of `df[from:to]`, i.e. keys in the inclusive range |
| Labeler.Paint | trendet/identification.py:197-198 | definition: one trend's label assigned to every row its range covers, other rows unchanged |
| Labeler.Painted | trendet/identification.py:196-198 | definition: the column after the first m pairs of the `zip` |
| Labeler.Labelled | trendet/identification.py:196-198 | definition: the column after the whole `zip(trends, labels)`, which stops at the shorter list |
| Identification.Negate | trendet/identification.py:118 | definition: `np.negative`, element-wise exact negation |
| Identification.Candidates | trendet/identification.py:136-171 | definition: one direction's trends as keys, or the IndexError |
| Identification.Directions | trendet/identification.py:116-132 | definition: the up scan (of the negated series) first, then the down scan, as `identify` selects; in 'both' mode each list filtered against the other's unfiltered list (lines 173-215) |
| Identification.LabelsFor | trendet/identification.py:191-194 | definition: the caller's labels, or `ascii_uppercase[:len(trends)]` (also lines 217-220) |
| Identification.Apply | trendet/identification.py:196-198 | definition: a label column after one direction's labelling loop, unchanged for a direction not identified |
| Legacy.LegacyLabels | trendet/__init__.py:81-82 | definition: the caller's labels, or `ascii_uppercase[:trend_limit]` |
| Legacy.LegacyTrends | trendet/__init__.py:94-129 | definition: the keyed trends of the scan stopped at trend_limit, or the IndexError |
| Scanner.FirstMinIndex | trendet/identification.py:148-152 | the position returned holds the minimum of the run, and every earlier value is strictly greater (the first occurrence) |
| Scanner.FirstMinIndexUnique | trendet/identification.py:148-152 | any position with those two properties is the one FirstMinIndex returns |
| Scanner.FirstMinimum | trendet/identification.py:148-152 | the `min(values)` loop followed by the search loop returns the first position of the minimum |
| Scanner.TrendEnd | trendet/identification.py:148-154 | `to_trend` is `from_trend` plus the offset of the first minimum of `values` |
| Scanner.ScanRestFromPrefix | trendet/identification.py:142-169 | running the rest of the scan from the state after the first i values gives the state after all values |
| Scanner.LocateSpec | trendet/identification.py:156-159 | the key lookup succeeds iff every recorded start and end position is a row; it then yields one segment per run, made of the keys at those positions |
| Scanner.LocateAppend | trendet/identification.py:154-161 | looking up one more run fails at its start or end position if that lies past the rows, and otherwise appends that run's segment |
| Scanner.LocateKeepsError | trendet/identification.py:156-161 | once a lookup has failed, runs recorded later do not change the result |
| Scanner.StepRuns | trendet/identification.py:143-169 | one loop iteration appends at most one run: exactly one when a run of more than window_size values is closed by a value above the mean |
| Scanner.StoppedIsFinal | trendet/__init__.py:120-121 | after the early `break`, the rest of the series changes nothing |
| Scanner.ErrorIsFinal | trendet/identification.py:156-159 | an `IndexError` decides the outcome of the whole scan |
| Scanner.AdvanceExtend | trendet/identification.py:143-145 | a value below a truthy mean is appended, and the mean is recomputed |
| Scanner.AdvanceReset | trendet/identification.py:146-164 | a value above the mean closes a run of at most window_size values without recording it |
| Scanner.AdvanceRecord | trendet/identification.py:146-164 | closing a longer run records the run from `from_trend` to its first minimum, then clears `limit` and `values` |
| Scanner.AdvanceStop | trendet/__init__.py:104-121 | the older scan stops once trend_limit runs are recorded, and its result is the runs so far |
| Scanner.AdvanceRearm | trendet/identification.py:165-169 | otherwise (no mean, a mean of zero, or a value equal to the mean) `from_trend` moves to the current position, the value is appended and the mean is recomputed |
| Scanner.AdvanceFail | trendet/identification.py:154-158 | a lookup that fails while a run is recorded is the outcome of the whole scan |
| Scanner.ScanSegments | trendet/identification.py:136-171 | the loop returns exactly the keyed trends of the specified scan, or its `IndexError` (cap None is the newer entry points; cap Some(trend_limit) is the older one, `trendet/__init__.py:94-129`) |
| Scanner.StepKeepsInv | trendet/identification.py:142-169 | one iteration preserves the scan invariant: recorded runs are ordered and lie before the open run; `values` is the stretch of the series since the open run began and `limit` is its mean; an open run not re-armed by a tie is strictly declining against its running mean |
| Scanner.ExtendKeepsInv | trendet/identification.py:143-145 | the extending branch preserves the scan invariant |
| Scanner.CloseKeepsInv | trendet/identification.py:146-164 | the closing branch preserves the scan invariant |
| Scanner.RearmKeepsInv | trendet/identification.py:165-169 | the re-arming branch preserves the scan invariant |
| Scanner.RearmTracked | trendet/identification.py:165-169 | after re-arming, `values` is still the stretch of the series since the open run began (a fresh run starts at the current position) and `limit` is its mean |
| Scanner.RearmPlaced | trendet/identification.py:165-169 | re-arming records nothing, and the recorded runs still lie before the open run |
| Scanner.RearmClean | trendet/identification.py:165-169 | a run that re-arming leaves clean is a fresh single-value run, hence declining |
| Scanner.ScanPrefixInv | trendet/identification.py:142-169 | the invariant holds after every prefix of the series |
| Scanner.RunsOrdered | trendet/identification.py:142-169 | every recorded run starts before the value that closed it, its end is not before its start, and each run starts after the value that closed the previous one |
| Scanner.SegmentsOrdered | trendet/identification.py:156-161 | on an ascending index, a successful lookup gives trends with from <= to and strictly ascending start dates |
| Scanner.StepTruncation | trendet/__init__.py:118-121 | one step of the capped scan tracks the uncapped scan until it stops, and then it holds exactly the first trend_limit runs |
| Scanner.ScanTruncation | trendet/__init__.py:99-129 | after every prefix, the capped scan is the uncapped one or its first trend_limit runs |
| Scanner.CapTruncates | trendet/__init__.py:118-121 | the early `break` yields the first trend_limit trends of the uncapped scan, or all of them when there are fewer |
| Scanner.CapBound | trendet/__init__.py:120-121 | the older scan records at most trend_limit trends |
| Scanner.DecliningBelowFirst | trendet/identification.py:143-145 | in a run kept by the extending branch every value after the first lies strictly below the first: each is below the mean of those before it, and that mean is at most the first |
| Scanner.AllBelowIff | trendet/identification.py:143-145 | `AllBelow(s, b)` holds iff every element of s is strictly below b |
| Scanner.CloseWellFormed | trendet/identification.py:146-154 | a run closed without a mid-run tie or zero mean has more than window_size values, every later value of the run lies strictly below its first value, and the trend ends at the run's first minimum, after its start and before the closing value |
| Scanner.StepWellFormed | trendet/identification.py:142-169 | without a mid-run tie or zero mean, every iteration keeps all recorded runs well formed |
| Scanner.TieFreeStep | trendet/identification.py:142-169 | an iteration from a state not re-armed by a tie or zero mean keeps every recorded run clean |
| Scanner.TieFreePrefix | trendet/identification.py:142-169 | without a mid-run tie or zero mean, every run recorded after any prefix is well formed |
| Scanner.TieFreeTrends | trendet/identification.py:142-169 | without a mid-run tie or zero mean (window >= 1), every trend comes from a run of more than window_size values whose first value is its largest, and ends at the run's first minimum before the value that closed it; each trend ends before the next starts; the lookup never fails |
| Scanner.WindowTooShort | trendet/identification.py:147 | a declining run of exactly window_size values is not a trend (strict `>`) |
| Scanner.ShortTrend | trendet/identification.py:142-169 | on `[10, 5, 6, 6.5, 20]` with window 3 a run of four values gives the trend from row 0 to row 1: the trend can cover fewer rows than the window |
| Scanner.WindowExceeded | trendet/identification.py:142-169 | window_size + 1 declining values, then a rise, give one trend from the first value to the minimum |
| Scanner.TieOvershoot | trendet/identification.py:143-169 | a mid-run tie moves `from_trend` without resetting `values`, so the trend end overshoots and the lookup fails with an `IndexError` |
| Scanner.ZeroMeanOvershoot | trendet/identification.py:143-169 | a running mean of exactly zero in mid-run is falsy, so the next value re-arms like a tie: on `[1, -1, -2, -3, -4, 5]` with window 3 the trend is Run(2, 6, 5) and the lookup fails with an `IndexError` at position 6 |
| Resolver.Resolve | trendet/identification.py:176-189 | the nested filter loop, for either direction (also lines 202-215), keeps exactly `Survivors` of the candidates |
| Resolver.SurvivorPositions | trendet/identification.py:176-189 | the survivors are the candidates that pass against the last opposite candidate, in their original order and at strictly increasing positions; a candidate is kept iff it passes |
| Resolver.SurvivorsMembership | trendet/identification.py:176-189 | a segment is kept iff it is a candidate that passes against the last opposite candidate |
| Resolver.LastDecides | trendet/identification.py:179-187 | only the last opposite candidate decides, because `flag` is overwritten on every inner iteration |
| Resolver.SurvivorsShrink | trendet/identification.py:176-189 | the filter never adds a trend, and with no opposite candidates it keeps all of them |
| Resolver.EqualSpansDropBoth | trendet/identification.py:180-184 | overlapping up and down trends of equal span both fail (strict comparison on both sides, lines 206-210) |
| Resolver.MutualOverlapKeepsAtMostOne | trendet/identification.py:180-184 | of two trends that overlap each other, at most one passes against the other |
| Resolver.SharedEndpointsNoOverlap | trendet/identification.py:180 | trends that only touch at an endpoint, or coincide, do not overlap (the containment test is strict) |
| Labeler.AutoLabels | trendet/identification.py:192 | `ascii_uppercase[:n]`: min(n, 26) labels, the i-th being the letter with code 65 + i |
| Labeler.LastCovering | trendet/identification.py:196-198 | the last of the first m trends whose inclusive key range holds the key, or none |
| Labeler.PaintedRow | trendet/identification.py:196-198 | after the first m pairs, each row holds the label of the last paired trend that covers its key, or its old value |
| Labeler.LabelledRow | trendet/identification.py:196-198 | the `zip` pairs only as many trends as there are labels; each row holds the label of the last covering paired trend, or its old value |
| Labeler.LabelRows | trendet/identification.py:196-198 | the slice-and-assign loops leave the column equal to `Labelled` of its old contents |
| Validation.ParseIdentify | trendet/identification.py:102-103 | identify is accepted iff it is 'both', 'up' or 'down', each naming its mode |
| Validation.ValidateTrends | trendet/identification.py:83-103 | success iff window_size >= 3, trend_limit >= 1, the label count equals trend_limit when labels are given, and identify is valid; the first failing check is the error |
| Validation.ValidateAll | trendet/identification.py:319-326 | success iff window_size >= 3 and identify is valid; the window is checked first |
| Validation.ValidateDf | trendet/identification.py:503-520 | an unknown column is rejected before anything else; otherwise the same checks as identify_all_trends |
| Validation.ValidateLegacy | trendet/__init__.py:65-79 | success iff window_size >= 3, trend_limit >= 1 and the label count matches; errors in that order; identify is not a parameter |
| Validation.StricterThanAll | trendet/identification.py:83-103 | identify_trends accepts exactly what identify_all_trends and the trend_limit and label checks accept together, in the same mode |
| Identification.Frame.constructor | trendet/identification.py:196-198 | a table with the given strictly ascending index keys and columns, and label columns of its length with nothing written |
| Identification.NegateInvolution | trendet/identification.py:116-119 | `np.negative` keeps the length and undoes itself |
| Identification.ScanDirection | trendet/identification.py:136-171 | one direction's scan returns that direction's candidate trends, or the lookup's IndexError |
| Identification.Pipeline | trendet/identification.py:116-252 | up scan first, then down scan; an IndexError leaves both columns unchanged; otherwise each wanted column receives its trends (filtered in 'both' mode) with its labels, and the other column is untouched |
| Identification.IdentifyTrends | trendet/identification.py:17-252 | a failed argument check is returned with no column written; otherwise as Pipeline on the `Close` column, with the caller's labels used for both directions |
| Identification.IdentifyAllTrends | trendet/identification.py:255-462 | as identify_trends without trend_limit and labels; labels are always letters |
| Identification.IdentifyDfTrends | trendet/identification.py:465-648 | an unknown column is an error with nothing written; otherwise as identify_all_trends on the named column |
| Identification.NegationSwapsDirections | trendet/identification.py:116-132 | scanning the negated series swaps up and down, in one-direction mode and in 'both' mode with the filters |
| Identification.DirectionsKeep | trendet/identification.py:126-224 | in 'both' mode a trend is kept for a direction, and handed to the labelling `zip`, iff it is a candidate that passes against the other direction's last candidate; in 'up' or 'down' mode all candidates of that direction are handed to the `zip` and the other column gets none; which of them the `zip` writes is `Labeler.LabelledRow` and `Identification.AutoLabelledRow` |
| Identification.AutoLabelledRow | trendet/identification.py:191-198 | with letter labels, a row gets the letter of the last covering trend among the first 26 trends, or keeps its value |
| Legacy.LegacyIdentifyTrends | trendet/__init__.py:62-135 | a failed argument check is returned with nothing written; an IndexError leaves the `Trend` column unchanged; otherwise the column is labelled with the capped scan's trends and the caller's labels or trend_limit letters |
| Legacy.LegacyAllLabelled | trendet/__init__.py:81-82 | at most trend_limit trends, and every one of them gets a label when labels are given or trend_limit <= 26 |
| Legacy.LegacyIsTruncation | trendet/__init__.py:99-129 | for every series, the older entry point's result is the lookup of the first trend_limit runs of the uncapped scan the newer entry points run; when the newer lookup succeeds, the older succeeds too with the first trend_limit trends |

## Left out

- Fetching the history from investpy (`trendet/identification.py:106-112`, `:328-334`; `trendet/__init__.py:84-92`) is left out. It is network I/O, so each entry point takes the fetched table as a Frame with a `Close` column. The `RuntimeError` it wraps is not modelled.
- Date checks are left out: `strptime` parsing of from_date and to_date, and the check that the start precedes the end. So are the stock, country and equity string checks. None of these reach the core, and dates live only in the fetched table.
- The `isinstance` type checks are left out. Parameters have Dafny types, so a wrong type cannot be passed. Out also: `df is None`, `column is None`, the `labels is not a list` check, and the column dtype check (`trendet/identification.py:505-508`), because a column here is always a sequence of reals.
- Prices are exact reals, not IEEE doubles. `statistics.mean` computes exactly and rounds once, so where rounding decides between `<`, `==` and `>` the model can differ. NaN prices are not modelled. `np.negative` is exact negation.
- Pandas label slicing `df[from:to]` is modelled as the rows whose key lies in the inclusive range. On an ascending, duplicate-free date index (a DatetimeIndex) the two agree, and a Frame requires strictly ascending keys. A non-monotonic index is not modelled.
- identify_df_trends on a non-date index is not modelled. On an integer index, `df[from:to]` (`trendet/identification.py:602`, `:625`, `:635`, `:645`) slices by position and leaves the row at `to` unlabelled. In 'both' mode, `.days` (`:589`, `:612`) raises `AttributeError` on an integer difference whenever two trends overlap.
- `.days` of a Timedelta is modelled by integer keys counting days, so a time of day inside a key is not modelled.
- A label column that was never created is not told apart from one with every cell NaN: both are all `None` in a Frame.
- The two other copies of the scan loop (`trendet/identification.py:364-391` and `:550-577`) and of the filters (`:398-411`, `:421-434`, `:584-597`, `:607-620`) are the same code. `Scanner.ScanSegments` and `Resolver.Resolve` model them all.
- Scanner.TieFreeTrends: its stronger trend shape holds only under `NoMidRunTie`. For every series the model proves the weaker `Scanner.RunsOrdered` and the exact lookup outcome (`Scanner.LocateSpec`), because a mid-run tie or zero mean really does break the stronger shape (`Scanner.TieOvershoot`, `Scanner.ZeroMeanOvershoot`).
- The test suite and `setup.py` are not part of this model.
