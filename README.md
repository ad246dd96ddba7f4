# fio JSON interpreter, modelled in Dafny

`tools/fioJsonInterpreter.py` reads the output of the fio storage benchmark
in its JSON format. Such a file may also hold the ordinary "normal" status
text. The class `FioJsonFile` converts the data to a terse-like,
`;`-separated record per job, or to a simulated normal report, and it
computes latency, IOPS and bandwidth figures across all jobs. This project
models that class's core on an already parsed JSON tree. In the tree,
dictionaries are ordered sequences of key/value pairs, as Python's
`OrderedDict` keeps them.

The modules, one per file:

- `Strings`: the Python string operations the code relies on. These are
  `in`, `split` and `join` on one character, `rstrip(chars)` and ASCII
  `lower()`.
- `Json`: the value tree and the errors Python would raise. It also gives
  ordered-dict lookup and assignment (`d[k] = v` keeps an existing key in
  place and appends a new one), numbers as Python arithmetic sees them
  (booleans are ints), `/ 1000.0` and iteration.
- `Splitter`: `_splitJsonNormal` is a loop proved against a fold over the
  lines. Lemmas cover how lines are routed and when the status flag is set.
- `PathAccess`: `_getObjValue` walks a `/`-separated path. Its unit
  heuristic keeps Python's precedence: `"_ns" in path or ("lat" in path and
  isinstance(out, int))`.
- `Percentiles`: `_getDirectionPercentiles` expands a percentile table into
  fields. The expansion takes a labelling: the label as written
  (`rstrip('.0')`), which the terse records use as the program does, or the
  label evidently meant (see Findings).
- `Metrics`: `_getMetricAndIOs` and `_getMetricResultsList` collect one
  `(value, total_ios)` pair per job and direction.
- `Aggregates`: `_avgMetric` and `_sumMetric` are accumulator loops proved
  against the weighted mean and the plain sum. The properties `avgClat`,
  `avgLat`, `iops` and `mibps` are modelled here.
- `Terse`: `terseList` is modelled with its column tables and the nested
  loops that fill each ordered record in place. `terse` is the loop that
  writes the text.
- `Chunks`: `_genChunks`.
- `Issued`: the issued-IO counters of `_normalJobStats` are three arrays of
  four slots updated in place. The line `_normalIssued` prints is also here.
- `LatBuckets`: the filtering loops of `_normalLatBuckets`.
- `Normal`: `normalized()` dispatches on `jobs`, then `client_stats`, then
  raises an error. `_normalJobStats` is modelled as the data it derives from
  one job.

Where the code loops and updates variables, the model is a `method` with a
`for` or `while` loop. Each such method's `ensures` ties its result to a
specification function. The lemmas state what the source promises about
those functions. Where the code is an expression over the tree, the model is
a function.

The model follows the code where the code and its description differ. The
splitter's failure ("contains no json data") depends on whether the JSON
buffer is empty. A file without a `{` line but with a lone `}` line still
puts that line in the JSON buffer, so the splitter does not fail on it. It is
the parser, which this model does not cover, that would then reject the
text. `Splitter.NoJsonIffNoBraceLine` states this exactly.

## Model

| member | source | states |
|---|---|---|
| Strings.ContainsIffOccurs | tools/fioJsonInterpreter.py:385 | `sub in s` holds exactly when `sub` occurs at some position of `s` |
| Strings.Split | tools/fioJsonInterpreter.py:381 | `str.split` on one character never returns an empty list |
| Strings.JoinSplit | tools/fioJsonInterpreter.py:381 | joining the pieces of a split with the separator gives back the string |
| Strings.SplitJoin | tools/fioJsonInterpreter.py:371-374 | splitting a `;`-join gives back the pieces when no piece holds the separator |
| Strings.RStrip | tools/fioJsonInterpreter.py:393 | `rstrip(chars)` returns a prefix whose last character is not in `chars`; every removed character is in `chars` |
| Strings.RStripConcat | tools/fioJsonInterpreter.py:393 | stripping `a + b` strips inside `b` unless all of `b` goes |
| Strings.Lower | tools/fioJsonInterpreter.py:456 | `lower()` keeps the length and lowers each character |
| Json.Find | tools/fioJsonInterpreter.py:383 | dictionary lookup finds a value exactly when the key is present, and the value is paired with that key |
| Json.PutKeys | tools/fioJsonInterpreter.py:336 | `dOut[hdr] = v` adds a key only when it was missing, and only at the end |
| Json.PutFind | tools/fioJsonInterpreter.py:336 | after `dOut[hdr] = v`, `hdr` reads `v` and every other key reads as before |
| Json.PutNew | tools/fioJsonInterpreter.py:336 | assigning a new key appends the pair |
| Json.PutKeepsPrefix | tools/fioJsonInterpreter.py:336 | assigning a key absent from the first entries leaves them in place |
| Json.PutAllKeepsPrefix | tools/fioJsonInterpreter.py:335-358 | a run of assignments to keys absent from the first entries leaves them in place |
| Json.PutAllFresh | tools/fioJsonInterpreter.py:335-358 | assignments to distinct new keys append the pairs in order |
| Json.PutAllFirstKey | tools/fioJsonInterpreter.py:334-358 | no assignment moves the record's first key |
| Json.PutAllFindOther | tools/fioJsonInterpreter.py:335-358 | assignments to other keys leave a key's value alone |
| Json.PutAllFind | tools/fioJsonInterpreter.py:335-358 | after assignments to distinct keys each key reads its assigned value |
| Json.PutAllHasKeys | tools/fioJsonInterpreter.py:335-358 | every earlier and every assigned key is a key afterwards |
| Json.PutAllConcat | tools/fioJsonInterpreter.py:335-358 | two runs of assignments are one run of both, in order |
| Json.PutAllKnownKeys | tools/fioJsonInterpreter.py:356-358 | assignments only to existing keys leave the key sequence unchanged |
| Json.PutAllNewKeys | tools/fioJsonInterpreter.py:335-354 | assignments to distinct new keys append those keys in order |
| Json.KeysConcat | tools/fioJsonInterpreter.py:371 | the keys of a concatenation are the keys of the parts |
| Json.Get | tools/fioJsonInterpreter.py:383 | `obj[key]` succeeds exactly when `obj` is a dictionary holding `key`; otherwise KeyError, or TypeError on a non-dictionary |
| Json.Num | tools/fioJsonInterpreter.py:385 | a value is numeric exactly when it is an int, a float or a bool |
| Json.Number | tools/fioJsonInterpreter.py:555 | arithmetic and comparison take a number's value and raise TypeError on anything else |
| Json.DivThousand | tools/fioJsonInterpreter.py:386 | `v / 1000.0` gives a float that is a thousandth of `v`, and succeeds exactly on numbers |
| Json.Iterate | tools/fioJsonInterpreter.py:333 | `for x in v` yields a list's items, a dictionary's keys in order and a string's characters, and raises TypeError on anything else |
| Splitter.SplitJsonNormal | tools/fioJsonInterpreter.py:397-426 | the loop returns both buffers and the flag of the line fold, and fails with "no json data" exactly when the JSON buffer is empty |
| Splitter.RunPicks | tools/fioJsonInterpreter.py:408-419 | after any number of lines each buffer holds exactly the lines routed to it, in input order |
| Splitter.MergeFilter | tools/fioJsonInterpreter.py:407-419 | for any routing, interleaving the lines routed each way gives back the lines |
| Splitter.PickFilter | tools/fioJsonInterpreter.py:408-419 | the lines a buffer receives are the input filtered by the splitter's routing |
| Splitter.SplitPartition | tools/fioJsonInterpreter.py:407-419 | every line lands in exactly one buffer, and interleaving the buffers along the routing gives back the input |
| Splitter.PickSizes | tools/fioJsonInterpreter.py:407-419 | the two buffers together hold as many lines as were read |
| Splitter.BracesGoToJson | tools/fioJsonInterpreter.py:409-414 | `{` and `}` lines always go to the JSON buffer |
| Splitter.ActiveIffOpenBlock | tools/fioJsonInterpreter.py:409-414 | the JSON buffer is current exactly inside a `{` … `}` block |
| Splitter.StatusFlagIff | tools/fioJsonInterpreter.py:403-417 | the flag is set exactly when some non-brace line outside every block contains `: (groupid=` |
| Splitter.NoJsonIffNoBraceLine | tools/fioJsonInterpreter.py:408-422 | for non-empty lines the splitter fails exactly when no line is a bare `{` or `}` line |
| PathAccess.GetObjValue | tools/fioJsonInterpreter.py:379-388 | a failed walk is the accessor's error, and a success implies the walk succeeded |
| PathAccess.WalkSnoc | tools/fioJsonInterpreter.py:382-383 | one more path segment is one more lookup |
| PathAccess.WalkOkIff | tools/fioJsonInterpreter.py:381-383 | a walk succeeds exactly when each prefix reaches a dictionary holding the next segment |
| PathAccess.WalkErrors | tools/fioJsonInterpreter.py:382-383 | a failed walk raises KeyError for one of the segments, or TypeError |
| PathAccess.PathOfSegments | tools/fioJsonInterpreter.py:379-388 | a path joined from segments walks those segments, then scales by the heuristic |
| PathAccess.UnitHeuristic | tools/fioJsonInterpreter.py:385-386 | a `_ns` path always divides by 1000; a `lat` path without `_ns` divides ints only; any other path is returned unscaled |
| PathAccess.ClatMeanExample | tools/fioJsonInterpreter.py:379-388 | `clat_ns/mean` holding 306308 reads as 306.308 |
| PathAccess.BwMeanExample | tools/fioJsonInterpreter.py:379-388 | `bw_mean` is returned unscaled |
| Percentiles.AsWrittenLabel | tools/fioJsonInterpreter.py:393 | `pct.rstrip('.0')` drops the whole trailing run of `.` and `0` characters |
| Percentiles.AsWrittenLabelExamples | tools/fioJsonInterpreter.py:393 | as written, "1.000000" and "10.000000" both become "1"; "99.990000" becomes "99.99" |
| Percentiles.PercentileCollision | tools/fioJsonInterpreter.py:392-394 | as written, the 1st and the 10th percentile write the same field `_1`, so the record keeps one field, holding the 10th's value, for two entries |
| Percentiles.DecadeCollision | tools/fioJsonInterpreter.py:393 | as written, "c0.000…" and "c.000…" get the same label "c" for every digit c from 1 to 9, so each decade from 10 to 90 overwrites the field of its leading digit |
| Percentiles.PercentileFields | tools/fioJsonInterpreter.py:392-394 | one field per entry, in entry order, named `metric_` and the entry's label under the given labelling, holding the value divided by 1000; fails with TypeError exactly when a value is not a number |
| Percentiles.FieldsSnoc | tools/fioJsonInterpreter.py:392-394 | one more entry adds one field, or fails on a non-number |
| Percentiles.AddPercentiles | tools/fioJsonInterpreter.py:391-394 | the loop assigns the fields named with the as-written label `rstrip('.0')` to the record, one after another, so a repeated label overwrites its field in place; a table that is not a dictionary raises TypeError |
| Percentiles.AddedFieldsInOrder | tools/fioJsonInterpreter.py:391-394 | under either labelling, when the entries' labels are distinct and new to the record, one key is appended per entry, in entry order; as written this premise fails for "1.000000" with "10.000000" (see `PercentileCollision`) |
| Percentiles.FieldNameInjective | tools/fioJsonInterpreter.py:394 | equal field names imply equal labels, under either labelling |
| Percentiles.LabelExamples | tools/fioJsonInterpreter.py:393 | with the intended label, "1.000000", "10.000000" and "99.990000" become "1", "10" and "99.99" |
| Percentiles.WholeLabel | tools/fioJsonInterpreter.py:393 | a label with an all-zero fraction becomes its integer part |
| Percentiles.LabelDecimal | tools/fioJsonInterpreter.py:393 | the intended label keeps the integer part whole and strips only the fraction's trailing zeros |
| Percentiles.LabelsDistinct | tools/fioJsonInterpreter.py:393 | intended labels of percentiles with different integer parts never collide |
| Percentiles.TwoFields | tools/fioJsonInterpreter.py:391-394 | under either labelling, two entries with distinct labels fill two fields, in entry order |
| Percentiles.PercentilesKept | tools/fioJsonInterpreter.py:392-394 | the corrected expansion of the 1st and 10th percentiles fills two fields, `_1` then `_10` |
| Metrics.MetricAndIOs | tools/fioJsonInterpreter.py:429-438 | the result is `(dirDict[metric][submetric], dirDict['total_ios'])`, or without the second index when the submetric is falsy; it fails exactly when a lookup fails |
| Metrics.DirectionSample | tools/fioJsonInterpreter.py:457-464 | a direction adds its pair only when the job has it and the filter selects it |
| Metrics.MetricResultsList | tools/fioJsonInterpreter.py:441-465 | the loop over jobs returns the collection: `jobs`, else `client_stats`, job by job |
| Metrics.AllJobsErr | tools/fioJsonInterpreter.py:455-464 | a failing job ends the collection with its error |
| Metrics.AllJobsAppend | tools/fioJsonInterpreter.py:455-464 | the jobs of a concatenated list contribute their pairs in list order |
| Metrics.FourSteps | tools/fioJsonInterpreter.py:457-464 | per job the pairs come from mixed, read, write, trim, in that order |
| Metrics.AllClientsSkipped | tools/fioJsonInterpreter.py:456 | a job named "all clients" in any letter case contributes nothing |
| Metrics.DirsSampleCount | tools/fioJsonInterpreter.py:457-464 | any other job contributes one pair per present direction that the filter selects |
| Metrics.FilterKeepsDirection | tools/fioJsonInterpreter.py:457-464 | with the filter `d`, only direction `d` is looked at |
| Metrics.NoJobsNothingCollected | tools/fioJsonInterpreter.py:450-453 | without `jobs` and `client_stats` nothing is collected |
| Aggregates.SumValues | tools/fioJsonInterpreter.py:489-491 | the sum succeeds exactly when every value is numeric, and otherwise raises TypeError |
| Aggregates.SumValuesSplit | tools/fioJsonInterpreter.py:489-491 | the sum of a concatenation is the sum of the sums |
| Aggregates.Weighed | tools/fioJsonInterpreter.py:475-477 | the pairs are weighable exactly when every value and every IO count is numeric |
| Aggregates.WeighedPointwise | tools/fioJsonInterpreter.py:475-477 | the weighed pairs are the pairs as numbers, one for one |
| Aggregates.Mean | tools/fioJsonInterpreter.py:473-481 | the mean is defined exactly when the pairs are weighable, and otherwise raises TypeError |
| Aggregates.MeanOfTotals | tools/fioJsonInterpreter.py:473-481 | the mean is Σ(value·ios)/Σ(ios), or 0.0 when Σ(ios) is not positive |
| Aggregates.MeanWithinBounds | tools/fioJsonInterpreter.py:473-481 | with non-negative IOs, some of them positive, the mean lies between the smallest and the largest value |
| Aggregates.ZeroIosMeanZero | tools/fioJsonInterpreter.py:478-480 | when every pair reports zero IOs the mean is 0.0, not an error |
| Aggregates.MeanExample | tools/fioJsonInterpreter.py:473-481 | means of 100 over 10 IOs and 200 over 30 IOs weigh to 175 |
| Aggregates.SumExample | tools/fioJsonInterpreter.py:489-491 | IOPS of 1000, 2000 and 500 sum to 3500 |
| Aggregates.WeightedMean | tools/fioJsonInterpreter.py:473-481 | the accumulator loop computes the weighted mean, or fails as it does |
| Aggregates.AvgMetric | tools/fioJsonInterpreter.py:468-481 | `_avgMetric` is the weighted mean of the `mean` submetric over the collected pairs |
| Aggregates.SumResults | tools/fioJsonInterpreter.py:489-492 | the accumulator loop computes the plain sum, or fails as it does |
| Aggregates.SumMetric | tools/fioJsonInterpreter.py:484-492 | `_sumMetric` as written sums the pairs collected with the filter in the submetric position |
| Aggregates.SumMetricFiltered | tools/fioJsonInterpreter.py:484-492 | the corrected `_sumMetric` sums the pairs of the filtered directions |
| Aggregates.UnfilteredSumsAgree | tools/fioJsonInterpreter.py:488 | without a filter the as-written and the corrected sums agree, so `iops` and `mibps` are unaffected |
| Aggregates.SumFilterMisplaced | tools/fioJsonInterpreter.py:488 | for a read-only job and filter "read", the sum as written raises TypeError while the intended sum is the job's read IOPS |
| Aggregates.AsWrittenReadFilter | tools/fioJsonInterpreter.py:435 | with the filter used as submetric, the read direction's `iops` number is indexed and raises TypeError |
| Aggregates.IntendedReadFilter | tools/fioJsonInterpreter.py:457-464 | with the filter in the direction position only the read pair is collected |
| Aggregates.JobDirectionSplit | tools/fioJsonInterpreter.py:457-464 | one job's unfiltered total is the sum of its four per-direction totals |
| Aggregates.JobsDirectionSplit | tools/fioJsonInterpreter.py:455-464 | the same holds over a whole list of jobs |
| Aggregates.FilteredSumPartition | tools/fioJsonInterpreter.py:484-492 | with the filter applied as intended, the total over all directions is the sum of the mixed, read, write and trim totals |
| Aggregates.Scale | tools/fioJsonInterpreter.py:149 | dividing by a unit factor keeps errors and gives a value that times the factor is the original |
| Aggregates.AvgMillis | tools/fioJsonInterpreter.py:144-157 | `avgClat` and `avgLat` are the weighted mean of the `clat_ns` (resp. `lat_ns`) means over all jobs, in milliseconds, or the error raised collecting them |
| Aggregates.Iops | tools/fioJsonInterpreter.py:160-165 | `iops` is `_sumMetric('iops')` as written, which equals the corrected unfiltered sum of `iops` |
| Aggregates.MiBps | tools/fioJsonInterpreter.py:168-173 | `mibps` is `_sumMetric('bw_bytes')` as written, divided by 1048576, which equals the corrected unfiltered sum so divided |
| Chunks.Chunks | tools/fioJsonInterpreter.py:607-612 | `_genChunks` raises ValueError exactly for `n == 0` and yields nothing for a negative `n` |
| Chunks.ChunksFromFlatten | tools/fioJsonInterpreter.py:611-612 | the slices from `idx` on, put back together, are the rest of the list |
| Chunks.ChunksFromCount | tools/fioJsonInterpreter.py:611-612 | there are `(len - idx) / n` slices, rounded up |
| Chunks.ChunksFromSizes | tools/fioJsonInterpreter.py:611-612 | every slice has `n` elements except the last, which has 1 to `n` |
| Chunks.ChunksPartition | tools/fioJsonInterpreter.py:607-612 | for positive `n` the chunks flatten back to the list, number `len / n` rounded up, and are all full but the last |
| Chunks.ChunksOfThree | tools/fioJsonInterpreter.py:601 | seven entries in chunks of three give two full chunks and one of one |
| Issued.Slot | tools/fioJsonInterpreter.py:514-515 | the direction at position `idx` counts in slot `idx - 1`, except position 0, which keeps slot 0 |
| Issued.Contribution | tools/fioJsonInterpreter.py:512-518 | a direction adds nothing unless the job has it with positive `total_ios`, and otherwise fails only with a lookup error |
| Issued.Add | tools/fioJsonInterpreter.py:516-518 | adding a contribution keeps four slots in each list |
| Issued.AddParts | tools/fioJsonInterpreter.py:516-518 | a contribution is added to slot `k` of all three lists, and none changes nothing |
| Issued.Tally | tools/fioJsonInterpreter.py:507-518 | the counters keep four slots |
| Issued.TallyError | tools/fioJsonInterpreter.py:511-518 | a failed count fails with one of the directions' lookup errors |
| Issued.AddAt | tools/fioJsonInterpreter.py:516-518 | the three arrays are updated in place at slot `k` by the contribution |
| Issued.IssuedCounts | tools/fioJsonInterpreter.py:507-518 | the counting loop over arrays computes the tally of the job's directions |
| Issued.TallySlots | tools/fioJsonInterpreter.py:511-518 | each slot holds the sum of what the directions counted in it contribute |
| Issued.SlotsOfFive | tools/fioJsonInterpreter.py:510-518 | mixed and read share slot 0; write, trim and sync fill slots 1, 2 and 3 |
| Issued.GainedBefore | tools/fioJsonInterpreter.py:514-515 | no direction before position `k + 1` counts in slot `k >= 1` |
| Issued.GainedAfter | tools/fioJsonInterpreter.py:514-515 | no direction from position `k + 2` on counts in slot `k` |
| Issued.NotCountedUnlessPositive | tools/fioJsonInterpreter.py:512 | a present direction with zero or negative `total_ios` adds nothing |
| Issued.CountedWhenPositive | tools/fioJsonInterpreter.py:512-518 | a present direction with positive `total_ios` and numeric `short_ios` and `drop_ios` adds exactly its `(total_ios, short_ios, drop_ios)` |
| Issued.CommaListFields | tools/fioJsonInterpreter.py:531-536 | the printed counts split back into one shown count per slot |
| LatBuckets.Kept | tools/fioJsonInterpreter.py:554-556 | the filter succeeds exactly when every percentage is numeric, keeps at most all entries and otherwise raises TypeError |
| LatBuckets.KeptOne | tools/fioJsonInterpreter.py:554-556 | one entry is kept when its percentage is above zero, dropped when not, and a non-number raises TypeError |
| LatBuckets.KeptAppend | tools/fioJsonInterpreter.py:553-556 | the kept entries of two tables one after the other are those of the first followed by those of the second, so the positive buckets keep the table's order |
| LatBuckets.KeptMembers | tools/fioJsonInterpreter.py:554-556 | an entry is kept exactly when it is in the table with a positive percentage |
| LatBuckets.KeptEmptyIff | tools/fioJsonInterpreter.py:555-557 | nothing is kept exactly when no percentage is above zero |
| LatBuckets.PositiveBuckets | tools/fioJsonInterpreter.py:553-556 | the inner loop computes the kept entries |
| LatBuckets.ScaleLine | tools/fioJsonInterpreter.py:549-558 | a scale without a table prints nothing; a printed line has its scale and at least one bucket |
| LatBuckets.ScaleLineIff | tools/fioJsonInterpreter.py:551-558 | a numeric table prints a line exactly when some bucket is above zero, and the line holds exactly those buckets |
| LatBuckets.ScaleLineKept | tools/fioJsonInterpreter.py:551-558 | a table's line fails exactly when a bucket is not a number, and holds the kept buckets themselves, so in the table's order |
| LatBuckets.LatLines | tools/fioJsonInterpreter.py:549-558 | there is at most one line per scale, and failures are TypeError |
| LatBuckets.LatLinesScales | tools/fioJsonInterpreter.py:549-558 | every line belongs to a scale whose table the job has, with buckets |
| LatBuckets.NoTablesNoLines | tools/fioJsonInterpreter.py:549-551 | a job with no latency table prints no latency line |
| LatBuckets.NormalLatBuckets | tools/fioJsonInterpreter.py:548-558 | the outer loop over scales computes the lines |
| Normal.StampFind | tools/fioJsonInterpreter.py:499-500 | the stamped job has the run time and `numjobs='??'`, and every other key as before |
| Normal.JobStats | tools/fioJsonInterpreter.py:495-524 | a missing `time` raises KeyError first; a job that is not a dictionary raises TypeError; a report holds the stamped job |
| Normal.JobStatsError | tools/fioJsonInterpreter.py:495-524 | one job's stats fail only with a lookup error |
| Normal.NormalJobStats | tools/fioJsonInterpreter.py:495-524 | the method computes those stats with the counting and bucket loops |
| Normal.EachOnePerJob | tools/fioJsonInterpreter.py:209-216 | a successful pass has one report per entry, each the entry's own |
| Normal.EachError | tools/fioJsonInterpreter.py:209-216 | a failing pass fails with one entry's error |
| Normal.Normalized | tools/fioJsonInterpreter.py:188-226 | the loop of `normalized()` computes the report of the dispatch |
| Normal.NoVersion | tools/fioJsonInterpreter.py:206 | without `fio version` nothing else is looked at |
| Normal.MissingJobsIff | tools/fioJsonInterpreter.py:208-222 | the "missing jobs or client_stats" error is raised exactly when both keys are missing; any other failure is a lookup error |
| Normal.JobsPreferred | tools/fioJsonInterpreter.py:208-212 | with `jobs` present `client_stats` is ignored: one report per job, none with a host name, and `disk_util` was found |
| Normal.ClientsCarryHosts | tools/fioJsonInterpreter.py:214-219 | without `jobs`, each client's report carries that client's `hostname` |
| Terse.PathValues | tools/fioJsonInterpreter.py:335-339 | a table assigns one field per row, `prefix + hdr` holding the path's value, and fails with one row's error |
| Terse.AvailDirs | tools/fioJsonInterpreter.py:341-344 | the available directions are among read, write and mixed, present in the job, with their objects |
| Terse.AvailDirsComplete | tools/fioJsonInterpreter.py:341-344 | every one of read, write and mixed that the job has is chosen |
| Terse.AvailDirsOrdered | tools/fioJsonInterpreter.py:341-344 | the chosen directions keep the order read, write, mixed |
| Terse.AvailReadMixed | tools/fioJsonInterpreter.py:341-344 | a job with read and mixed but no write gives read, then mixed |
| Terse.AddPaths | tools/fioJsonInterpreter.py:335-339 | the table loop assigns exactly those fields to the record |
| Terse.PathValuesErr | tools/fioJsonInterpreter.py:335-339 | a failing prefix of a table fails the whole table the same way |
| Terse.AddDirection | tools/fioJsonInterpreter.py:346-351 | the direction-table loop assigns one field per path column and, for the callback column, the percentile fields under the as-written label, in place |
| Terse.AddDirections | tools/fioJsonInterpreter.py:345-351 | the loop over available directions assigns each direction's fields in order, the percentile fields under the as-written label |
| Terse.AddDisks | tools/fioJsonInterpreter.py:356-358 | the loop over disks assigns the disk table once per disk |
| Terse.DisksFirstOk | tools/fioJsonInterpreter.py:356-358 | when the disk assignments succeed, so do those of the first disk |
| Terse.AddLater | tools/fioJsonInterpreter.py:341-358 | the directions (percentile fields under the as-written label), the rest of the job and the disks are assigned in order |
| Terse.JobRecord | tools/fioJsonInterpreter.py:334-360 | one job's record is the head with every assignment applied in the source's order |
| Terse.TerseList | tools/fioJsonInterpreter.py:328-362 | `terseList()` returns the records of the jobs, looking up `jobs` and `disk_util` first |
| Terse.TerseMissingKeys | tools/fioJsonInterpreter.py:329-330 | a missing `jobs` raises KeyError; with `jobs` but without `disk_util`, so does that key |
| Terse.TerseNoJobs | tools/fioJsonInterpreter.py:329-362 | an empty job list gives no records |
| Terse.RecordsOnePerJob | tools/fioJsonInterpreter.py:333-360 | one record per job, in job order, each the record of its job |
| Terse.RecordsFirstError | tools/fioJsonInterpreter.py:333-360 | a failing job makes the whole list fail with its error |
| Terse.FioLayoutLeads | tools/fioJsonInterpreter.py:241-325 | the source's tables lead with `fio_version`, `jobname`, `groupid`, `error`, and no other header clashes with them |
| Terse.LaterOutside | tools/fioJsonInterpreter.py:341-358 | the later assignments never touch the leading columns |
| Terse.RecordValuesSplit | tools/fioJsonInterpreter.py:335-358 | a record's assignments are the four identity columns, then columns that cannot clash with them |
| Terse.LeadingValues | tools/fioJsonInterpreter.py:335-339 | the top-level and job-identity tables assign their four fields in order |
| Terse.LeadingEntriesStay | tools/fioJsonInterpreter.py:334-358 | later assignments leave the five leading entries in front |
| Terse.RecordLeadingColumns | tools/fioJsonInterpreter.py:334-339 | every record starts with `terse_version='??'`, then fio version, job name, group id and error, each holding its path's value |
| Terse.RecordLeadingKeys | tools/fioJsonInterpreter.py:334-339 | a record's first five keys are the leading names |
| Terse.UnprefixedEntries | tools/fioJsonInterpreter.py:357-358 | a disk table assigns its headers as pairwise distinct keys, each holding its path's value |
| Terse.DiskColumnsFromLastDisk | tools/fioJsonInterpreter.py:356-358 | further disks add no field: the keys are those the first disk created, and each disk column holds the last disk's value |
| Terse.LaterThenDisks | tools/fioJsonInterpreter.py:353-358 | the later assignments end with the disk assignments |
| Terse.RecordThenDisks | tools/fioJsonInterpreter.py:334-358 | a record is the fields before the disks with the disk assignments applied last |
| Terse.RecordDiskColumns | tools/fioJsonInterpreter.py:356-358 | a record's disk columns hold the values of the last disk under `disk_util` |
| Terse.Lines | tools/fioJsonInterpreter.py:373-374 | there is one value line per record |
| Terse.TextEmptyIffNoRecords | tools/fioJsonInterpreter.py:366-376 | the text is empty exactly when there are no records |
| Terse.TerseTextSnoc | tools/fioJsonInterpreter.py:370-374 | the first record writes the header, a newline and its line; each later one a newline and its line |
| Terse.WriteText | tools/fioJsonInterpreter.py:366-376 | the loop of `terse()` builds the text of the records |
| Terse.Terse | tools/fioJsonInterpreter.py:365-376 | `terse()` is the text of `terseList()`'s records, or its error |
| Terse.TerseTextLines | tools/fioJsonInterpreter.py:370-374 | split at newlines, the text is the first record's header and one line per record |
| Terse.LineMatchesHeader | tools/fioJsonInterpreter.py:371-374 | a record with the header record's keys has as many `;`-fields as the header, one per key |
| Terse.SameFieldCount | tools/fioJsonInterpreter.py:368-374 | when all records share a key sequence, every value line has the header's field count |
| Terse.HeaderStartsWithLeading | tools/fioJsonInterpreter.py:371 | a header whose first keys are the leading names starts with them joined by `;` |
| Terse.RecordHeaderLeads | tools/fioJsonInterpreter.py:334-339 | every record's header starts with `terse_version;fio_version;jobname;groupid;error` |
| Terse.HeaderLeads | tools/fioJsonInterpreter.py:334-339 | the same holds for every layout of that shape |
| Terse.TextStartsWithHeader | tools/fioJsonInterpreter.py:370-371 | the text starts with whatever the first record's header starts with |
| Terse.TerseTextStartsWithLeading | tools/fioJsonInterpreter.py:365-376 | the text of `terse()` with jobs starts with the leading names |

## Left out

- File reading (`Path.open`, `readlines`) is left out. The splitter takes the lines as a sequence of strings, and the `StringIO` buffers are lists of lines.
- `json.load` with `object_pairs_hook=OrderedDict` is left out: the model starts from a parsed tree. So is `__init__` as a whole, which only chains the splitter and the parser.
- The `__main__` command line (argparse, pprint) is left out.
- `objs`, `bothJsonAndNormal` and `normalLines` only return a stored field. They are the tree, `SplitOutput.containsStatusLines` and `SplitOutput.normal`.
- Floating point is modelled as `real`. The IEEE rounding of `/ 1000.0`, `/ 1000000.0` and `/ 1048576.0` is not modelled.
- `str()` of a value and every `format` spec (`{:.2f}`, `{:>9}`, `{:>2}`) are left out. A line that shows values takes a `show` function, which is a parameter.
- The printed text of the normal report is left out. This covers the header from `format_map` and the `desc` line, `_normalDirection`, `_normalXLat`, `_normalCLatPercents`, `_normalBw`, `_normalIops`, `_normalCpu`, `_normalIODepths` and `_normalLatency`. They are templating of looked-up values, and none of their lookups is modelled (see the `Normal.JobStats` line below); the job stamp models only the assignments `dJob['time']` and `dJob['numjobs']`. `_normalLatBuckets` keeps its filter, and `LatBuckets.LatLineText` renders its line.
- `_normalRunStatus` and `_normalDiskStats` do nothing in the source.
- The display fields written into the tree for templating (`dDir['bwKB']`, `dDir['metric']`, `dDir['scale']`) are left out. `dJob['time']` and `dJob['numjobs']` are modelled (`Normal.Stamp`).
- Normal.JobStats: does not model the lookups the source makes only to print text. These are `jobname`, `groupid` and `error` in the header at line 501, the direction fields read by `_normalDirection`, and the `_normalCpu`, `_normalIODepths` and `_normalLatency` fields. A job lacking one of them fails in the source but not in the model. Where several lookups fail, the first error can differ. The lookups `total_ios`, `short_ios` and `drop_ios` and the latency tables are modelled.
- Json.Find: returns the first pair with the key. Objects are taken to have distinct keys; for a document that repeats a key, `json.load` with `OrderedDict` keeps the last value at the first key's position, which the model does not capture.
- Python's `AttributeError` (`.lower()` on a name that is not a string, `.items()` on a value that is not a dictionary) is folded into `TypeError`.
- `Strings.Lower` lowers ASCII letters only; Unicode case folding is left out.

## Findings

| source | as written | input that shows it | evidently intended | confidence | as-written member | corrected member |
|---|---|---|---|---|---|---|
| tools/fioJsonInterpreter.py:393 | `pct.rstrip('.0')` strips every trailing `.` and `0`, so "10.000000" becomes "1", and likewise "20.000000" becomes "2" | a percentile table with keys "1.000000" and "10.000000" | remove the zeros of the fraction and then a dangling point, giving "1" and "10" | not executed | Percentiles.PercentileCollision | Percentiles.LabelsDistinct |
| tools/fioJsonInterpreter.py:488 | `self._getMetricResultsList(metric, dirFilter)` passes the filter in the `submetric` position, so no direction is ever filtered out, and a filter makes the lookup index into a number | `_sumMetric('iops', 'read')` on a job with only a `read` direction | pass it as `dirFilter=dirFilter`, and sum the pairs of the selected direction only | not executed | Aggregates.SumFilterMisplaced | Aggregates.FilteredSumPartition |

On the percentile labels, the as-written label is `Percentiles.AsWrittenLabel`
and the corrected one is `Percentiles.PercentileLabel`. The terse records
and text follow the program and use the as-written label, so for fio's
standard table of 17 percentiles a direction gets 15 percentile fields:
the 10th and 50th overwrite the 1st and 5th, and 20 to 90 are named `_2`
to `_9` (`Percentiles.DecadeCollision`). `Percentiles.PercentilesKept`
shows that the corrected expansion keeps the 1st and the 10th percentile
apart.

On the sum, the as-written sum is `Aggregates.SumMetricAsWritten`, computed
by `Aggregates.SumMetric`. The corrected sum is `Aggregates.FilteredSum`,
computed by `Aggregates.SumMetricFiltered`. `iops` and `mibps` call the
as-written sum, as the program does; `Aggregates.UnfilteredSumsAgree` shows
that the two agree on every call the class itself makes, since none passes
a filter.
