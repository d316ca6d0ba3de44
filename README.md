# Matchups: a Dafny model of the baseball pitch-matchup core

This project models the core of `compbaseball/baseball.py`, the Compute Studio
app that tabulates how one pitcher pitched to a list of batters. The app works
from a table of pitch events (balls, strikes, outcome, pitch type, pitcher,
batter, date). The model covers five parts:

- **Allow-list checks** (`Params`): the `BaseballParams` parameter object. It
  checks the pitcher and each batter against the allowed player names. In
  fail-fast mode a rejected name raises. In collect mode the messages are
  recorded in the object's error store through `format_errors`. The batter
  messages are built by a loop that appends one message per rejected entry.
- **Filters** (`Events`): the date window (start inclusive, end exclusive) and
  the pitcher/batter selection. Both are one order-preserving filter, `Select`.
- **Count tables** (`Aggregate`): `value_counts` of the pitch outcome or pitch
  type, grouped by `(balls, strikes)`. There is a raw-count table and a
  normalized table. Normalized values are exact rational ratios of a raw count
  to its group size.
- **Sanitiser** (`Sanitize`): `pdf_to_clean_html` runs two `str.replace(pat, "")`
  passes, one for each deprecated attribute.
- **Result assembly and input parsing** (`Assembly`, `Inputs`):
  - `get_matchup` appends two aggregate records. It then loops over the
    batters and adds four records per batter.
  - `parse_inputs` merges the parameter errors into the caller's
    errors-and-warnings dictionary, in place.

Modules: `Wrappers` (Option), `Params`, `Events`, `Aggregate`, `Sanitize`,
`Assembly`, `Inputs`.

Points where the model follows the code rather than a prose description of it:

- **Merge replaces keys.** The merge into the caller's errors is `dict.update`.
  An incoming key replaces the caller's entry; it is not appended to it.
  `Inputs.Merge` states this.
- **The sanitiser can leave a pattern in its output.** `str.replace` makes one
  left-to-right pass, so output that is free of both attributes is not
  guaranteed. Deleting one occurrence can join its neighbours into a new one.
  `Sanitize.CleanHtmlCanLeaveBorder` exhibits such an input. What does hold is
  that markup without either attribute is returned unchanged, and that each
  pass deletes exactly the non-overlapping leftmost matches.
- **The raw pitch-type filename has no underscore after `pitch_type`.** The
  filename is `pitch_type{pitcher}_{batter}.csv`, and the model keeps it that
  way. `Assembly.MatchupFilenameInjective` shows that, for one pitcher, the
  downloads of distinct batters still cannot collide. A batter listed twice
  gets the same four filenames twice, since nothing removes repeats.

## Model

| member | source | states |
|---|---|---|
| Params.NameOfMessage | compbaseball/baseball.py:26 | the player name can be read back from a rejection message `ERROR: <Role> "<name>" not allowed.` |
| Params.MessageInjective | compbaseball/baseball.py:26 | two names give the same rejection message exactly when they are equal |
| Params.BatterErrors | compbaseball/baseball.py:37-41 | there are at most as many batter messages as batters, and none exactly when every batter is allowed |
| Params.BatterErrorsAppend | compbaseball/baseball.py:38-40 | the messages of a concatenated batter list are the first list's messages followed by the second's (input order) |
| Params.BatterErrorsCount | compbaseball/baseball.py:38-40 | a rejected name gets one message per occurrence in the batter list, repeats included; an allowed name gets none |
| Params.BatterErrorsNameRejected | compbaseball/baseball.py:38-40 | every batter message names a batter of the list that is not in the allow-list |
| Params.AllowedNamesPass | compbaseball/baseball.py:16-46 | with every name allowed, neither mode raises and the error store is unchanged |
| Params.FailFastPitcher | compbaseball/baseball.py:16-31 | fail-fast mode with a rejected pitcher raises the single pitcher message under "pitcher", whatever the batters are (the batter check never runs) |
| Params.FailFastBatters | compbaseball/baseball.py:16-46 | fail-fast mode with an allowed pitcher raises exactly when some batter is rejected, with all batter messages under "batter" |
| Params.CollectMode | compbaseball/baseball.py:16-46 | collect mode never raises; "pitcher" and "batter" get their messages exactly when those checks fail; every other entry stays as it was |
| Params.CollectBatterErrors | compbaseball/baseball.py:37-40 | the append loop builds exactly the batter messages `BatterErrors` describes |
| Params.BaseballParams.constructor | compbaseball/baseball.py:23-36 | the object holds the resolved pitcher, the batters and the library's error store |
| Params.BaseballParams.FormatErrors | compbaseball/baseball.py:41-46 | recording an error sets its key to its messages and leaves the rest of the store alone |
| Params.BaseballParams.PostValidatePitcher | compbaseball/baseball.py:20-31 | raises the pitcher error in fail-fast mode; otherwise folds it into the store, and only when the pitcher is rejected |
| Params.BaseballParams.PostValidateBatter | compbaseball/baseball.py:33-46 | raises the batter error in fail-fast mode; otherwise folds it into the store, and only when some batter is rejected |
| Params.BaseballParams.PostValidate | compbaseball/baseball.py:16-18 | runs the pitcher check, then the batter check unless the first raised; a raise leaves the store unchanged; the outcome is `PostValidation` |
| Events.Select | compbaseball/baseball.py:87-88 | the filtered rows are rows of the input that the filter keeps, and there are no more of them than input rows |
| Events.SelectAppend | compbaseball/baseball.py:87-88 | filtering distributes over concatenation, so the original relative order is kept |
| Events.SelectMultiplicity | compbaseball/baseball.py:87-88 | a kept row appears as often as in the input; any other row appears zero times |
| Events.SelectMembership | compbaseball/baseball.py:87-88 | a row is in the result exactly when it is in the input and satisfies the condition |
| Events.SelectIdempotent | compbaseball/baseball.py:119-132 | applying the pitcher/batter filter again changes nothing |
| Events.SelectCommute | compbaseball/baseball.py:87-119 | the date filter and the matchup filter can be applied in either order |
| Events.SelectEmpty | compbaseball/baseball.py:119-120 | the matchup rows are empty exactly when no row matches |
| Events.DateWindowBounds | compbaseball/baseball.py:87-88 | a row dated at the start is kept (for a non-empty window); a row dated at the end is dropped |
| Aggregate.Frequency | compbaseball/baseball.py:92-99 | a normalized value of a present key lies in (0, 1] |
| Aggregate.CountIsKeyMultiplicity | compbaseball/baseball.py:129-135 | the raw count of `(balls, strikes, c)` is the number of rows with those values |
| Aggregate.PresentKey | compbaseball/baseball.py:92-94 | a key is present exactly when its category occurs in its `(balls, strikes)` group |
| Aggregate.CountWithinGroup | compbaseball/baseball.py:128-129 | a present key's count is positive and at most its group's size |
| Aggregate.NormalizedIsRawOverGroup | compbaseball/baseball.py:128-135 | both tables have the same keys, namely those of some row; a normalized value is its raw count divided by the positive size of its group |
| Aggregate.KeySeqMembership | compbaseball/baseball.py:92-94 | a key occurs among the rows' keys exactly when some row has it |
| Aggregate.EmptyTables | compbaseball/baseball.py:92-94 | both tables are empty exactly when there are no rows |
| Aggregate.Distinct | compbaseball/baseball.py:92-94 | the categories of a group, listed once each, with the same members |
| Aggregate.RawCountsSumToGroupSize | compbaseball/baseball.py:129-135 | a group's categories are exactly its keys, and their raw counts add up to the group's size |
| Aggregate.SumFrequenciesIsScaledSumCounts | compbaseball/baseball.py:128-129 | summed normalized values are the summed raw counts over the group size |
| Aggregate.FrequenciesSumToOne | compbaseball/baseball.py:92-99 | the normalized values of any present group add up to exactly 1 |
| Sanitize.DeleteAll | compbaseball/baseball.py:68-69 | a pass never lengthens the markup |
| Sanitize.Split | compbaseball/baseball.py:68-69 | cutting at the leftmost non-overlapping matches gives at least one piece |
| Sanitize.DeleteAllIsConcatOfSplit | compbaseball/baseball.py:68-69 | a pass deletes exactly the leftmost non-overlapping matches and keeps every other character, in order |
| Sanitize.JoinSplit | compbaseball/baseball.py:68-69 | putting the deleted matches back between the pieces restores the markup |
| Sanitize.SplitFirstPieceHasNoMatch | compbaseball/baseball.py:68-69 | no match starts inside the text before the first deleted match |
| Sanitize.SplitSingleIffNoMatch | compbaseball/baseball.py:68-69 | a pass deletes something exactly when the pattern occurs |
| Sanitize.SplitAfterFirstMatch | compbaseball/baseball.py:68-69 | the first deleted match sits right after the first piece, and scanning resumes after it |
| Sanitize.DeleteAllWithoutMatch | compbaseball/baseball.py:68-69 | a pass over markup without the pattern returns it unchanged |
| Sanitize.CleanHtmlWithoutAttributes | compbaseball/baseball.py:64-69 | markup with neither attribute is returned unchanged |
| Sanitize.BorderPassJoinsNeighbours | compbaseball/baseball.py:68 | deleting one ` border="1"` can join its neighbours into a new ` border="1"` |
| Sanitize.CleanHtmlCanLeaveBorder | compbaseball/baseball.py:64-69 | some markup still contains ` border="1"` after sanitising |
| Assembly.GetMatchup | compbaseball/baseball.py:72-174 | two aggregate records (outcome, then type) of normalized tables over the date window, then the records of every batter in turn |
| Assembly.AllBatterRecordsLayout | compbaseball/baseball.py:117-172 | exactly 4 records per batter at positions 4i..4i+3: outcome/normalized, outcome/raw, type/normalized, type/raw; each has the batter as dimension and the matchup's rows as data, so no batter stops later ones |
| Assembly.ZeroMatchupsGiveEmptyFrames | compbaseball/baseball.py:119-124 | a batter with no pitches from the pitcher in the window gets four empty frames |
| Assembly.MatchupFrameIsTableOfMatchup | compbaseball/baseball.py:125-135 | with pitches, each frame is the table of exactly the matchup's rows, a raw count is the number of those rows with the key, and the normalized values of each present count state add up to 1 |
| Assembly.RecordTags | compbaseball/baseball.py:102-172 | aggregate records carry only `{"attribute": ...}`; the four records of the i-th batter carry that batter as dimension and the tags pitch-outcome/normalized, pitch-outcome/raw-count, pitch-type/normalized, pitch-type/raw-count in that order |
| Assembly.MatchupFilenameInjective | compbaseball/baseball.py:144-168 | for one pitcher, a per-batter filename determines its variant and its batter |
| Assembly.MatchupFilenameNotAggregate | compbaseball/baseball.py:105-168 | no per-batter filename equals `pitch_outcome.csv` or `pitch_type.csv` |
| Inputs.Merge | compbaseball/baseball.py:60 | the merged keys are the union; new entries win; other caller entries are kept; merging nothing changes nothing |
| Inputs.MergedInto | compbaseball/baseball.py:60 | only the "matchup" errors change; its warnings and every other section are untouched |
| Inputs.MergeIdempotent | compbaseball/baseball.py:60 | merging the same errors twice is the same as merging them once |
| Inputs.ErrorsWarnings.constructor | compbaseball/baseball.py:55 | the caller's dictionary holds the given sections |
| Inputs.ErrorsWarnings.UpdateErrors | compbaseball/baseball.py:60 | the in-place update leaves the store equal to `MergedInto` of the old store |
| Inputs.ParseInputs | compbaseball/baseball.py:55-61 | as written: fail-fast checks; when one raises, the caller's store is untouched; otherwise the adjust errors are merged |
| Inputs.ParseInputsCollecting | compbaseball/baseball.py:55-61 | corrected: collect-mode checks, and every allow-list error is merged into the caller's store |
| Inputs.RaiseModeLosesErrors | compbaseball/baseball.py:59 | as written, the checks raise exactly when some name is rejected |
| Inputs.RejectedBatterExample | compbaseball/baseball.py:59-60 | for pitcher "A" allowed and batter "B" rejected, the written code raises; collect mode stores the batter message |
| Inputs.CollectingReportsEveryRejection | compbaseball/baseball.py:16-60 | after the corrected merge, the store holds the pitcher message and all batter messages exactly as rejected, plus every other earlier entry |

## Left out

- Reading the pitch data is left out: that is the parquet download from one of two URLs chosen by the era flag. The event sequence is a parameter of `Assembly.GetMatchup`.
- Reading `playerchoices.json` is left out: the allow-list is a `set<string>` parameter.
- The parameter library is not part of this model:
  - `adjust`, `specification`, `get`, schema and default loading become a resolved `Specification` and an initial error map, given as inputs.
  - `format_errors` becomes insertion of the error's key and messages.
  - The adjust step's own validation errors arrive only as that initial map.
- `get_inputs` (lines 49-52) is left out: it only returns the library's specification.
- Date parsing with `pd.to_datetime` / `pd.Timestamp` is left out: dates are integers in their natural order.
- `to_csv` and `to_html` are functions in a `Renderer` parameter. Their text format is not modelled, so CSV and markup content is only known up to that function.
- Floating point is not modelled: normalized values are exact rationals, so rounding error does not appear.
- Rows whose category is missing (NaN), which `value_counts` drops, are not modelled: every row has a category.
- Row order within a pandas table is not modelled: a table is a map from `(balls, strikes, category)`.
- `print`, `del`, `json.dumps` in `parse_inputs`, the `meta.task_times` constant and the tuple `parse_inputs` returns are left out. They are logging, memory release or serialisation.
- `Inputs.ParseInputs` requires the caller's store to have a "matchup" section. The source would fail with a key error otherwise, and its caller always supplies one.
- Repeated batters are not reported: when the batter list holds a name twice, its four records and filenames appear twice, as in the source. `Assembly.MatchupFilenameInjective` rules out collisions only between distinct batters.
- `Assembly.GetMatchup` takes the resolved specification directly. The raising `adjust` call at the start of `get_matchup` belongs to the parameter library.

## Findings

| source | as written | input that shows it | evidently intended | confidence | as-written member | corrected member |
|---|---|---|---|---|---|---|
| compbaseball/baseball.py:59 | `parse_inputs` calls `post_validate()` with the default `raise_errors=True`. A rejected pitcher or batter raises out of `parse_inputs`, and its message never reaches `errors_warnings`. | allow-list {"A"}, pitcher "A", batters ["B"]: the batter check raises; nothing is merged | run the checks in collect mode, so every allow-list error is merged into `errors_warnings["matchup"]["errors"]` alongside the adjust errors | not executed | Inputs.ParseInputs | Inputs.ParseInputsCollecting |
