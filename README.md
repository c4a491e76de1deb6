# Feed validation rules of hastycam

hastycam keeps a list of camera *feeds*: records naming a video stream and the
options used to process it (frame-rate cap, scaling, encoder quality, whether to
save the video and where, whether to detect motion and how sensitively). Before
a feed is stored it goes through `validateFeed`, which checks a partial feed
record with a fixed, ordered list of field rules and returns the list of
`{field, message}` errors it found. The empty list means the feed is valid.

This project models that validator and proves what it reports.

- `validators.dfy`, module `Validators`: runtime values (`Value`), the error
  record, the four field rules (`ValidateNotEmpty`, `ValidateNumeric`,
  `ValidateNumberGreaterThanOrEqual`, `ValidateNumberLessThanOrEqual`) and the
  two combinators (`MergeErrors`, which flattens argument lists in order, and
  `ValidateIf`, which keeps its rules when its guard is truthy). The rule module
  itself, `packages/interface/src/validator/validators.ts`, is not part of this
  model. Its rules are modelled from their names and from how `feed.ts` uses them.
- `feed.dfy`, module `Feeds`: the feed keys, a partial feed as a map from keys
  to values, the two default constants, `ValidateFeed`, and its properties.

A partial feed is a `map<FieldName, Value>`. A key that is not in the map reads
as `undefined` (`Absent`). Any JSON value (string, number, boolean, `null`,
array or object) can sit under any key, so the model covers feeds that arrive
as untyped JSON. Numbers are `real`. The
validator is a Dafny function, so it is pure: it cannot change its argument,
and equal inputs give equal outputs.

**The list-valued guards.** Two `validateIf` calls get another rule's error
*list* as their guard instead of a boolean (`feed.ts` lines 40 and 56). A
JavaScript array is truthy even when it is empty. So the guarded rules always
run, and the guard's own errors are dropped. The model keeps this behaviour as
written. `Condition` has a `Flag(bool)` case and an `ErrorList(errors)` case,
and `Truthy` is always true for `ErrorList`. The consequences are proved:

- An absent `videoQuality` yields no error.
- An empty-string `videoQuality` fails the not-empty guard, but the numeric rule
  still runs, so a numeric error is reported (`EmptyVideoQualityStillChecked`).
- A non-numeric `motionDiffThreshold` is never reported. The numeric check
  on it is only a guard, and its error is dropped. The two bound rules report
  nothing for a value that is not a number (see "## Left out"), so nothing
  else reports it either. For the same reason the line-56 guard has no
  visible effect: whenever the numeric check fails, the bounds are empty too
  (`ThresholdGuardInvisible`). The line-40 guard does have an effect
  (`QualityGuardVisible`).

## Model

| member | source | states |
|---|---|---|
| Validators.ValidateNotEmpty | packages/interface/src/models/feed.ts:34-36 | at most one error; an error exactly when the field is undefined, null, `""` or `[]`; the error names the field and carries the caller's label |
| Validators.ValidateNumeric | packages/interface/src/models/feed.ts:37-38 | at most one error; an error exactly when the field is present and not a number (absent is not an error) |
| Validators.ValidateNumberGreaterThanOrEqual | packages/interface/src/models/feed.ts:43 | at most one error; an error exactly when the field holds a number below the bound |
| Validators.ValidateNumberLessThanOrEqual | packages/interface/src/models/feed.ts:44 | at most one error; an error exactly when the field holds a number above the bound |
| Validators.MergeErrors | packages/interface/src/models/feed.ts:33-63 | the merged list is as long as all argument lists together |
| Validators.MergeErrorsMembers | packages/interface/src/models/feed.ts:33-63 | an error is in the merge exactly when it is in one of the argument lists |
| Validators.MergeErrorsAppend | packages/interface/src/models/feed.ts:33-63 | merging two groups of arguments one after the other is merging each group and concatenating, so spread arguments keep their order |
| Validators.ValidateIf | packages/interface/src/models/feed.ts:39-62 | a guard is truthy exactly when it is not `false`, so a list-valued guard always keeps the rules, whatever the list holds; `false` yields no rule results; `true` yields the rules' results unchanged |
| Feeds.ValidateFeed | packages/interface/src/models/feed.ts:32-64 | the validator itself, transcribed rule by rule; its contract is stated by `ValidateFeedInOrder` (the output is the reference errors in order) and `ValidateFeedAccepts` (the output is empty exactly on acceptable feeds) |
| Feeds.ValidateFeedInOrder | packages/interface/src/models/feed.ts:32-64 | the output is the concatenation, in this order, of the errors for id, name, streamUrl, maxFps, scaleFactor, videoQuality, savePath and motionDiffThreshold, each stated on the field's value |
| Feeds.ErrorsForField | packages/interface/src/models/feed.ts:32-64 | for every field, the errors naming that field are exactly its reference errors |
| Feeds.AtMostOneErrorPerField | packages/interface/src/models/feed.ts:32-64 | no field is named by more than one error |
| Feeds.ErrorsNameCheckedFields | packages/interface/src/models/feed.ts:33-63 | every error names one of the eight checked fields |
| Feeds.RequiredFieldErrors | packages/interface/src/models/feed.ts:34-36 | an empty or missing id, name or streamUrl yields exactly one not-empty error naming it; a set one yields none |
| Feeds.RequiredErrorsFirst | packages/interface/src/models/feed.ts:33-36 | the output starts with the id, name and streamUrl errors in that order, followed by errors that name no required field |
| Feeds.OptionalErrors | packages/interface/src/models/feed.ts:37-62 | no error from the later blocks names id, name or streamUrl |
| Feeds.UnboundedNumericFields | packages/interface/src/models/feed.ts:37-38 | maxFps and scaleFactor pass as any number or when absent; a present non-number yields one numeric error |
| Feeds.VideoQualityErrors | packages/interface/src/models/feed.ts:39-46 | no videoQuality error exactly when it is absent or a number in [2, 31]; below 2 gives the lower-bound error, above 31 the upper-bound error, a non-number the numeric error; the guard's not-empty error never appears |
| Feeds.SavePathErrors | packages/interface/src/models/feed.ts:47-52 | savePath errors appear only when saveVideo is exactly true; then an empty or missing path gives exactly one error, and otherwise none |
| Feeds.MotionThresholdErrors | packages/interface/src/models/feed.ts:53-62 | motionDiffThreshold errors appear only when detectMotion is exactly true; there are none exactly when the value is not a number or lies in [0, 1]; above 1 gives the upper-bound error, below 0 the lower-bound error; the numeric guard's error never appears |
| Feeds.ThresholdGuardInvisible | packages/interface/src/models/feed.ts:55-61 | whenever the threshold's numeric check fails, the two bound rules report nothing, so the list-valued guard at line 56 does not change the output |
| Feeds.QualityGuardVisible | packages/interface/src/models/feed.ts:39-46 | a present quality that fails the not-empty guard is still reported, with exactly the numeric error |
| Feeds.UncheckedFields | packages/interface/src/models/feed.ts:18-24 | saveVideo, detectMotion and motionRegions are never named by an error |
| Feeds.MotionRegionsIgnored | packages/interface/src/models/feed.ts:24 | changing motionRegions never changes the result |
| Feeds.ValidateFeedAccepts | packages/interface/src/models/feed.ts:32-64 | the result is empty exactly when the feed is acceptable: id, name and streamUrl set; maxFps and scaleFactor numbers or absent; videoQuality absent or a number in [2, 31]; a path set when saving; a numeric threshold in [0, 1] when motion detection is on |
| Feeds.MinimalFeedIsValid | packages/interface/src/models/feed.ts:32-64 | a feed with only id, name and streamUrl set yields no errors |
| Feeds.EmptyRecordErrors | packages/interface/src/models/feed.ts:34-36 | an empty record yields exactly the id, name and streamUrl not-empty errors, in that order |
| Feeds.VideoQualityOneTooLow | packages/interface/src/models/feed.ts:43 | a minimal feed with quality 1 yields exactly the lower-bound error |
| Feeds.VideoQualityThirtyTwoTooHigh | packages/interface/src/models/feed.ts:44 | a minimal feed with quality 32 yields exactly the upper-bound error |
| Feeds.EmptyVideoQualityStillChecked | packages/interface/src/models/feed.ts:39-42 | an empty-string quality fails the guard, yet yields exactly the numeric error |
| Feeds.SaveWithoutPath | packages/interface/src/models/feed.ts:47-52 | saveVideo true with no savePath yields exactly one error, naming savePath |
| Feeds.MotionThresholdTooHigh | packages/interface/src/models/feed.ts:53-58 | detectMotion true with threshold 1.5 yields exactly the upper-bound error |
| Feeds.DefaultVideoQualityPasses | packages/interface/src/models/feed.ts:28 | the default quality 24 lies in [2, 31] and raises no videoQuality error, whatever else the feed holds |
| Feeds.DefaultMaxFpsPasses | packages/interface/src/models/feed.ts:29 | the default frame rate 16 raises no maxFps error, whatever else the feed holds |

## Left out

- The config store (`packages/server/background/config.ts`) is not part of this model. It is a thin wrapper over the `conf` library, and its default fallback, reset-on-delete and file persistence all live inside that library.
- The client components, HTTP requests, logging and the React bootstrap are not modelled.
- Message text: the rule module builds human-readable messages, and its source is not available. An error here carries the rule kind, its bound and the caller's label (`None` where the call passes no label, as for `id`).
- JavaScript numbers are modelled as `real`, with no NaN, infinities or rounding.
- Validators.ValidateNumeric: treats `null` as a present non-number, because the rule module is not available to settle it.
- Validators.ValidateNumberGreaterThanOrEqual: fires only for numbers. JavaScript's coercion of non-numbers in comparisons is not modelled. The same holds for ValidateNumberLessThanOrEqual.
- Feeds.AtMostOneErrorPerField rests on that choice. Under JavaScript's coercion, `null < 2` and `"" < 2` hold, so a `null` or `""` quality could draw a lower-bound error beside the numeric one. The same choice is why a non-numeric `motionDiffThreshold` goes unreported here.
- Validators.ValidateNotEmpty: an object (`Obj`), `{}` included, counts as non-empty, like any value other than undefined, `null`, `""` and `[]`. The rule module's treatment of objects is not available to settle this.
- Order of the two threshold bounds: the upper-bound rule comes before the lower-bound rule (`ValidateFeedInOrder` states this order). For a single value at most one of the two can fail, so the order is never visible in the output.
