/** The feed record and its validation contract.

    `ValidateFeed` is one fixed-order composition of field rules over a
    partial feed record. Its result is the ordered list of errors; the empty
    list means the record is valid.
 */
module Feeds {
  import opened Validators

  /** The keys of a feed record. */
  datatype FieldName =
    | Id | Name | StreamUrl
    | MaxFps | ScaleFactor | VideoQuality
    | SaveVideo | SavePath
    | DetectMotion | MotionDiffThreshold | MotionRegions

  /** A partial feed as it reaches the validator: any subset of the keys,
      each holding any runtime value. */
  type Feed = map<FieldName, Value>

  /** Default encoder quality (lower is better; valid range 2 to 31). */
  const DefaultVideoQuality: real := 24.0
  /** Default frame-rate cap. */
  const DefaultMaxFps: real := 16.0

  /** The human label each rule is given for a field; `id` is given none. */
  function Label(field: FieldName): Option<string>
  {
    match field
    case Id => None
    case Name => Some("Feed name")
    case StreamUrl => Some("Stream URL")
    case MaxFps => Some("Max FPS")
    case ScaleFactor => Some("Scale factor")
    case VideoQuality => Some("Video quality")
    case SavePath => Some("Storage path")
    case MotionDiffThreshold => Some("Motion detection threshold")
    case SaveVideo => None
    case DetectMotion => None
    case MotionRegions => None
  }

  /** The error a rule of the given kind reports about the given field. */
  function Err(field: FieldName, kind: RuleKind): ErrorMessage<FieldName>
  {
    ErrorMessage(field, Message(kind, Label(field)))
  }

  /** The feed validator, in the order in which its rules are declared.
      Two guards are the error LIST of another rule, which is always truthy. */
  function ValidateFeed(feed: Feed): Errors<FieldName>
  {
    MergeErrors(
      [ ValidateNotEmpty(feed, Id, Label(Id)),
        ValidateNotEmpty(feed, Name, Label(Name)),
        ValidateNotEmpty(feed, StreamUrl, Label(StreamUrl)),
        ValidateNumeric(feed, MaxFps, Label(MaxFps)),
        ValidateNumeric(feed, ScaleFactor, Label(ScaleFactor)) ]
      + ValidateIf(
          ErrorList(ValidateNotEmpty(feed, VideoQuality, Label(VideoQuality))),
          [ ValidateNumeric(feed, VideoQuality, Label(VideoQuality)),
            ValidateNumberGreaterThanOrEqual(feed, VideoQuality, 2.0, Label(VideoQuality)),
            ValidateNumberLessThanOrEqual(feed, VideoQuality, 31.0, Label(VideoQuality)) ])
      + ValidateIf(
          Flag(At(feed, SaveVideo) == Bool(true)),
          [ ValidateNotEmpty(feed, SavePath, Label(SavePath)) ])
      + ValidateIf(
          Flag(At(feed, DetectMotion) == Bool(true)),
          ValidateIf(
            ErrorList(ValidateNumeric(feed, MotionDiffThreshold, Label(MotionDiffThreshold))),
            [ ValidateNumberLessThanOrEqual(feed, MotionDiffThreshold, 1.0, Label(MotionDiffThreshold)),
              ValidateNumberGreaterThanOrEqual(feed, MotionDiffThreshold, 0.0, Label(MotionDiffThreshold)) ]))
    )
  }

  // ---------------------------------------------------------------------
  // Reference definitions, stated on values rather than on rule calls
  // ---------------------------------------------------------------------

  /** A one-element error list when `cond` holds, none otherwise. */
  function When(cond: bool, field: FieldName, kind: RuleKind): Errors<FieldName>
  {
    if cond then [Err(field, kind)] else []
  }

  /** Present, and not a number. */
  predicate NotNumber(v: Value)
  {
    v != Absent && !v.Num?
  }

  predicate Below(v: Value, bound: real)
  {
    v.Num? && v.n < bound
  }

  predicate Above(v: Value, bound: real)
  {
    v.Num? && v.n > bound
  }

  /** The fields the validator checks, in the order of its rules. */
  const Checked: seq<FieldName> :=
    [Id, Name, StreamUrl, MaxFps, ScaleFactor, VideoQuality, SavePath, MotionDiffThreshold]

  /** The errors the validator is meant to report about one field, in order. */
  function FieldErrors(feed: Feed, field: FieldName): Errors<FieldName>
  {
    var v := At(feed, field);
    match field
    case Id => When(IsEmptyValue(v), Id, NotEmptyRule)
    case Name => When(IsEmptyValue(v), Name, NotEmptyRule)
    case StreamUrl => When(IsEmptyValue(v), StreamUrl, NotEmptyRule)
    case MaxFps => When(NotNumber(v), MaxFps, NumericRule)
    case ScaleFactor => When(NotNumber(v), ScaleFactor, NumericRule)
    case VideoQuality =>
      When(NotNumber(v), VideoQuality, NumericRule)
      + When(Below(v, 2.0), VideoQuality, AtLeastRule(2.0))
      + When(Above(v, 31.0), VideoQuality, AtMostRule(31.0))
    case SavePath =>
      When(At(feed, SaveVideo) == Bool(true) && IsEmptyValue(v), SavePath, NotEmptyRule)
    case MotionDiffThreshold =>
      var on := At(feed, DetectMotion) == Bool(true);
      When(on && Above(v, 1.0), MotionDiffThreshold, AtMostRule(1.0))
      + When(on && Below(v, 0.0), MotionDiffThreshold, AtLeastRule(0.0))
    case SaveVideo => []
    case DetectMotion => []
    case MotionRegions => []
  }

  /** What a valid feed is: the required strings are set, the optional numbers
      are numbers, the quality lies in [2, 31], a path is set when saving, and
      a threshold given while motion detection is on lies in [0, 1]. */
  predicate Acceptable(feed: Feed)
  {
    && !IsEmptyValue(At(feed, Id))
    && !IsEmptyValue(At(feed, Name))
    && !IsEmptyValue(At(feed, StreamUrl))
    && !NotNumber(At(feed, MaxFps))
    && !NotNumber(At(feed, ScaleFactor))
    && (At(feed, VideoQuality) == Absent
        || (At(feed, VideoQuality).Num? && 2.0 <= At(feed, VideoQuality).n <= 31.0))
    && (At(feed, SaveVideo) == Bool(true) ==> !IsEmptyValue(At(feed, SavePath)))
    && (At(feed, DetectMotion) == Bool(true) && At(feed, MotionDiffThreshold).Num?
        ==> 0.0 <= At(feed, MotionDiffThreshold).n <= 1.0)
  }

  /** The reference errors of all checked fields, concatenated in order. */
  function Reference(feed: Feed): Errors<FieldName>
  {
    FieldErrors(feed, Id) + FieldErrors(feed, Name) + FieldErrors(feed, StreamUrl)
    + FieldErrors(feed, MaxFps) + FieldErrors(feed, ScaleFactor)
    + FieldErrors(feed, VideoQuality)
    + FieldErrors(feed, SavePath)
    + FieldErrors(feed, MotionDiffThreshold)
  }

  /** The reference errors of every checked field, in the order of `Checked`. */
  function Blocks(feed: Feed): seq<Errors<FieldName>>
  {
    [ FieldErrors(feed, Id), FieldErrors(feed, Name), FieldErrors(feed, StreamUrl),
      FieldErrors(feed, MaxFps), FieldErrors(feed, ScaleFactor), FieldErrors(feed, VideoQuality),
      FieldErrors(feed, SavePath), FieldErrors(feed, MotionDiffThreshold) ]
  }

  /** The feed used by the examples: the three required strings and nothing else. */
  function Minimal(): Feed
  {
    map[Id := Str("1"), Name := Str("n"), StreamUrl := Str("u")]
  }

  // ---------------------------------------------------------------------
  // Order of the output
  // ---------------------------------------------------------------------

  /** The output is the in-order concatenation of the rule results: the three
      required strings, the two numeric fields, the quality block, the storage
      block and the motion block. Both list-valued guards are transparent (the
      quality rules and the threshold bounds run whatever the guarding rule
      found, and its own errors are dropped); only the two boolean guards can
      switch a block off. */
  lemma ValidateFeedInOrder(feed: Feed)
    ensures ValidateFeed(feed) == Reference(feed)
  {
    var head := [ ValidateNotEmpty(feed, Id, Label(Id)),
                  ValidateNotEmpty(feed, Name, Label(Name)),
                  ValidateNotEmpty(feed, StreamUrl, Label(StreamUrl)),
                  ValidateNumeric(feed, MaxFps, Label(MaxFps)),
                  ValidateNumeric(feed, ScaleFactor, Label(ScaleFactor)) ];
    var quality := [ ValidateNumeric(feed, VideoQuality, Label(VideoQuality)),
                     ValidateNumberGreaterThanOrEqual(feed, VideoQuality, 2.0, Label(VideoQuality)),
                     ValidateNumberLessThanOrEqual(feed, VideoQuality, 31.0, Label(VideoQuality)) ];
    var save := ValidateIf(Flag(At(feed, SaveVideo) == Bool(true)),
                           [ ValidateNotEmpty(feed, SavePath, Label(SavePath)) ]);
    var bounds := [ ValidateNumberLessThanOrEqual(feed, MotionDiffThreshold, 1.0, Label(MotionDiffThreshold)),
                    ValidateNumberGreaterThanOrEqual(feed, MotionDiffThreshold, 0.0, Label(MotionDiffThreshold)) ];
    var motion := ValidateIf(Flag(At(feed, DetectMotion) == Bool(true)), bounds);
    assert ValidateFeed(feed) == MergeErrors(head + quality + save + motion);
    MergeErrorsAppend(head + quality + save, motion);
    MergeErrorsAppend(head + quality, save);
    MergeErrorsAppend(head, quality);
    HeadBlock(feed);
    QualityBlock(feed);
    SaveBlock(feed);
    MotionBlock(feed);
  }

  lemma MergeBlocks(feed: Feed)
    ensures MergeErrors(Blocks(feed)) == Reference(feed)
  {
    var b := Blocks(feed);
    assert b == b[..5] + b[5..];
    MergeErrorsAppend(b[..5], b[5..]);
    assert b[..5] == [b[0], b[1], b[2], b[3], b[4]];
    MergeErrorsFive(b[0], b[1], b[2], b[3], b[4]);
    assert b[5..] == [b[5], b[6], b[7]];
    MergeErrorsThree(b[5], b[6], b[7]);
  }

  lemma CheckedDistinct()
    ensures forall i, j :: 0 <= i < j < |Checked| ==> Checked[i] != Checked[j]
  {
  }

  lemma BlocksTagged(feed: Feed)
    ensures |Blocks(feed)| == |Checked|
    ensures forall i :: 0 <= i < |Checked| ==> Tagged(Blocks(feed)[i], Checked[i])
  {
    forall i | 0 <= i < |Checked| ensures Tagged(Blocks(feed)[i], Checked[i]) {
      FieldErrorsShape(feed, Checked[i]);
    }
  }

  lemma HeadBlock(feed: Feed)
    ensures MergeErrors([ ValidateNotEmpty(feed, Id, Label(Id)),
                          ValidateNotEmpty(feed, Name, Label(Name)),
                          ValidateNotEmpty(feed, StreamUrl, Label(StreamUrl)),
                          ValidateNumeric(feed, MaxFps, Label(MaxFps)),
                          ValidateNumeric(feed, ScaleFactor, Label(ScaleFactor)) ])
            == FieldErrors(feed, Id) + FieldErrors(feed, Name) + FieldErrors(feed, StreamUrl)
               + FieldErrors(feed, MaxFps) + FieldErrors(feed, ScaleFactor)
  {
    MergeErrorsFive(ValidateNotEmpty(feed, Id, Label(Id)),
                    ValidateNotEmpty(feed, Name, Label(Name)),
                    ValidateNotEmpty(feed, StreamUrl, Label(StreamUrl)),
                    ValidateNumeric(feed, MaxFps, Label(MaxFps)),
                    ValidateNumeric(feed, ScaleFactor, Label(ScaleFactor)));
  }

  lemma QualityBlock(feed: Feed)
    ensures MergeErrors([ ValidateNumeric(feed, VideoQuality, Label(VideoQuality)),
                          ValidateNumberGreaterThanOrEqual(feed, VideoQuality, 2.0, Label(VideoQuality)),
                          ValidateNumberLessThanOrEqual(feed, VideoQuality, 31.0, Label(VideoQuality)) ])
            == FieldErrors(feed, VideoQuality)
  {
    MergeErrorsThree(ValidateNumeric(feed, VideoQuality, Label(VideoQuality)),
                     ValidateNumberGreaterThanOrEqual(feed, VideoQuality, 2.0, Label(VideoQuality)),
                     ValidateNumberLessThanOrEqual(feed, VideoQuality, 31.0, Label(VideoQuality)));
  }

  lemma SaveBlock(feed: Feed)
    ensures MergeErrors(ValidateIf(Flag(At(feed, SaveVideo) == Bool(true)),
                                   [ ValidateNotEmpty(feed, SavePath, Label(SavePath)) ]))
            == FieldErrors(feed, SavePath)
  {
    var a := [ ValidateNotEmpty(feed, SavePath, Label(SavePath)) ];
    assert a[1..] == [];
  }

  lemma MotionBlock(feed: Feed)
    ensures MergeErrors(ValidateIf(Flag(At(feed, DetectMotion) == Bool(true)),
              ValidateIf(ErrorList(ValidateNumeric(feed, MotionDiffThreshold, Label(MotionDiffThreshold))),
                [ ValidateNumberLessThanOrEqual(feed, MotionDiffThreshold, 1.0, Label(MotionDiffThreshold)),
                  ValidateNumberGreaterThanOrEqual(feed, MotionDiffThreshold, 0.0, Label(MotionDiffThreshold)) ])))
            == FieldErrors(feed, MotionDiffThreshold)
  {
    var a := [ ValidateNumberLessThanOrEqual(feed, MotionDiffThreshold, 1.0, Label(MotionDiffThreshold)),
               ValidateNumberGreaterThanOrEqual(feed, MotionDiffThreshold, 0.0, Label(MotionDiffThreshold)) ];
    assert a[1..][1..] == [];
    assert MergeErrors(a) == a[0] + a[1];
  }

  // ---------------------------------------------------------------------
  // Errors field by field
  // ---------------------------------------------------------------------

  /** The reference errors of a field all name that field, and there is at
      most one: the two bounds of one value cannot both fail, and a number is
      never reported as non-numeric. */
  lemma FieldErrorsShape(feed: Feed, field: FieldName)
    ensures |FieldErrors(feed, field)| <= 1
    ensures Tagged(FieldErrors(feed, field), field)
  {
  }

  /** The errors the validator reports about any one field are exactly that
      field's reference errors. */
  lemma ErrorsForField(feed: Feed, field: FieldName)
    ensures ErrorsFor(ValidateFeed(feed), field) == FieldErrors(feed, field)
  {
    ValidateFeedIsMergedBlocks(feed);
    if field in Checked {
      var i :| 0 <= i < |Checked| && Checked[i] == field;
      ErrorsForBlock(feed, i);
    } else {
      ErrorsForUnchecked(feed, field);
    }
  }

  lemma ValidateFeedIsMergedBlocks(feed: Feed)
    ensures ValidateFeed(feed) == MergeErrors(Blocks(feed))
  {
    ValidateFeedInOrder(feed);
    MergeBlocks(feed);
  }

  lemma ErrorsForBlock(feed: Feed, i: nat)
    requires i < |Checked|
    ensures ErrorsFor(MergeErrors(Blocks(feed)), Checked[i]) == FieldErrors(feed, Checked[i])
  {
    BlocksAt(feed, i);
    BlocksTagged(feed);
    CheckedDistinct();
    ErrorsForMerge(Blocks(feed), Checked, Checked[i]);
  }

  lemma BlocksAt(feed: Feed, i: nat)
    requires i < |Checked|
    ensures |Blocks(feed)| == |Checked| && Blocks(feed)[i] == FieldErrors(feed, Checked[i])
  {
  }

  lemma ErrorsForUnchecked(feed: Feed, field: FieldName)
    requires field !in Checked
    ensures ErrorsFor(MergeErrors(Blocks(feed)), field) == FieldErrors(feed, field)
  {
    BlocksTagged(feed);
    CheckedDistinct();
    ErrorsForMerge(Blocks(feed), Checked, field);
  }

  /** At most one error names any one field. */
  lemma AtMostOneErrorPerField(feed: Feed, field: FieldName)
    ensures |ErrorsFor(ValidateFeed(feed), field)| <= 1
  {
    ErrorsForField(feed, field);
    FieldErrorsShape(feed, field);
  }

  /** An empty or missing `id`, `name` or `streamUrl` is reported once, as a
      not-empty error naming that field, and a set one is not reported. */
  lemma RequiredFieldErrors(feed: Feed, field: FieldName)
    requires field in {Id, Name, StreamUrl}
    ensures ErrorsFor(ValidateFeed(feed), field)
            == if IsEmptyValue(At(feed, field)) then [Err(field, NotEmptyRule)] else []
  {
    ErrorsForField(feed, field);
  }

  /** The required-field errors come first, in the order id, name, streamUrl,
      and no later error names a required field. */
  lemma RequiredErrorsFirst(feed: Feed)
    ensures var out := ValidateFeed(feed);
            out == ErrorsFor(out, Id) + ErrorsFor(out, Name) + ErrorsFor(out, StreamUrl) + OptionalErrors(feed)
  {
    ValidateFeedInOrder(feed);
    OptionalErrorsGrouped(feed);
    ErrorsForField(feed, Id);
    ErrorsForField(feed, Name);
    ErrorsForField(feed, StreamUrl);
  }

  lemma OptionalErrorsGrouped(feed: Feed)
    ensures Reference(feed)
            == FieldErrors(feed, Id) + FieldErrors(feed, Name) + FieldErrors(feed, StreamUrl) + OptionalErrors(feed)
  {
  }

  /** The reference errors of the fields after the required ones. */
  function OptionalErrors(feed: Feed): (r: Errors<FieldName>)
    ensures forall e :: e in r ==> e.field !in {Id, Name, StreamUrl}
  {
    FieldErrorsShape(feed, MaxFps);
    FieldErrorsShape(feed, ScaleFactor);
    FieldErrorsShape(feed, VideoQuality);
    FieldErrorsShape(feed, SavePath);
    FieldErrorsShape(feed, MotionDiffThreshold);
    FieldErrors(feed, MaxFps) + FieldErrors(feed, ScaleFactor) + FieldErrors(feed, VideoQuality)
    + FieldErrors(feed, SavePath) + FieldErrors(feed, MotionDiffThreshold)
  }

  /** `maxFps` and `scaleFactor` are only checked to be numbers: any number,
      however large or negative, passes. */
  lemma UnboundedNumericFields(feed: Feed, field: FieldName)
    requires field in {MaxFps, ScaleFactor}
    ensures At(feed, field).Num? || At(feed, field) == Absent ==> ErrorsFor(ValidateFeed(feed), field) == []
    ensures NotNumber(At(feed, field)) ==> ErrorsFor(ValidateFeed(feed), field) == [Err(field, NumericRule)]
  {
    ErrorsForField(feed, field);
  }

  /** What is reported about `videoQuality` holding `v`: a bound error
      outside [2, 31], a numeric error for a non-number, nothing for an absent
      value or a number in range, and never the not-empty error of its guard. */
  ghost predicate QualityReport(v: Value, errs: Errors<FieldName>)
  {
    && (errs == [] <==> v == Absent || (v.Num? && 2.0 <= v.n <= 31.0))
    && (v.Num? && v.n < 2.0 ==> errs == [Err(VideoQuality, AtLeastRule(2.0))])
    && (v.Num? && v.n > 31.0 ==> errs == [Err(VideoQuality, AtMostRule(31.0))])
    && (NotNumber(v) ==> errs == [Err(VideoQuality, NumericRule)])
    && Err(VideoQuality, NotEmptyRule) !in errs
  }

  /** The not-empty check on `videoQuality` is only a list-valued guard: the
      numeric and bound rules always run, and the guard's own error is never
      reported. */
  lemma VideoQualityErrors(feed: Feed)
    ensures QualityReport(At(feed, VideoQuality), ErrorsFor(ValidateFeed(feed), VideoQuality))
  {
    ErrorsForField(feed, VideoQuality);
    QualityReference(feed);
  }

  lemma QualityReference(feed: Feed)
    ensures QualityReport(At(feed, VideoQuality), FieldErrors(feed, VideoQuality))
  {
  }

  /** What is reported about `savePath`: only when `saveVideo` is exactly
      `true`, and then exactly one error for a missing or empty path. */
  ghost predicate SavePathReport(saveVideo: Value, path: Value, errs: Errors<FieldName>)
  {
    && (errs != [] ==> saveVideo == Bool(true))
    && (saveVideo == Bool(true) && IsEmptyValue(path) ==> errs == [Err(SavePath, NotEmptyRule)])
    && (errs == [] <==> saveVideo != Bool(true) || !IsEmptyValue(path))
  }

  lemma SavePathErrors(feed: Feed)
    ensures SavePathReport(At(feed, SaveVideo), At(feed, SavePath), ErrorsFor(ValidateFeed(feed), SavePath))
  {
    ErrorsForField(feed, SavePath);
    SavePathReference(feed);
  }

  lemma SavePathReference(feed: Feed)
    ensures SavePathReport(At(feed, SaveVideo), At(feed, SavePath), FieldErrors(feed, SavePath))
  {
  }

  /** What is reported about `motionDiffThreshold` holding `t`: a range check
      against [0, 1] only when `detectMotion` is exactly `true`, and never the
      numeric error of its guard, so a non-number passes. */
  ghost predicate ThresholdReport(detectMotion: Value, t: Value, errs: Errors<FieldName>)
  {
    var on := detectMotion == Bool(true);
    && (errs != [] ==> on)
    && (errs == [] <==> !on || !t.Num? || 0.0 <= t.n <= 1.0)
    && (on && t.Num? && t.n > 1.0 ==> errs == [Err(MotionDiffThreshold, AtMostRule(1.0))])
    && (on && t.Num? && t.n < 0.0 ==> errs == [Err(MotionDiffThreshold, AtLeastRule(0.0))])
    && Err(MotionDiffThreshold, NumericRule) !in errs
  }

  lemma MotionThresholdErrors(feed: Feed)
    ensures ThresholdReport(At(feed, DetectMotion), At(feed, MotionDiffThreshold),
                            ErrorsFor(ValidateFeed(feed), MotionDiffThreshold))
  {
    ErrorsForField(feed, MotionDiffThreshold);
    ThresholdReference(feed);
  }

  lemma ThresholdReference(feed: Feed)
    ensures ThresholdReport(At(feed, DetectMotion), At(feed, MotionDiffThreshold), FieldErrors(feed, MotionDiffThreshold))
  {
  }

  /** The list-valued guard on the threshold bounds makes no visible
      difference: whenever the numeric check on the threshold fails, the two
      bound rules report nothing either, so a guard that let the bounds run
      only on a passing numeric check would give the same output. */
  lemma ThresholdGuardInvisible(feed: Feed)
    ensures ValidateNumeric(feed, MotionDiffThreshold, Label(MotionDiffThreshold)) != []
            ==> MergeErrors(
                  [ ValidateNumberLessThanOrEqual(feed, MotionDiffThreshold, 1.0, Label(MotionDiffThreshold)),
                    ValidateNumberGreaterThanOrEqual(feed, MotionDiffThreshold, 0.0, Label(MotionDiffThreshold)) ])
                == []
  {
    var a := [ ValidateNumberLessThanOrEqual(feed, MotionDiffThreshold, 1.0, Label(MotionDiffThreshold)),
               ValidateNumberGreaterThanOrEqual(feed, MotionDiffThreshold, 0.0, Label(MotionDiffThreshold)) ];
    assert a[1..][1..] == [];
  }

  /** The quality guard, by contrast, is visible: a present quality that
      fails the not-empty guard is still reported, by the numeric rule. */
  lemma QualityGuardVisible(feed: Feed)
    ensures At(feed, VideoQuality) != Absent && ValidateNotEmpty(feed, VideoQuality, Label(VideoQuality)) != []
            ==> ErrorsFor(ValidateFeed(feed), VideoQuality) == [Err(VideoQuality, NumericRule)]
  {
    VideoQualityErrors(feed);
  }

  /** The two switches and `motionRegions` are never reported on. */
  lemma UncheckedFields(feed: Feed, field: FieldName)
    requires field in {SaveVideo, DetectMotion, MotionRegions}
    ensures ErrorsFor(ValidateFeed(feed), field) == []
  {
    ErrorsForField(feed, field);
  }

  /** Every error names one of the checked fields. */
  lemma ErrorsNameCheckedFields(feed: Feed)
    ensures forall e :: e in ValidateFeed(feed) ==> e.field in Checked
  {
    forall e | e in ValidateFeed(feed) ensures e.field in Checked {
      ErrorsForField(feed, e.field);
      ErrorsForMembers(ValidateFeed(feed), e.field, e);
      UncheckedFieldErrors(feed, e.field);
    }
  }

  lemma UncheckedFieldErrors(feed: Feed, field: FieldName)
    ensures field !in Checked ==> FieldErrors(feed, field) == []
  {
  }

  /** `motionRegions` has no effect on the result. */
  lemma MotionRegionsIgnored(feed: Feed, regions: Value)
    ensures ValidateFeed(feed[MotionRegions := regions]) == ValidateFeed(feed)
  {
    var other := feed[MotionRegions := regions];
    ValidateFeedIsMergedBlocks(feed);
    ValidateFeedIsMergedBlocks(other);
    SameBlocks(feed, other);
  }

  lemma SameBlocks(feed: Feed, other: Feed)
    requires forall k :: k != MotionRegions ==> At(other, k) == At(feed, k)
    ensures Blocks(other) == Blocks(feed)
  {
    forall k | k in Checked ensures FieldErrors(other, k) == FieldErrors(feed, k) {
      SameFieldErrors(feed, other, k);
    }
  }

  lemma SameFieldErrors(feed: Feed, other: Feed, field: FieldName)
    requires forall k :: k != MotionRegions ==> At(other, k) == At(feed, k)
    ensures FieldErrors(other, field) == FieldErrors(feed, field)
  {
  }

  /** The validator reports nothing exactly when the feed is acceptable. */
  lemma ValidateFeedAccepts(feed: Feed)
    ensures ValidateFeed(feed) == [] <==> Acceptable(feed)
  {
    ValidateFeedInOrder(feed);
    BlocksEmpty(feed);
  }

  lemma BlocksEmpty(feed: Feed)
    ensures Reference(feed) == []
            <==> Acceptable(feed)
  {
  }

  /** The validator's result on a feed whose reference errors are known. */
  lemma ValidateFeedIs(feed: Feed, expected: Errors<FieldName>)
    requires Reference(feed) == expected
    ensures ValidateFeed(feed) == expected
  {
    ValidateFeedInOrder(feed);
  }

  // ---------------------------------------------------------------------
  // Examples
  // ---------------------------------------------------------------------

  /** What the example feed holds under each key. */
  lemma MinimalAt()
    ensures At(Minimal(), Id) == Str("1") && !IsEmptyValue(At(Minimal(), Id))
    ensures At(Minimal(), Name) == Str("n") && !IsEmptyValue(At(Minimal(), Name))
    ensures At(Minimal(), StreamUrl) == Str("u") && !IsEmptyValue(At(Minimal(), StreamUrl))
    ensures forall k :: k !in {Id, Name, StreamUrl} ==> At(Minimal(), k) == Absent
  {
  }

  /** The three required strings alone make a valid feed. */
  lemma MinimalFeedIsValid()
    ensures ValidateFeed(Minimal()) == []
  {
    MinimalAt();
    assert Acceptable(Minimal());
    ValidateFeedAccepts(Minimal());
  }

  /** An empty record is missing all three required fields, in order. */
  lemma EmptyRecordErrors()
    ensures ValidateFeed(map[]) == [Err(Id, NotEmptyRule), Err(Name, NotEmptyRule), Err(StreamUrl, NotEmptyRule)]
  {
    ValidateFeedIs(map[], [Err(Id, NotEmptyRule), Err(Name, NotEmptyRule), Err(StreamUrl, NotEmptyRule)]);
  }

  /** Quality 1 is below the lower bound. */
  lemma VideoQualityOneTooLow()
    ensures ValidateFeed(Minimal()[VideoQuality := Num(1.0)]) == [Err(VideoQuality, AtLeastRule(2.0))]
  {
    VideoQualityOneTooLowReference();
    ValidateFeedIs(Minimal()[VideoQuality := Num(1.0)], [Err(VideoQuality, AtLeastRule(2.0))]);
  }

  lemma VideoQualityOneTooLowReference()
    ensures Reference(Minimal()[VideoQuality := Num(1.0)]) == [Err(VideoQuality, AtLeastRule(2.0))]
  {
    MinimalAt();
  }

  /** Quality 32 is above the upper bound. */
  lemma VideoQualityThirtyTwoTooHigh()
    ensures ValidateFeed(Minimal()[VideoQuality := Num(32.0)]) == [Err(VideoQuality, AtMostRule(31.0))]
  {
    VideoQualityThirtyTwoTooHighReference();
    ValidateFeedIs(Minimal()[VideoQuality := Num(32.0)], [Err(VideoQuality, AtMostRule(31.0))]);
  }

  lemma VideoQualityThirtyTwoTooHighReference()
    ensures Reference(Minimal()[VideoQuality := Num(32.0)]) == [Err(VideoQuality, AtMostRule(31.0))]
  {
    MinimalAt();
  }

  /** An empty quality string fails the not-empty guard, yet the guarded
      numeric rule still runs and its error is the one reported. */
  lemma EmptyVideoQualityStillChecked()
    ensures ValidateNotEmpty(Minimal()[VideoQuality := Str("")], VideoQuality, Label(VideoQuality)) != []
    ensures ValidateFeed(Minimal()[VideoQuality := Str("")]) == [Err(VideoQuality, NumericRule)]
  {
    EmptyVideoQualityStillCheckedReference();
    ValidateFeedIs(Minimal()[VideoQuality := Str("")], [Err(VideoQuality, NumericRule)]);
  }

  lemma EmptyVideoQualityStillCheckedReference()
    ensures Reference(Minimal()[VideoQuality := Str("")]) == [Err(VideoQuality, NumericRule)]
  {
    MinimalAt();
  }

  /** Saving without a path reports exactly one error, naming `savePath`. */
  lemma SaveWithoutPath()
    ensures ValidateFeed(Minimal()[SaveVideo := Bool(true)]) == [Err(SavePath, NotEmptyRule)]
  {
    SaveWithoutPathReference();
    ValidateFeedIs(Minimal()[SaveVideo := Bool(true)], [Err(SavePath, NotEmptyRule)]);
  }

  lemma SaveWithoutPathReference()
    ensures Reference(Minimal()[SaveVideo := Bool(true)]) == [Err(SavePath, NotEmptyRule)]
  {
    MinimalAt();
  }

  /** A threshold of 1.5 with motion detection on is above the upper bound. */
  lemma MotionThresholdTooHigh()
    ensures ValidateFeed(Minimal()[DetectMotion := Bool(true)][MotionDiffThreshold := Num(1.5)])
            == [Err(MotionDiffThreshold, AtMostRule(1.0))]
  {
    MotionThresholdTooHighReference();
    ValidateFeedIs(Minimal()[DetectMotion := Bool(true)][MotionDiffThreshold := Num(1.5)], [Err(MotionDiffThreshold, AtMostRule(1.0))]);
  }

  lemma MotionThresholdTooHighReference()
    ensures Reference(Minimal()[DetectMotion := Bool(true)][MotionDiffThreshold := Num(1.5)]) == [Err(MotionDiffThreshold, AtMostRule(1.0))]
  {
    MinimalAt();
  }

  /** The default quality lies in [2, 31] and passes every rule on `videoQuality`. */
  lemma DefaultVideoQualityPasses(feed: Feed)
    ensures 2.0 <= DefaultVideoQuality <= 31.0
    ensures ErrorsFor(ValidateFeed(feed[VideoQuality := Num(DefaultVideoQuality)]), VideoQuality) == []
  {
    VideoQualityErrors(feed[VideoQuality := Num(DefaultVideoQuality)]);
  }

  /** The default frame rate passes the numeric rule on `maxFps`. */
  lemma DefaultMaxFpsPasses(feed: Feed)
    ensures ErrorsFor(ValidateFeed(feed[MaxFps := Num(DefaultMaxFps)]), MaxFps) == []
  {
    ErrorsForField(feed[MaxFps := Num(DefaultMaxFps)], MaxFps);
  }
}
