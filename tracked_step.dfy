/**
 * Tracked-item steps: the step types of the selection -> frequency -> activity flow,
 * the normalisation of which of them a task includes, and the form step whose fields
 * are rebuilt from the items the participant has selected so far.
 */
module TrackedStep {
  import opened Wrappers
  import opened PropertyList

  // ---------------------------------------------------------------------------
  // Step types
  // ---------------------------------------------------------------------------

  datatype TrackingStepType = Introduction | Changed | Completion | Activity | Selection | Frequency

  function RawValue(t: TrackingStepType): (s: string)
    ensures |s| > 0
  {
    match t
    case Introduction => "introduction"
    case Changed => "changed"
    case Completion => "completion"
    case Activity => "activity"
    case Selection => "selection"
    case Frequency => "frequency"
  }

  /** `SBATrackingStepType(rawValue:)`: a string is accepted only as the raw value of the type it names. */
  function ParseTrackingType(s: string): (r: Option<TrackingStepType>)
    ensures r.Some? ==> RawValue(r.value) == s
  {
    match s
    case "introduction" => Some(Introduction)
    case "changed" => Some(Changed)
    case "completion" => Some(Completion)
    case "activity" => Some(Activity)
    case "selection" => Some(Selection)
    case "frequency" => Some(Frequency)
    case _ => None
  }

  lemma {:induction false} ParseRawValue(t: TrackingStepType)
    ensures ParseTrackingType(RawValue(t)) == Some(t)
  {
    match t
    case Introduction =>
    case Changed =>
    case Completion =>
    case Activity =>
    case Selection =>
    case Frequency =>
  }

  /** Raw values tell the types apart (the source's `==` compares raw values). */
  lemma RawValueInjective(t1: TrackingStepType, t2: TrackingStepType)
    ensures RawValue(t1) == RawValue(t2) <==> t1 == t2
  {
    ParseRawValue(t1);
    ParseRawValue(t2);
  }

  /** The types whose step is a form rebuilt from the selection. */
  function IsTrackedFormStepType(t: TrackingStepType): (r: bool)
    ensures r <==> t == Selection || t == Frequency || t == Activity
  {
    match t
    case Selection | Frequency | Activity => true
    case _ => false
  }

  // ---------------------------------------------------------------------------
  // Which steps a tracking task includes
  // ---------------------------------------------------------------------------

  datatype TrackingStepIncludes = TrackingStepIncludes(nextStepIfNoChange: TrackingStepType, includes: seq<TrackingStepType>)

  /**
   * `SBATrackingStepIncludes.init`: a task that asks whether anything changed but has no
   * activity step gets the whole changed -> selection -> frequency -> activity chain and
   * completes when nothing changed; any other list is kept and falls through to the activity.
   */
  function MakeIncludes(includes: seq<TrackingStepType>): (r: TrackingStepIncludes)
    ensures Changed in includes && Activity !in includes ==>
      r.includes == [Changed, Selection, Frequency, Activity] && r.nextStepIfNoChange == Completion
    ensures !(Changed in includes && Activity !in includes) ==>
      r.includes == includes && r.nextStepIfNoChange == Activity
    ensures Changed in includes ==> Activity in r.includes
    ensures Changed in r.includes <==> Changed in includes
    ensures r.nextStepIfNoChange == Completion <==> Changed in includes && Activity !in includes
  {
    if Changed in includes && Activity !in includes then
      TrackingStepIncludes(Completion, [Changed, Selection, Frequency, Activity])
    else
      TrackingStepIncludes(Activity, includes)
  }

  /**
   * Normalising an already normalised list keeps the list; the step after "no change" of
   * the renormalised value is always the activity, even where the first normalisation chose completion.
   */
  lemma MakeIncludesIdempotent(includes: seq<TrackingStepType>)
    ensures MakeIncludes(MakeIncludes(includes).includes).includes == MakeIncludes(includes).includes
    ensures MakeIncludes(MakeIncludes(includes).includes).nextStepIfNoChange == Activity
  {
  }

  const StandAloneSurvey := MakeIncludes([Introduction, Selection, Frequency, Completion])
  const ActivityOnly := MakeIncludes([Activity])
  const SurveyAndActivity := MakeIncludes([Introduction, Selection, Frequency, Activity])
  const ChangedAndActivity := MakeIncludes([Changed, Selection, Frequency, Activity])
  const ChangedOnly := MakeIncludes([Changed])

  /** The five presets, as normalised by `MakeIncludes`. */
  lemma PresetIncludes()
    ensures StandAloneSurvey == TrackingStepIncludes(Activity, [Introduction, Selection, Frequency, Completion])
    ensures ActivityOnly == TrackingStepIncludes(Activity, [Activity])
    ensures SurveyAndActivity == TrackingStepIncludes(Activity, [Introduction, Selection, Frequency, Activity])
    ensures ChangedAndActivity == TrackingStepIncludes(Activity, [Changed, Selection, Frequency, Activity])
    ensures ChangedOnly == TrackingStepIncludes(Completion, [Changed, Selection, Frequency, Activity])
  {
    assert Changed !in [Introduction, Selection, Frequency, Completion];
    assert Changed !in [Activity];
    assert Changed !in [Introduction, Selection, Frequency, Activity];
    assert Activity in [Changed, Selection, Frequency, Activity];
    assert Activity !in [Changed];
  }

  /** "Changed only" runs the same steps as "changed and activity", but completes when nothing changed. */
  lemma ChangedOnlyMatchesChangedAndActivity()
    ensures ChangedOnly.includes == ChangedAndActivity.includes
    ensures ChangedOnly.nextStepIfNoChange == Completion
    ensures ChangedAndActivity.nextStepIfNoChange == Activity
  {
    assert Activity !in [Changed];
    assert Activity in [Changed, Selection, Frequency, Activity];
  }

  function IncludeSurvey(inc: TrackingStepIncludes): (r: bool)
    ensures r <==> Introduction in inc.includes || Changed in inc.includes
  {
    Introduction in inc.includes || Changed in inc.includes
  }

  function ShouldInclude(inc: TrackingStepIncludes, t: TrackingStepType): (r: bool)
    ensures r <==> exists i :: 0 <= i < |inc.includes| && inc.includes[i] == t
  {
    t in inc.includes
  }

  /** Normalisation keeps the survey exactly when the requested list had an introduction or a change step. */
  lemma IncludeSurveyNormalised(includes: seq<TrackingStepType>)
    ensures IncludeSurvey(MakeIncludes(includes)) <==> Introduction in includes || Changed in includes
  {
  }

  // ---------------------------------------------------------------------------
  // Step descriptions held in dictionaries
  // ---------------------------------------------------------------------------

  /** `dict.trackingType`: the string under "trackingType", parsed. */
  function DictionaryTrackingType(d: Dictionary): (r: Option<TrackingStepType>)
    ensures r.Some? ==> StringFor(d, "trackingType") == Some(RawValue(r.value))
    ensures StringFor(d, "trackingType").None? ==> r.None?
    ensures StringFor(d, "trackingType").Some? ==> r == ParseTrackingType(StringFor(d, "trackingType").value)
  {
    match StringFor(d, "trackingType")
    case Some(s) => ParseTrackingType(s)
    case None => None
  }

  /** `dict.textFormat`: the string under "textFormat". */
  function DictionaryTextFormat(d: Dictionary): (r: Option<string>)
    ensures r.Some? <==> "textFormat" in d && d["textFormat"].PString?
    ensures r.Some? ==> d["textFormat"] == PString(r.value)
  {
    StringFor(d, "textFormat")
  }

  // ---------------------------------------------------------------------------
  // Form contents
  // ---------------------------------------------------------------------------

  /** An item the participant can track (a medication, say). */
  datatype TrackedDataObject = TrackedDataObject(
    identifier: string, text: string, shortText: string, usesFrequencyRange: bool, tracking: bool)

  datatype TextChoice = TextChoice(text: string, detailText: Option<string>, value: string, exclusive: bool)

  /** An answer format: a multiple-choice list, or one the toolkit builds (such as a scale) and the model does not look into. */
  datatype AnswerFormat = MultipleChoiceFormat(choices: seq<TextChoice>) | ToolkitFormat(tag: nat)

  datatype FormItem = FormItem(identifier: string, text: Option<string>, answerFormat: Option<AnswerFormat>)

  /**
   * The localised strings the step uses: the "none of the above" and "skip" choice labels,
   * and the formatting of the activity text from its format and the tracked items' short texts.
   */
  datatype Localization = Localization(
    noneOfTheAbove: string, skipChoice: string, formatWithList: (string, seq<string>) -> string)

  /** A tracked item as a choice: its text, no detail, its identifier as value, not exclusive. */
  function TextChoiceFor(item: TrackedDataObject): (c: TextChoice)
    ensures c.text == item.text && c.value == item.identifier && !c.exclusive && c.detailText.None?
  {
    TextChoice(item.text, None, item.identifier, false)
  }

  /**
   * The choices of the selection form: the selected items in order, then an exclusive
   * "None", then an exclusive "Skipped" if and only if the step was optional.
   */
  function SelectionChoices(selected: seq<TrackedDataObject>, optional: bool, loc: Localization): (cs: seq<TextChoice>)
    ensures |cs| == |selected| + (if optional then 2 else 1)
    ensures forall i :: 0 <= i < |selected| ==> cs[i] == TextChoiceFor(selected[i])
    ensures cs[|selected|] == TextChoice(loc.noneOfTheAbove, None, "None", true)
    ensures optional ==> cs[|selected| + 1] == TextChoice(loc.skipChoice, None, "Skipped", true)
    ensures forall i :: 0 <= i < |cs| ==> (cs[i].exclusive <==> |selected| <= i)
  {
    seq(|selected|, i requires 0 <= i < |selected| => TextChoiceFor(selected[i]))
    + [TextChoice(loc.noneOfTheAbove, None, "None", true)]
    + (if optional then [TextChoice(loc.skipChoice, None, "Skipped", true)] else [])
  }

  /** The frequency form item of one selected item: present when the item uses a frequency range. */
  function FrequencyItemFor(item: TrackedDataObject, format: Option<AnswerFormat>): (r: Option<FormItem>)
    ensures r.Some? <==> item.usesFrequencyRange
    ensures r.Some? ==> r.value == FormItem(item.identifier, Some(item.text), format)
  {
    if item.usesFrequencyRange then Some(FormItem(item.identifier, Some(item.text), format)) else None
  }

  function FrequencyItems(selected: seq<TrackedDataObject>, format: Option<AnswerFormat>): (r: seq<Option<FormItem>>)
    ensures |r| == |selected|
    ensures forall i :: 0 <= i < |selected| ==> r[i] == FrequencyItemFor(selected[i], format)
  {
    seq(|selected|, i requires 0 <= i < |selected| => FrequencyItemFor(selected[i], format))
  }

  /** The frequency form: one item per selected item that uses a frequency range, keyed by its identifier. */
  function FrequencyFormItems(selected: seq<TrackedDataObject>, format: Option<AnswerFormat>): (items: seq<FormItem>)
    ensures |items| <= |selected|
  {
    Somes(FrequencyItems(selected, format))
  }

  /** The frequency form is empty exactly when no selected item uses a frequency range. */
  lemma FrequencyFormItemsEmptyIff(selected: seq<TrackedDataObject>, format: Option<AnswerFormat>)
    ensures FrequencyFormItems(selected, format) == [] <==> forall i :: 0 <= i < |selected| ==> !selected[i].usesFrequencyRange
  {
    SomesEmptyIff(FrequencyItems(selected, format));
  }

  /** Every item of the frequency form is the item of a selected item that uses a frequency range. */
  lemma FrequencyFormItemsSound(selected: seq<TrackedDataObject>, format: Option<AnswerFormat>)
    ensures forall k :: 0 <= k < |FrequencyFormItems(selected, format)| ==>
      exists i :: 0 <= i < |selected| && FrequencyItemFor(selected[i], format) == Some(FrequencyFormItems(selected, format)[k])
  {
    var xs := FrequencyItems(selected, format);
    assert FrequencyFormItems(selected, format) == Somes(xs);
    SomesSound(xs);
  }

  /** Building the frequency form distributes over concatenation of selections, which fixes the order of its items. */
  lemma FrequencyFormItemsAppend(a: seq<TrackedDataObject>, b: seq<TrackedDataObject>, format: Option<AnswerFormat>)
    ensures FrequencyFormItems(a + b, format) == FrequencyFormItems(a, format) + FrequencyFormItems(b, format)
  {
    assert FrequencyItems(a + b, format) == FrequencyItems(a, format) + FrequencyItems(b, format);
    SomesAppend(FrequencyItems(a, format), FrequencyItems(b, format));
  }

  /** When every selected item uses a frequency range, the form has exactly one item per selected item, in order. */
  lemma FrequencyFormItemsAllUse(selected: seq<TrackedDataObject>, format: Option<AnswerFormat>)
    requires forall i :: 0 <= i < |selected| ==> selected[i].usesFrequencyRange
    ensures |FrequencyFormItems(selected, format)| == |selected|
    ensures forall i :: 0 <= i < |selected| ==>
      FrequencyFormItems(selected, format)[i] == FormItem(selected[i].identifier, Some(selected[i].text), format)
  {
    SomesAllPresent(FrequencyItems(selected, format));
  }

  /** The short text of one selected item, when it is tracked. */
  function TrackedShortText(item: TrackedDataObject): (r: Option<string>)
    ensures r.Some? <==> item.tracking
    ensures r.Some? ==> r.value == item.shortText
  {
    if item.tracking then Some(item.shortText) else None
  }

  function ShortTextItems(selected: seq<TrackedDataObject>): (r: seq<Option<string>>)
    ensures |r| == |selected|
    ensures forall i :: 0 <= i < |selected| ==> r[i] == TrackedShortText(selected[i])
  {
    seq(|selected|, i requires 0 <= i < |selected| => TrackedShortText(selected[i]))
  }

  /** The short texts of the selected items that are tracked, in order. */
  function TrackedShortTexts(selected: seq<TrackedDataObject>): (ts: seq<string>)
    ensures |ts| <= |selected|
  {
    Somes(ShortTextItems(selected))
  }

  /** No short text is listed exactly when no selected item is tracked. */
  lemma TrackedShortTextsEmptyIff(selected: seq<TrackedDataObject>)
    ensures TrackedShortTexts(selected) == [] <==> forall i :: 0 <= i < |selected| ==> !selected[i].tracking
  {
    SomesEmptyIff(ShortTextItems(selected));
  }

  /** Every listed short text is the short text of a tracked selected item. */
  lemma TrackedShortTextsSound(selected: seq<TrackedDataObject>)
    ensures forall k :: 0 <= k < |TrackedShortTexts(selected)| ==>
      exists i :: 0 <= i < |selected| && TrackedShortText(selected[i]) == Some(TrackedShortTexts(selected)[k])
    ensures forall t :: t in TrackedShortTexts(selected) ==>
      exists i :: 0 <= i < |selected| && selected[i].tracking && selected[i].shortText == t
  {
    var xs := ShortTextItems(selected);
    assert TrackedShortTexts(selected) == Somes(xs);
    SomesSound(xs);
    forall t | t in TrackedShortTexts(selected)
      ensures exists i :: 0 <= i < |selected| && selected[i].tracking && selected[i].shortText == t
    {
      var k :| 0 <= k < |TrackedShortTexts(selected)| && TrackedShortTexts(selected)[k] == t;
      var i :| 0 <= i < |selected| && TrackedShortText(selected[i]) == Some(t);
      assert selected[i].tracking && selected[i].shortText == t;
    }
  }

  /** Listing the short texts of two selections in turn concatenates them, so selection order is kept. */
  lemma TrackedShortTextsAppend(a: seq<TrackedDataObject>, b: seq<TrackedDataObject>)
    ensures TrackedShortTexts(a + b) == TrackedShortTexts(a) + TrackedShortTexts(b)
  {
    assert ShortTextItems(a + b) == ShortTextItems(a) + ShortTextItems(b);
    SomesAppend(ShortTextItems(a), ShortTextItems(b));
  }

  /** When every selected item is tracked, the list holds each item's short text, in order. */
  lemma TrackedShortTextsAllTracked(selected: seq<TrackedDataObject>)
    requires forall i :: 0 <= i < |selected| ==> selected[i].tracking
    ensures |TrackedShortTexts(selected)| == |selected|
    ensures forall i :: 0 <= i < |selected| ==> TrackedShortTexts(selected)[i] == selected[i].shortText
  {
    SomesAllPresent(ShortTextItems(selected));
  }

  // ---------------------------------------------------------------------------
  // The update rule, on values
  // ---------------------------------------------------------------------------

  /** The fields of a tracked form step that an update may change. */
  datatype FormState = FormState(formItems: Option<seq<FormItem>>, optional: bool, text: Option<string>, shouldSkipStep: bool)

  /** The fields of a tracked form step that an update reads but never changes. */
  datatype StepConfig = StepConfig(
    identifier: string, trackingType: TrackingStepType, textFormat: Option<string>, frequencyAnswerFormat: Option<AnswerFormat>)

  /** The first selection update: one multiple-choice item over the selection choices for the current `optional`, which is cleared. */
  function BuiltSelection(s: FormState, c: StepConfig, selected: seq<TrackedDataObject>, loc: Localization): (r: FormState)
    ensures r.formItems.Some? && |r.formItems.value| == 1
    ensures r.formItems.value[0] == FormItem(c.identifier, None, Some(MultipleChoiceFormat(SelectionChoices(selected, s.optional, loc))))
    ensures !r.optional && r.text == s.text && r.shouldSkipStep == s.shouldSkipStep
  {
    var format := MultipleChoiceFormat(SelectionChoices(selected, s.optional, loc));
    FormState(Some([FormItem(c.identifier, None, Some(format))]), false, s.text, s.shouldSkipStep)
  }

  /** The frequency update: the frequency form replaces the items, and the step is skipped exactly when it is empty. */
  function UpdatedFrequency(s: FormState, c: StepConfig, selected: seq<TrackedDataObject>): (r: FormState)
    ensures r.formItems == Some(FrequencyFormItems(selected, c.frequencyAnswerFormat))
    ensures r.shouldSkipStep <==> forall i :: 0 <= i < |selected| ==> !selected[i].usesFrequencyRange
    ensures r.optional == s.optional && r.text == s.text
  {
    FrequencyFormItemsEmptyIff(selected, c.frequencyAnswerFormat);
    var items := FrequencyFormItems(selected, c.frequencyAnswerFormat);
    s.(formItems := Some(items), shouldSkipStep := |items| == 0)
  }

  /** The activity update: skipped exactly when nothing is tracked; the text is formatted only with a format and a tracked item. */
  function UpdatedActivity(s: FormState, c: StepConfig, selected: seq<TrackedDataObject>, loc: Localization): (r: FormState)
    ensures r.shouldSkipStep <==> forall i :: 0 <= i < |selected| ==> !selected[i].tracking
    ensures r.text != s.text ==> c.textFormat.Some? && exists i :: 0 <= i < |selected| && selected[i].tracking
    ensures r.formItems == s.formItems && r.optional == s.optional
  {
    TrackedShortTextsEmptyIff(selected);
    var tracked := TrackedShortTexts(selected);
    s.(shouldSkipStep := |tracked| == 0,
       text := if c.textFormat.Some? && |tracked| > 0 then Some(loc.formatWithList(c.textFormat.value, tracked)) else s.text)
  }

  /** The state after `updateWithSelectedItems`, by tracking type. */
  function Updated(s: FormState, c: StepConfig, selected: seq<TrackedDataObject>, loc: Localization): (r: FormState)
    ensures !IsTrackedFormStepType(c.trackingType) ==> r == s
    ensures c.trackingType == Selection && s.formItems.Some? ==> r == s
    ensures c.trackingType == Selection && s.formItems.None? ==> r == BuiltSelection(s, c, selected, loc)
    ensures c.trackingType == Frequency ==> r == UpdatedFrequency(s, c, selected)
    ensures c.trackingType == Activity ==> r == UpdatedActivity(s, c, selected, loc)
  {
    match c.trackingType
    case Selection => if s.formItems.None? then BuiltSelection(s, c, selected, loc) else s
    case Frequency => UpdatedFrequency(s, c, selected)
    case Activity => UpdatedActivity(s, c, selected, loc)
    case _ => s
  }

  /** A selection step's first update builds one multiple-choice item under the step's identifier and clears `optional`. */
  lemma SelectionBuild(s: FormState, c: StepConfig, selected: seq<TrackedDataObject>, loc: Localization)
    requires c.trackingType == Selection && s.formItems.None?
    ensures var r := Updated(s, c, selected, loc);
      && r.formItems.Some? && |r.formItems.value| == 1
      && r.formItems.value[0].identifier == c.identifier
      && r.formItems.value[0].answerFormat == Some(MultipleChoiceFormat(SelectionChoices(selected, s.optional, loc)))
      && !r.optional && r.text == s.text && r.shouldSkipStep == s.shouldSkipStep
  {
  }

  /** The selection form is built once: later updates, whatever the selection, leave it as it is. */
  lemma SelectionBuiltOnce(
    s: FormState, c: StepConfig, first: seq<TrackedDataObject>, later: seq<TrackedDataObject>, loc: Localization)
    requires c.trackingType == Selection
    ensures Updated(Updated(s, c, first, loc), c, later, loc) == Updated(s, c, first, loc)
  {
  }

  /** Introduction, changed and completion steps are never touched. */
  lemma NonFormStepsUnchanged(s: FormState, c: StepConfig, selected: seq<TrackedDataObject>, loc: Localization)
    requires !IsTrackedFormStepType(c.trackingType)
    ensures Updated(s, c, selected, loc) == s
  {
  }

  /** A frequency step shows the selected items that use a frequency range, and is skipped exactly when there are none. */
  lemma FrequencyUpdate(s: FormState, c: StepConfig, selected: seq<TrackedDataObject>, loc: Localization)
    requires c.trackingType == Frequency
    ensures var r := Updated(s, c, selected, loc);
      && r.formItems == Some(FrequencyFormItems(selected, c.frequencyAnswerFormat))
      && (r.shouldSkipStep <==> forall i :: 0 <= i < |selected| ==> !selected[i].usesFrequencyRange)
      && r.optional == s.optional && r.text == s.text
  {
    FrequencyFormItemsEmptyIff(selected, c.frequencyAnswerFormat);
  }

  /**
   * An activity step is skipped exactly when no selected item is tracked; its text is
   * rewritten only when it has a text format and some item is tracked.
   */
  lemma ActivityUpdate(s: FormState, c: StepConfig, selected: seq<TrackedDataObject>, loc: Localization)
    requires c.trackingType == Activity
    ensures var r := Updated(s, c, selected, loc);
      && (r.shouldSkipStep <==> forall i :: 0 <= i < |selected| ==> !selected[i].tracking)
      && (r.text != s.text ==> c.textFormat.Some? && exists i :: 0 <= i < |selected| && selected[i].tracking)
      && r.formItems == s.formItems && r.optional == s.optional
  {
    TrackedShortTextsEmptyIff(selected);
  }

  /** Updating twice with the same selection is the same as updating once. */
  lemma UpdateIdempotent(s: FormState, c: StepConfig, selected: seq<TrackedDataObject>, loc: Localization)
    ensures Updated(Updated(s, c, selected, loc), c, selected, loc) == Updated(s, c, selected, loc)
  {
  }

  // ---------------------------------------------------------------------------
  // Archiving the tracking type and the text format
  // ---------------------------------------------------------------------------

  /** An object in a keyed archive: a string, or an answer format. */
  datatype Archived = ArchivedString(s: string) | ArchivedFormat(format: AnswerFormat)

  /** A keyed archive; a key holding nil is absent. */
  type Archive = map<string, Archived>

  /** What `encodeWithCoder` writes for the fields this class adds; a nil value writes nothing. */
  function EncodedFields(textFormat: Option<string>, t: TrackingStepType, format: Option<AnswerFormat>): (m: Archive)
    ensures "trackingType" in m && m["trackingType"] == ArchivedString(RawValue(t))
    ensures "textFormat" in m <==> textFormat.Some?
    ensures "textFormat" in m ==> m["textFormat"] == ArchivedString(textFormat.value)
    ensures "frequencyAnswerFormat" in m <==> format.Some?
    ensures "frequencyAnswerFormat" in m ==> m["frequencyAnswerFormat"] == ArchivedFormat(format.value)
  {
    var withText := if textFormat.Some? then map["textFormat" := ArchivedString(textFormat.value)] else map[];
    var withFormat := if format.Some? then withText["frequencyAnswerFormat" := ArchivedFormat(format.value)] else withText;
    withFormat["trackingType" := ArchivedString(RawValue(t))]
  }

  /** The tracking type `init(coder:)` reads back: absent unless a string naming a type was stored. */
  function DecodedTrackingType(archive: Archive): (r: Option<TrackingStepType>)
    ensures r.Some? <==>
      "trackingType" in archive && archive["trackingType"].ArchivedString? && ParseTrackingType(archive["trackingType"].s).Some?
    ensures r.Some? ==> archive["trackingType"] == ArchivedString(RawValue(r.value))
  {
    if "trackingType" in archive && archive["trackingType"].ArchivedString? then ParseTrackingType(archive["trackingType"].s)
    else None
  }

  /** The text format read back: the string stored under its key, if a string was stored. */
  function DecodedTextFormat(archive: Archive): (r: Option<string>)
    ensures r.Some? <==> "textFormat" in archive && archive["textFormat"].ArchivedString?
    ensures r.Some? ==> archive["textFormat"] == ArchivedString(r.value)
  {
    if "textFormat" in archive && archive["textFormat"].ArchivedString? then Some(archive["textFormat"].s) else None
  }

  /** The frequency answer format read back, if an answer format was stored. */
  function DecodedAnswerFormat(archive: Archive): (r: Option<AnswerFormat>)
    ensures r.Some? <==> "frequencyAnswerFormat" in archive && archive["frequencyAnswerFormat"].ArchivedFormat?
    ensures r.Some? ==> archive["frequencyAnswerFormat"] == ArchivedFormat(r.value)
  {
    if "frequencyAnswerFormat" in archive && archive["frequencyAnswerFormat"].ArchivedFormat? then
      Some(archive["frequencyAnswerFormat"].format)
    else None
  }

  /** Decoding what was encoded gives back the tracking type, the text format and the frequency answer format. */
  lemma CodingRoundTrip(textFormat: Option<string>, t: TrackingStepType, format: Option<AnswerFormat>)
    ensures DecodedTrackingType(EncodedFields(textFormat, t, format)) == Some(t)
    ensures DecodedTextFormat(EncodedFields(textFormat, t, format)) == textFormat
    ensures DecodedAnswerFormat(EncodedFields(textFormat, t, format)) == format
  {
    ParseRawValue(t);
  }

  /** A survey item describing a tracked step. */
  datatype TrackedSurveyItem = TrackedSurveyItem(
    identifier: string,
    trackingType: Option<TrackingStepType>,
    textFormat: Option<string>,
    scaleFormat: Option<AnswerFormat>,  // the scale format built from the item when it is a number range
    stepValues: FormState)  // the form fields `mapStepValues` and `buildFormItems` set from the item, or the defaults

  // ---------------------------------------------------------------------------
  // The form step object
  // ---------------------------------------------------------------------------

  class TrackedFormStep {
    const identifier: string
    var textFormat: Option<string>
    var trackingType: Option<TrackingStepType>
    var frequencyAnswerFormat: Option<AnswerFormat>
    var formItems: Option<seq<FormItem>>
    var optional: bool
    var text: Option<string>
    var shouldSkipStep: bool

    function State(): FormState
      reads this
    {
      FormState(formItems, optional, text, shouldSkipStep)
    }

    function Config(): StepConfig
      reads this
      requires trackingType.Some?
    {
      StepConfig(identifier, trackingType.value, textFormat, frequencyAnswerFormat)
    }

    /** A fresh step: no form items yet, optional (the toolkit's default), not skipped. */
    constructor (identifier: string)
      ensures this.identifier == identifier
      ensures textFormat.None? && trackingType.None? && frequencyAnswerFormat.None?
      ensures State() == FormState(None, true, None, false)
    {
      this.identifier := identifier;
      textFormat, trackingType, frequencyAnswerFormat := None, None, None;
      formItems, optional, text, shouldSkipStep := None, true, None, false;
    }

    /** `init(surveyItem:items:)`: copies the item's settings and mapped step values, then updates with the selected items. */
    constructor FromSurveyItem(item: TrackedSurveyItem, selected: seq<TrackedDataObject>, loc: Localization)
      requires item.trackingType.Some?
      ensures identifier == item.identifier && trackingType == item.trackingType && textFormat == item.textFormat
      ensures frequencyAnswerFormat == if item.trackingType == Some(Frequency) then item.scaleFormat else None
      ensures State() == Updated(item.stepValues.(shouldSkipStep := false), Config(), selected, loc)
    {
      identifier := item.identifier;
      trackingType := item.trackingType;
      textFormat := item.textFormat;
      frequencyAnswerFormat := if item.trackingType == Some(Frequency) then item.scaleFormat else None;
      formItems, optional, text := item.stepValues.formItems, item.stepValues.optional, item.stepValues.text;
      shouldSkipStep := false;
      new;
      UpdateWithSelectedItems(selected, loc);
    }

    /**
     * `init(coder:)`: the text format, the tracking type when a valid raw value was stored, and
     * the frequency answer format; `inherited` is the form state the superclass decoder restores.
     * The skip flag is not archived and starts false.
     */
    constructor FromArchive(identifier: string, archive: Archive, inherited: FormState)
      ensures this.identifier == identifier
      ensures textFormat == DecodedTextFormat(archive) && trackingType == DecodedTrackingType(archive)
      ensures frequencyAnswerFormat == DecodedAnswerFormat(archive)
      ensures State() == inherited.(shouldSkipStep := false)
    {
      this.identifier := identifier;
      textFormat := DecodedTextFormat(archive);
      trackingType := DecodedTrackingType(archive);
      frequencyAnswerFormat := DecodedAnswerFormat(archive);
      formItems, optional, text := inherited.formItems, inherited.optional, inherited.text;
      shouldSkipStep := false;
    }

    /** `encodeWithCoder`, for the fields this class adds; the tracking type must be set (its raw value is force-unwrapped). */
    method Encode() returns (archive: Archive)
      requires trackingType.Some?
      ensures archive == EncodedFields(textFormat, trackingType.value, frequencyAnswerFormat)
      ensures DecodedTrackingType(archive) == trackingType
      ensures DecodedTextFormat(archive) == textFormat
      ensures DecodedAnswerFormat(archive) == frequencyAnswerFormat
    {
      archive := EncodedFields(textFormat, trackingType.value, frequencyAnswerFormat);
      CodingRoundTrip(textFormat, trackingType.value, frequencyAnswerFormat);
    }

    /** `copyWithZone`: a new step with the same identifier, settings and state. */
    method Copy() returns (c: TrackedFormStep)
      ensures fresh(c)
      ensures c.identifier == identifier && c.trackingType == trackingType && c.textFormat == textFormat
      ensures c.frequencyAnswerFormat == frequencyAnswerFormat && c.State() == State()
    {
      c := new TrackedFormStep(identifier);
      c.formItems, c.optional, c.text := formItems, optional, text;
      c.shouldSkipStep := shouldSkipStep;
      c.trackingType := trackingType;
      c.textFormat := textFormat;
      c.frequencyAnswerFormat := frequencyAnswerFormat;
    }

    /** Rebuilds the form from the items selected so far, as the step's tracking type dictates. */
    method UpdateWithSelectedItems(selected: seq<TrackedDataObject>, loc: Localization)
      requires trackingType.Some?
      modifies this
      ensures trackingType == old(trackingType) && textFormat == old(textFormat)
      ensures frequencyAnswerFormat == old(frequencyAnswerFormat)
      ensures State() == Updated(old(State()), old(Config()), selected, loc)
    {
      match trackingType.value
      case Selection =>
        if formItems.None? {
          BuildSelectionFormItem(selected, loc);
        }
      case Frequency =>
        UpdateFrequencyFormItems(selected);
        FrequencyFormItemsEmptyIff(selected, frequencyAnswerFormat);
      case Activity =>
        UpdateActivityFormStep(selected, loc);
        TrackedShortTextsEmptyIff(selected);
      case _ =>
    }

    method BuildSelectionFormItem(selected: seq<TrackedDataObject>, loc: Localization)
      modifies this
      ensures trackingType == old(trackingType) && textFormat == old(textFormat)
      ensures frequencyAnswerFormat == old(frequencyAnswerFormat)
      ensures formItems == Some([FormItem(identifier, None, Some(MultipleChoiceFormat(SelectionChoices(selected, old(optional), loc))))])
      ensures !optional && text == old(text) && shouldSkipStep == old(shouldSkipStep)
    {
      ghost var wasOptional := optional;
      var choices := seq(|selected|, i requires 0 <= i < |selected| => TextChoiceFor(selected[i]));
      choices := choices + [TextChoice(loc.noneOfTheAbove, None, "None", true)];
      if optional {
        choices := choices + [TextChoice(loc.skipChoice, None, "Skipped", true)];
        optional := false;
      }
      assert choices == SelectionChoices(selected, wasOptional, loc);
      formItems := Some([FormItem(identifier, None, Some(MultipleChoiceFormat(choices)))]);
    }

    method UpdateFrequencyFormItems(selected: seq<TrackedDataObject>)
      modifies this
      ensures trackingType == old(trackingType) && textFormat == old(textFormat)
      ensures frequencyAnswerFormat == old(frequencyAnswerFormat)
      ensures formItems == Some(FrequencyFormItems(selected, frequencyAnswerFormat))
      ensures shouldSkipStep <==> forall i :: 0 <= i < |selected| ==> !selected[i].usesFrequencyRange
      ensures optional == old(optional) && text == old(text)
    {
      formItems := Some(FrequencyFormItems(selected, frequencyAnswerFormat));
      shouldSkipStep := formItems.None? || |formItems.value| == 0;
      FrequencyFormItemsEmptyIff(selected, frequencyAnswerFormat);
    }

    method UpdateActivityFormStep(selected: seq<TrackedDataObject>, loc: Localization)
      modifies this
      ensures trackingType == old(trackingType) && textFormat == old(textFormat)
      ensures frequencyAnswerFormat == old(frequencyAnswerFormat)
      ensures shouldSkipStep <==> forall i :: 0 <= i < |selected| ==> !selected[i].tracking
      ensures text == if textFormat.Some? && TrackedShortTexts(selected) != [] then
                        Some(loc.formatWithList(textFormat.value, TrackedShortTexts(selected)))
                      else old(text)
      ensures formItems == old(formItems) && optional == old(optional)
    {
      var trackedItems := TrackedShortTexts(selected);
      shouldSkipStep := |trackedItems| == 0;
      TrackedShortTextsEmptyIff(selected);
      if textFormat.Some? && |trackedItems| > 0 {
        text := Some(loc.formatWithList(textFormat.value, trackedItems));
      }
    }
  }
}
