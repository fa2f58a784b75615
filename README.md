# BridgeAppSDK survey and tracked-step core, in Dafny

This project models three parts of BridgeAppSDK, the iOS layer that turns study content from the Bridge backend into ResearchKit steps.

- **Survey questions** (`survey_item.dfy`). A backend survey question is read as a form step:
  - its form subtype, decided by the class of its constraints object;
  - its choice items, with a localised "other" choice when the constraints allow one;
  - its skip rules, turned into a predicate tree (the shape of the `NSPredicate` the SDK builds);
  - the date and number ranges of its constraints.
- **Tracked steps** (`tracked_step.dfy`):
  - the tracking step types;
  - the normalisation of which steps a tracking task includes;
  - reading a step description from a dictionary;
  - the `SBATrackedFormStep` class. This is a Dafny `class` whose `updateWithSelectedItems` rebuilds its form from the items selected so far. The class also has its initialisers, its archiving and its copy.
- **Onboarding table rows** (`onboarding_row.dfy`): the section types, title and text of a row described by a dictionary.

Shared pieces:

- `wrappers.dfy` holds Swift optionals, plus the generic "drop the nils" operation (`Somes`) behind `mapAndFilter` and `filter`+`map`, with its lemmas.
- `property_list.dfy` models an `NSDictionary` of property-list values and its `as? String` / `as? [String]` casts.

Modelling choices:

- Toolkit objects (`ORKFormItem`, `ORKTextChoice`, answer formats) are datatypes.
- Localised strings and string formatting are parameters (`Localization`, `localizedOther`).
- The clock reading used by `maxDate` is the parameter `now`.
- A date is an integer count of seconds.
- `NSNumber` values are reals; `integerValue` truncates toward zero.

## Model

| member | source | states |
|---|---|---|
| PropertyList.StringFor | BridgeAppSDK/SBATrackedStep.swift:105-107 | the cast `d[key] as? String` succeeds exactly when the key holds a string, and gives that string |
| PropertyList.StringListFor | BridgeAppSDK/SBAOnboardingTableRow.swift:60 | the cast `d[key] as? [String]` succeeds exactly when the key holds an array of strings only, and gives those strings in order |
| SurveyItem.ItemType | BridgeAppSDK/SBASurveyItem+Bridge.swift:76-115 | for each of the twelve outcomes, the item type is that outcome exactly when the constraints have the matching class (multi-value splits on allowMultipleValue; integer is Scale exactly when uiHint is "slider") |
| SurveyItem.FormSubtypeOf | BridgeAppSDK/SBASurveyItem+Bridge.swift:169 | a survey item type has a form subtype exactly when it is a form type, and then it is that form's subtype |
| SurveyItem.FormSubtypeMissingIff | BridgeAppSDK/SBASurveyItem+Bridge.swift:76-115 | a question has no form subtype exactly when its constraints are of no recognised class |
| SurveyItem.StepTitle | BridgeAppSDK/SBASurveyItem+Bridge.swift:117-119 | a question never has a step title |
| SurveyItem.IsOptional | BridgeAppSDK/SBASurveyItem+Bridge.swift:129-131 | every question is optional |
| SurveyItem.SkipIfPassed | BridgeAppSDK/SBASurveyItem+Bridge.swift:164-166 | the skip rule fires when its predicate passes |
| SurveyItem.Lowercase | BridgeAppSDK/SBASurveyItem+Bridge.swift:272 | the lower-cased string has the same length and no capitals; each capital becomes the small letter at the same place in the alphabet, nothing else changes, and it equals the input exactly when the input has no capitals |
| SurveyItem.HasUppercaseLetters | BridgeAppSDK/SBASurveyItem+Bridge.swift:271-273 | an option has upper-case letters exactly when some character of its label is a capital |
| SurveyItem.CountWithUppercase | BridgeAppSDK/SBASurveyItem+Bridge.swift:146 | the filtered count is at most the number of options, and is zero exactly when no option label has a capital |
| SurveyItem.Items | BridgeAppSDK/SBASurveyItem+Bridge.swift:133-153 | items exist exactly for multi-value constraints with an enumeration; they are the options in order, followed by one "other" choice only when a free value is allowed; that choice is lower-cased exactly when no option label has a capital |
| SurveyItem.OperatorCode | BridgeAppSDK/SBASurveyItem+Bridge.swift:198-207 | every operator's raw value is a two-letter code |
| SurveyItem.ParseOperator | BridgeAppSDK/SBASurveyItem+Bridge.swift:211-213 | a code is accepted only as the raw value of the operator it yields |
| SurveyItem.ParseOperatorAccepts | BridgeAppSDK/SBASurveyItem+Bridge.swift:198-213 | exactly the eight codes de, eq, ne, lt, gt, le, ge, ot are accepted |
| SurveyItem.ParseOperatorCode | BridgeAppSDK/SBASurveyItem+Bridge.swift:198-213 | parsing an operator's raw value gives back that operator |
| SurveyItem.OperatorPredicate | BridgeAppSDK/SBASurveyItem+Bridge.swift:221-248 | the predicate tests for a null answer exactly for the skip operator; the answer is compared with an array only for choice subtypes, and then with the one-element array of the value |
| SurveyItem.RulePredicateFor | BridgeAppSDK/SBASurveyItem+Bridge.swift:215-219 | a rule yields no predicate exactly when its operator is unknown or its value is not an object |
| SurveyItem.RulePredicateTable | BridgeAppSDK/SBASurveyItem+Bridge.swift:215-249 | with an object value, "de" is exactly the rule testing for a null answer, and each other code yields its comparison: = and <> against the one-element array on choice subtypes, "ot" as "value not among the answers" on choice subtypes, and the ordering operators against the bare value |
| SurveyItem.RulePredicateDependsOnlyOnChoice | BridgeAppSDK/SBASurveyItem+Bridge.swift:221 | two subtypes that agree on being a choice give every rule the same predicate |
| SurveyItem.SkipIdentifier | BridgeAppSDK/SBASurveyItem+Bridge.swift:159-162 | the skip identifier is present exactly when the first entry of the rules is a rule with a target, and then it is that target |
| SurveyItem.EntryPredicate | BridgeAppSDK/SBASurveyItem+Bridge.swift:176 | a rule entry yields exactly its rule's predicate (or none when the rule yields none), and an entry that is not a rule object yields none |
| SurveyItem.RulePredicates | BridgeAppSDK/SBASurveyItem+Bridge.swift:174-183 | no more predicates are collected than there are entries |
| SurveyItem.RulePredicatesEmptyIff | BridgeAppSDK/SBASurveyItem+Bridge.swift:174-189 | no predicate is collected exactly when no entry is a rule that yields one |
| SurveyItem.RulePredicatesAppend | BridgeAppSDK/SBASurveyItem+Bridge.swift:175-183 | collecting over two lists of entries, one after the other, concatenates their predicates, so entry order is kept |
| SurveyItem.RulePredicatesAllContribute | BridgeAppSDK/SBASurveyItem+Bridge.swift:175-183 | when every entry yields a predicate, there is one predicate per entry and the i-th is the i-th rule's |
| SurveyItem.RulePredicatesSound | BridgeAppSDK/SBASurveyItem+Bridge.swift:175-183 | every collected predicate is the predicate of some entry |
| SurveyItem.RulePredicate | BridgeAppSDK/SBASurveyItem+Bridge.swift:168-191 | the skip predicate exists exactly when there is a skip identifier and a form subtype, every rule that yields a predicate targets that identifier, and at least one rule yields a predicate; it is then the disjunction of the rule predicates in order |
| SurveyItem.CombineRulePredicates | BridgeAppSDK/SBASurveyItem+Bridge.swift:173-190 | the loop's result for a known target and subtype: present exactly when all contributing rules agree on the target and some rule contributes, and then the disjunction of the collected predicates |
| SurveyItem.CollectAgreeing | BridgeAppSDK/SBASurveyItem+Bridge.swift:173-190 | the loop, given any per-entry predicate: it gives up on the first entry whose predicate targets another step or when nothing was collected, and otherwise returns the disjunction of the present predicates in order |
| SurveyItem.MinDate | BridgeAppSDK/SBASurveyItem+Bridge.swift:289-291 | the earliest date is the constraints' earliest value |
| SurveyItem.MaxDate | BridgeAppSDK/SBASurveyItem+Bridge.swift:292-299 | when future dates are barred and no latest value is given, the latest date is now; otherwise it is the latest value; it is absent exactly when future dates are allowed and no latest value is given |
| SurveyItem.MinNumber | BridgeAppSDK/SBASurveyItem+Bridge.swift:317-320 | the minimum is reported exactly when both bounds are present, and is the minimum value |
| SurveyItem.MaxNumber | BridgeAppSDK/SBASurveyItem+Bridge.swift:322-325 | the maximum is reported exactly when both bounds are present, and is the maximum value |
| SurveyItem.TruncateTowardZero | BridgeAppSDK/SBASurveyItem+Bridge.swift:329 | the integer value is the largest integer not above a non-negative number and the smallest not below a negative one |
| SurveyItem.StepInterval | BridgeAppSDK/SBASurveyItem+Bridge.swift:327-330 | the step interval is 1 without a step, and otherwise the step truncated toward zero |
| SurveyItem.UnitLabel | BridgeAppSDK/SBASurveyItem+Bridge.swift:332-335 | the unit label is absent exactly when the unit is the empty string or nil, and is otherwise the unit |
| TrackedStep.RawValue | BridgeAppSDK/SBATrackedStep.swift:41-48 | every tracking type has a non-empty raw value |
| TrackedStep.ParseTrackingType | BridgeAppSDK/SBATrackedStep.swift:41-48 | a string is accepted only as the raw value of the type it yields |
| TrackedStep.ParseRawValue | BridgeAppSDK/SBATrackedStep.swift:41-48 | parsing a type's raw value gives back that type |
| TrackedStep.RawValueInjective | BridgeAppSDK/SBATrackedStep.swift:60-65 | equality by raw value is equality of the types |
| TrackedStep.IsTrackedFormStepType | BridgeAppSDK/SBATrackedStep.swift:50-57 | exactly the selection, frequency and activity types are tracked form steps |
| TrackedStep.MakeIncludes | BridgeAppSDK/SBATrackedStep.swift:72-81 | a list with the changed step but no activity step becomes the full changed, selection, frequency, activity chain that completes when nothing changed; any other list is kept and falls through to the activity; the changed step is kept or absent as requested, and brings an activity step |
| TrackedStep.MakeIncludesIdempotent | BridgeAppSDK/SBATrackedStep.swift:72-81 | renormalising a normalised includes list keeps the list, and its step after "no change" is then always the activity |
| TrackedStep.PresetIncludes | BridgeAppSDK/SBATrackedStep.swift:83-87 | the five presets after normalisation: the four without a lone changed step keep their lists and go on to the activity; "changed only" becomes the changed, selection, frequency, activity chain that completes when nothing changed |
| TrackedStep.ChangedOnlyMatchesChangedAndActivity | BridgeAppSDK/SBATrackedStep.swift:83-87 | "changed only" includes the same steps as "changed and activity" but completes when nothing changed, while the latter goes on to the activity |
| TrackedStep.IncludeSurvey | BridgeAppSDK/SBATrackedStep.swift:89-91 | the survey is included exactly when the introduction or the changed step is |
| TrackedStep.ShouldInclude | BridgeAppSDK/SBATrackedStep.swift:93-95 | a type is included exactly when it occurs in the includes list |
| TrackedStep.IncludeSurveyNormalised | BridgeAppSDK/SBATrackedStep.swift:72-91 | the normalised includes keep the survey exactly when the requested list had an introduction or a changed step |
| TrackedStep.DictionaryTrackingType | BridgeAppSDK/SBATrackedStep.swift:100-103 | with a string under "trackingType" the result is that string parsed as a tracking type (so a stored raw value yields its type, and a result always has that raw value); without such a string there is none |
| TrackedStep.DictionaryTextFormat | BridgeAppSDK/SBATrackedStep.swift:105-107 | the text format is present exactly when "textFormat" holds a string, and is that string |
| TrackedStep.TextChoiceFor | BridgeAppSDK/SBATrackedStep.swift:111-124 | a tracked item as a choice has the item's text as its text, its identifier as value, no detail, and is not exclusive |
| TrackedStep.SelectionChoices | BridgeAppSDK/SBATrackedStep.swift:201-222 | the selection choices are the selected items in order, then "None", then "Skipped" exactly when the step was optional; exactly the added choices are exclusive |
| TrackedStep.FrequencyItemFor | BridgeAppSDK/SBATrackedStep.swift:231-233 | a selected item gets a frequency form item exactly when it uses a frequency range; the form item has the item's identifier and text and the step's frequency format |
| TrackedStep.FrequencyFormItems | BridgeAppSDK/SBATrackedStep.swift:231-233 | the frequency form has no more items than were selected |
| TrackedStep.FrequencyFormItemsEmptyIff | BridgeAppSDK/SBATrackedStep.swift:231-234 | the frequency form is empty exactly when no selected item uses a frequency range |
| TrackedStep.FrequencyFormItemsSound | BridgeAppSDK/SBATrackedStep.swift:231-233 | every item of the frequency form is the form item of some selected item |
| TrackedStep.FrequencyFormItemsAppend | BridgeAppSDK/SBATrackedStep.swift:231-233 | the form items of two selections, one after the other, are the concatenation of their forms, so selection order is kept |
| TrackedStep.FrequencyFormItemsAllUse | BridgeAppSDK/SBATrackedStep.swift:231-233 | when every selected item uses a frequency range, the i-th form item is the i-th selected item's |
| TrackedStep.TrackedShortText | BridgeAppSDK/SBATrackedStep.swift:238 | an item contributes a short text exactly when it is tracked, and it contributes its own |
| TrackedStep.TrackedShortTexts | BridgeAppSDK/SBATrackedStep.swift:238 | there are no more short texts than selected items |
| TrackedStep.TrackedShortTextsEmptyIff | BridgeAppSDK/SBATrackedStep.swift:238-239 | no short text is listed exactly when no selected item is tracked |
| TrackedStep.TrackedShortTextsSound | BridgeAppSDK/SBATrackedStep.swift:238 | every listed short text is the short text of a tracked selected item |
| TrackedStep.TrackedShortTextsAppend | BridgeAppSDK/SBATrackedStep.swift:238 | listing two selections one after the other concatenates their short texts, so selection order is kept |
| TrackedStep.TrackedShortTextsAllTracked | BridgeAppSDK/SBATrackedStep.swift:238 | when every selected item is tracked, the i-th short text is the i-th item's |
| TrackedStep.BuiltSelection | BridgeAppSDK/SBATrackedStep.swift:201-227 | the built selection state has one form item, under the step's identifier, whose multiple-choice format holds the selection choices for the current optional flag; optional is cleared and the text and skip flag are kept |
| TrackedStep.UpdatedFrequency | BridgeAppSDK/SBATrackedStep.swift:229-235 | the frequency update's items are the frequency form items; it is skipped exactly when no selected item uses a frequency range; optional and text are kept |
| TrackedStep.UpdatedActivity | BridgeAppSDK/SBATrackedStep.swift:237-243 | the activity update is skipped exactly when no selected item is tracked; its text changes only with a text format and a tracked item; form items and optional are kept |
| TrackedStep.Updated | BridgeAppSDK/SBATrackedStep.swift:183-199 | the update rule by tracking type: introduction, changed and completion steps and already built selection steps are unchanged; an unbuilt selection step is built; frequency and activity steps get their own updates |
| TrackedStep.SelectionBuild | BridgeAppSDK/SBATrackedStep.swift:201-227 | the first update of a selection step builds one multiple-choice item under the step's identifier from the selection choices, and clears optional |
| TrackedStep.SelectionBuiltOnce | BridgeAppSDK/SBATrackedStep.swift:186-188 | once the selection form is built, later updates leave the step unchanged, whatever is selected |
| TrackedStep.NonFormStepsUnchanged | BridgeAppSDK/SBATrackedStep.swift:183-199 | introduction, changed and completion steps are never changed by an update |
| TrackedStep.FrequencyUpdate | BridgeAppSDK/SBATrackedStep.swift:229-235 | a frequency step shows the frequency form items and is skipped exactly when no selected item uses a frequency range; optional and text are kept |
| TrackedStep.ActivityUpdate | BridgeAppSDK/SBATrackedStep.swift:237-243 | an activity step is skipped exactly when no selected item is tracked; its text changes only if it has a text format and some item is tracked; its form items are kept |
| TrackedStep.UpdateIdempotent | BridgeAppSDK/SBATrackedStep.swift:183-243 | updating twice with the same selection is the same as updating once |
| TrackedStep.EncodedFields | BridgeAppSDK/SBATrackedStep.swift:162-167 | the archive always holds the tracking type's raw value, and holds the text format and the frequency answer format exactly when they are present |
| TrackedStep.DecodedTrackingType | BridgeAppSDK/SBATrackedStep.swift:155-158 | a tracking type is read back exactly when a string naming one is stored, and it is the type whose raw value is stored |
| TrackedStep.DecodedTextFormat | BridgeAppSDK/SBATrackedStep.swift:154 | the text format is read back exactly when a string is stored under its key |
| TrackedStep.DecodedAnswerFormat | BridgeAppSDK/SBATrackedStep.swift:159 | the frequency answer format is read back exactly when an answer format is stored under its key |
| TrackedStep.CodingRoundTrip | BridgeAppSDK/SBATrackedStep.swift:152-167 | decoding what was encoded gives back the tracking type, the text format and the frequency answer format |
| TrackedStep.TrackedFormStep.constructor | BridgeAppSDK/SBATrackedStep.swift:132-134 | a new step has the given identifier, no settings and no form items, is optional and is not skipped |
| TrackedStep.TrackedFormStep.FromSurveyItem | BridgeAppSDK/SBATrackedStep.swift:136-150 | the step takes the item's identifier, tracking type and text format, takes the scale format only for a frequency step, and its state is one update from the item's mapped step values with the skip flag false |
| TrackedStep.TrackedFormStep.FromArchive | BridgeAppSDK/SBATrackedStep.swift:152-160 | the decoded step's settings are what the archive decodes to; its form items, optional flag and text are those the superclass restores, and it is not skipped |
| TrackedStep.TrackedFormStep.Encode | BridgeAppSDK/SBATrackedStep.swift:162-167 | the archive written decodes back to the step's tracking type, text format and frequency answer format |
| TrackedStep.TrackedFormStep.Copy | BridgeAppSDK/SBATrackedStep.swift:169-176 | the copy is a new object with the same identifier, settings, form items, optional flag, text and skip flag |
| TrackedStep.TrackedFormStep.UpdateWithSelectedItems | BridgeAppSDK/SBATrackedStep.swift:183-199 | the settings are kept and the new state is the update rule applied to the old state, so every lemma about the update rule holds of the object |
| TrackedStep.TrackedFormStep.BuildSelectionFormItem | BridgeAppSDK/SBATrackedStep.swift:201-227 | the form becomes the one multiple-choice item over the selection choices for the old optional flag; optional is cleared |
| TrackedStep.TrackedFormStep.UpdateFrequencyFormItems | BridgeAppSDK/SBATrackedStep.swift:229-235 | the form becomes the frequency form items; the step is skipped exactly when no selected item uses a frequency range |
| TrackedStep.TrackedFormStep.UpdateActivityFormStep | BridgeAppSDK/SBATrackedStep.swift:237-243 | the step is skipped exactly when no selected item is tracked; the text is the formatted list of tracked short texts when there is a text format and a tracked item, and is otherwise kept |
| OnboardingRow.MapAndFilter | BridgeAppSDK/SBAOnboardingTableRow.swift:61 | no more sections are produced than there are strings |
| OnboardingRow.MapAndFilterEmptyIff | BridgeAppSDK/SBAOnboardingTableRow.swift:61 | no section is produced exactly when no string is a known section type |
| OnboardingRow.MapAndFilterSound | BridgeAppSDK/SBAOnboardingTableRow.swift:61 | every section produced is the parse of some input string |
| OnboardingRow.MapAndFilterAppend | BridgeAppSDK/SBAOnboardingTableRow.swift:61 | parsing two lists, one after the other, concatenates their sections, so input order is kept |
| OnboardingRow.MapAndFilterAllRecognised | BridgeAppSDK/SBAOnboardingTableRow.swift:61 | when every string is known, nothing is dropped and the i-th section is the i-th string's |
| OnboardingRow.OnboardingSectionTypes | BridgeAppSDK/SBAOnboardingTableRow.swift:59-62 | without a list of strings under "sections" there are no sections; otherwise the sections are `MapAndFilter` of the strings (so in input order, with every known string kept, as the MapAndFilter lemmas state): at most as many as strings, none exactly when no string is known, and each the parse of one of the strings |
| OnboardingRow.Title | BridgeAppSDK/SBAOnboardingTableRow.swift:64-66 | the title is the string under "title", which must be present |
| OnboardingRow.Text | BridgeAppSDK/SBAOnboardingTableRow.swift:68-70 | the text is the string under "text", which must be present |

## Left out

- The ResearchKit and BridgeSDK objects are modelled as plain datatypes. This covers steps, form items, answer formats, the "other" choice appended as an `NSString`, and the survey question with its constraints. Building the toolkit's own answer formats (`createAnswerFormat`, the scale format of a frequency step) is left out: the scale format is an input of `FromSurveyItem`.
- Evaluating the `NSPredicate`s built from skip rules is left out. The model builds the predicate tree only.
- Localisation is left out. `Localization.localizedString`, `localizedJoin` and `String(format:)` are parameters.
- The clock is left out: `NSDate()` in `maxDate` is the parameter `now`.
- `lowercaseString` is modelled for ASCII letters only. There is no Unicode case mapping.
- SurveyItem.TruncateTowardZero: does not model the 64-bit range of `integerValue`. Values beyond it are not clamped or wrapped.
- TrackedStep.TrackedFormStep.FromSurveyItem: does not compute what `mapStepValues` and `buildFormItems` set, because that code is not part of this model. They copy the question's own step fields and, for an activity step, build its form items. Their result is an input of the constructor: the item's `stepValues`.
- The force-unwrapped `trackingType` (SBATrackedStep.swift lines 165 and 184) is the requirement `trackingType.Some?` of `Encode`, `UpdateWithSelectedItems` and `FromSurveyItem`.
- The `SBBSurveyInfoScreen` extension and the pass-through properties are not modelled: `stepText`, `stepDetail`, `range`, `createCustomStep`, and the choice properties of `SBBSurveyQuestionOption` that return fields as they are.
- The `assertionFailure` calls in `rulePredicate` stop debug builds only. The model follows release builds and returns no predicate.
- The raw values of `SBAOnboardingSectionType` are defined in code that is not part of this model. Its parser is a parameter.
- The archive covers only the fields this class adds. The superclass's own coding is not modelled: the form state it restores is an input of `FromArchive`, and the identifier is passed in.
- `ORKStep.optional` defaults to true. Only `constructor(identifier)` uses that default. `FromSurveyItem` takes `optional` from the item's `stepValues`, and `FromArchive` takes it from the `inherited` form state.
- Two crash paths of the question code are ruled out by the types. The options of an enumeration have type `QuestionOption`, so the force cast `as! SBBSurveyQuestionOption` (SBASurveyItem+Bridge.swift line 146) cannot fail. Every question has its `Constraints`, so reading `constraints.rules?.first` through the implicitly unwrapped `constraints` (line 160) cannot meet nil.
- The constraint classes are disjoint constructors. The classifier tests them in source order, and the model keeps that order of cases.
- `UnitLabel` reports no label for a nil unit as well as for "". The source compares the implicitly unwrapped `unit` with "" and returns it when they differ, and a nil unit is returned as nil.
