/**
 * Translation of a survey question received from the study backend into the
 * vocabulary of the on-device form toolkit: the question's form subtype, its
 * choice items, its skip rule as a predicate tree, and the number and date
 * ranges its constraints carry.
 */
module SurveyItem {
  import opened Wrappers

  // ---------------------------------------------------------------------------
  // Letter case (an ASCII model of `lowercaseString`)
  // ---------------------------------------------------------------------------

  predicate IsUpper(c: char) {
    'A' <= c <= 'Z'
  }

  function LowerChar(c: char): (r: char)
    ensures !IsUpper(r)
    ensures !IsUpper(c) ==> r == c
    ensures IsUpper(c) ==> 'a' <= r <= 'z' && r as int - 'a' as int == c as int - 'A' as int
  {
    if IsUpper(c) then (c as int + 32) as char else c
  }

  /** The lower-case form of `s`: each capital becomes its small letter, and nothing else changes. */
  function Lowercase(s: string): (r: string)
    ensures |r| == |s|
    ensures forall i :: 0 <= i < |s| ==> !IsUpper(r[i]) && (IsUpper(s[i]) || r[i] == s[i])
    ensures forall i :: 0 <= i < |s| && IsUpper(s[i]) ==>
      'a' <= r[i] <= 'z' && r[i] as int - 'a' as int == s[i] as int - 'A' as int
    ensures r == s <==> forall i :: 0 <= i < |s| ==> !IsUpper(s[i])
  {
    if s == [] then [] else [LowerChar(s[0])] + Lowercase(s[1..])
  }

  // ---------------------------------------------------------------------------
  // Questions and their constraints
  // ---------------------------------------------------------------------------

  /** An option of a multiple-choice question; its value is what the answer records. */
  datatype QuestionOption = QuestionOption(labelText: string, detail: Option<string>, value: Literal)

  /** A value a rule compares the answer with. */
  datatype Literal =
    | StringLiteral(s: string)
    | NumberLiteral(n: real)
    | BooleanLiteral(b: bool)

  type Date = int  // seconds from some fixed reference instant

  datatype DateRange = DateRange(allowFutureValue: bool, earliestValue: Option<Date>, latestValue: Option<Date>)

  /** The fields of integer and decimal constraints; the `NSNumber`s are all modelled as reals. */
  datatype NumberRange = NumberRange(minValue: Option<real>, maxValue: Option<real>, step: Option<real>, unit: Option<string>)

  /** The class of a question's constraints object, one constructor per class the classifier tests for. */
  datatype ConstraintKind =
    | BooleanConstraints
    | StringConstraints
    | MultiValueConstraints(allowMultipleValue: bool, allowOtherValue: bool, enumeration: Option<seq<QuestionOption>>)
    | DateTimeConstraints(dateRange: DateRange)
    | DateConstraints(dateRange: DateRange)
    | TimeConstraints
    | DurationConstraints
    | IntegerConstraints(numberRange: NumberRange)
    | DecimalConstraints(numberRange: NumberRange)
    | UnrecognisedConstraints

  /** A skip rule: operator code, comparison value (None when it is not an object) and the step to skip to. */
  datatype SurveyRule = SurveyRule(operatorCode: string, value: Option<Literal>, skipTo: Option<string>)

  /** An entry of the constraints' `rules` array, which need not be a rule object. */
  datatype RuleEntry = Rule(rule: SurveyRule) | NonRule

  datatype Constraints = Constraints(kind: ConstraintKind, rules: Option<seq<RuleEntry>>)

  datatype Question = Question(uiHint: Option<string>, constraints: Constraints)

  // ---------------------------------------------------------------------------
  // Question type
  // ---------------------------------------------------------------------------

  datatype FormSubtype =
    | Boolean | Text | SingleChoice | MultipleChoice | DateTime | Date
    | Time | Duration | Integer | Scale | Decimal

  datatype SurveyItemType =
    | Instruction
    | Form(subtype: FormSubtype)
    | Custom(name: Option<string>)

  /** `SBASurveyItemType.formSubtype()` */
  function FormSubtypeOf(t: SurveyItemType): (r: Option<FormSubtype>)
    ensures r.Some? <==> t.Form?
    ensures r.Some? ==> t == Form(r.value)
  {
    if t.Form? then Some(t.subtype) else None
  }

  /** The form subtype a question is shown with, decided by the class of its constraints. */
  function ItemType(q: Question): (r: SurveyItemType)
    ensures r == Form(Boolean) <==> q.constraints.kind.BooleanConstraints?
    ensures r == Form(Text) <==> q.constraints.kind.StringConstraints?
    ensures r == Form(MultipleChoice) <==> q.constraints.kind.MultiValueConstraints? && q.constraints.kind.allowMultipleValue
    ensures r == Form(SingleChoice) <==> q.constraints.kind.MultiValueConstraints? && !q.constraints.kind.allowMultipleValue
    ensures r == Form(DateTime) <==> q.constraints.kind.DateTimeConstraints?
    ensures r == Form(Date) <==> q.constraints.kind.DateConstraints?
    ensures r == Form(Time) <==> q.constraints.kind.TimeConstraints?
    ensures r == Form(Duration) <==> q.constraints.kind.DurationConstraints?
    ensures r == Form(Scale) <==> q.constraints.kind.IntegerConstraints? && q.uiHint == Some("slider")
    ensures r == Form(Integer) <==> q.constraints.kind.IntegerConstraints? && q.uiHint != Some("slider")
    ensures r == Form(Decimal) <==> q.constraints.kind.DecimalConstraints?
    ensures r == Custom(None) <==> q.constraints.kind.UnrecognisedConstraints?
  {
    match q.constraints.kind
    case BooleanConstraints => Form(Boolean)
    case StringConstraints => Form(Text)
    case MultiValueConstraints(allowMultiple, _, _) => if allowMultiple then Form(MultipleChoice) else Form(SingleChoice)
    case DateTimeConstraints(_) => Form(DateTime)
    case DateConstraints(_) => Form(Date)
    case TimeConstraints => Form(Time)
    case DurationConstraints => Form(Duration)
    case IntegerConstraints(_) => if q.uiHint == Some("slider") then Form(Scale) else Form(Integer)
    case DecimalConstraints(_) => Form(Decimal)
    case UnrecognisedConstraints => Custom(None)
  }

  /** Only a question with unrecognised constraints lacks a form subtype. */
  lemma FormSubtypeMissingIff(q: Question)
    ensures FormSubtypeOf(ItemType(q)).None? <==> q.constraints.kind.UnrecognisedConstraints?
  {
  }

  /** A question never carries a step title of its own. */
  function StepTitle(q: Question): (r: Option<string>)
    ensures r.None?
  {
    None
  }

  /** Every question may be left unanswered. */
  function IsOptional(q: Question): (r: bool)
    ensures r
  {
    true
  }

  /** The skip rule fires when its predicate holds of the answer. */
  function SkipIfPassed(q: Question): (r: bool)
    ensures r
  {
    true
  }

  // ---------------------------------------------------------------------------
  // Choice items
  // ---------------------------------------------------------------------------

  /** An item of a choice question: one of the backend's options, or the appended "other" string. */
  datatype Choice = OptionChoice(option: QuestionOption) | OtherChoice(text: string)

  function HasUppercaseLetters(o: QuestionOption): (r: bool)
    ensures r <==> exists i :: 0 <= i < |o.labelText| && IsUpper(o.labelText[i])
  {
    Lowercase(o.labelText) != o.labelText
  }

  /** The number of options whose label has a capital letter (the count of a filter). */
  function CountWithUppercase(opts: seq<QuestionOption>): (n: nat)
    ensures n <= |opts|
    ensures n == 0 <==> forall i :: 0 <= i < |opts| ==> !HasUppercaseLetters(opts[i])
  {
    if opts == [] then 0
    else (if HasUppercaseLetters(opts[0]) then 1 else 0) + CountWithUppercase(opts[1..])
  }

  /**
   * The choices of a multi-value question with an enumeration; `localizedOther` is the
   * localised word for "other", appended when the question allows a free value.
   */
  function Items(q: Question, localizedOther: string): (r: Option<seq<Choice>>)
    ensures r.Some? <==> q.constraints.kind.MultiValueConstraints? && q.constraints.kind.enumeration.Some?
    ensures r.Some? ==>
      var opts := q.constraints.kind.enumeration.value;
      && |r.value| == |opts| + (if q.constraints.kind.allowOtherValue then 1 else 0)
      && (forall i :: 0 <= i < |opts| ==> r.value[i] == OptionChoice(opts[i]))
    ensures r.Some? && q.constraints.kind.allowOtherValue ==>
      var opts := q.constraints.kind.enumeration.value;
      r.value[|opts|] == OtherChoice(
        if exists i :: 0 <= i < |opts| && HasUppercaseLetters(opts[i]) then localizedOther else Lowercase(localizedOther))
  {
    if q.constraints.kind.MultiValueConstraints? && q.constraints.kind.enumeration.Some? then
      var opts := q.constraints.kind.enumeration.value;
      var options := seq(|opts|, i requires 0 <= i < |opts| => OptionChoice(opts[i]));
      if q.constraints.kind.allowOtherValue then
        var other := if CountWithUppercase(opts) == 0 then Lowercase(localizedOther) else localizedOther;
        Some(options + [OtherChoice(other)])
      else
        Some(options)
    else
      None
  }

  // ---------------------------------------------------------------------------
  // Rule operators
  // ---------------------------------------------------------------------------

  datatype RuleOperator =
    | Skip | Equal | NotEqual | LessThan | GreaterThan | LessThanEqual | GreaterThanEqual | OtherThan

  /** The two-letter code of an operator (its raw value). */
  function OperatorCode(op: RuleOperator): (code: string)
    ensures |code| == 2
  {
    match op
    case Skip => "de"
    case Equal => "eq"
    case NotEqual => "ne"
    case LessThan => "lt"
    case GreaterThan => "gt"
    case LessThanEqual => "le"
    case GreaterThanEqual => "ge"
    case OtherThan => "ot"
  }

  /** `SBBSurveyRuleOperator(rawValue:)`: a code is accepted only as the raw value of the operator it names. */
  function ParseOperator(code: string): (r: Option<RuleOperator>)
    ensures r.Some? ==> OperatorCode(r.value) == code
  {
    if |code| != 2 then None
    else
      var pair := (code[0], code[1]);
      match pair
      case ('d', 'e') => Some(Skip)
      case ('e', 'q') => Some(Equal)
      case ('n', 'e') => Some(NotEqual)
      case ('l', 't') => Some(LessThan)
      case ('g', 't') => Some(GreaterThan)
      case ('l', 'e') => Some(LessThanEqual)
      case ('g', 'e') => Some(GreaterThanEqual)
      case ('o', 't') => Some(OtherThan)
      case _ => None
  }

  /** Exactly the eight two-letter codes are accepted. */
  lemma ParseOperatorAccepts(code: string)
    ensures ParseOperator(code).Some? <==> code in {"de", "eq", "ne", "lt", "gt", "le", "ge", "ot"}
  {
  }

  /** Parsing is the inverse of taking the raw value. */
  lemma {:induction false} ParseOperatorCode(op: RuleOperator)
    ensures ParseOperator(OperatorCode(op)) == Some(op)
  {
    match op
    case Skip =>
    case Equal =>
    case NotEqual =>
    case LessThan =>
    case GreaterThan =>
    case LessThanEqual =>
    case GreaterThanEqual =>
    case OtherThan =>
  }

  // ---------------------------------------------------------------------------
  // Rule predicates (the shape of the `NSPredicate`s built; their evaluation is not modelled)
  // ---------------------------------------------------------------------------

  datatype Comparison = Eq | Ne | Lt | Gt | Le | Ge

  datatype Operand = Scalar(v: Literal) | ArrayOf(items: seq<Literal>)

  datatype Predicate =
    | AnswerIsNull                            // answer = NULL
    | Compare(cmp: Comparison, rhs: Operand)  // answer <cmp> rhs
    | ValueIn(v: Literal)                     // v IN answer
    | Not(p: Predicate)
    | Or(ps: seq<Predicate>)

  /** Choice answers are arrays of the chosen values. */
  predicate IsChoice(st: FormSubtype) {
    st == SingleChoice || st == MultipleChoice
  }

  /** The predicate of an operator applied to a value, for a question of subtype `st`. */
  function OperatorPredicate(op: RuleOperator, value: Literal, st: FormSubtype): (p: Predicate)
    ensures p == AnswerIsNull <==> op == Skip
    ensures p.Compare? && p.rhs.ArrayOf? ==> IsChoice(st) && p.rhs.items == [value]
  {
    var isArray := IsChoice(st);
    match op
    case Skip => AnswerIsNull
    case Equal => Compare(Eq, if isArray then ArrayOf([value]) else Scalar(value))
    case NotEqual => Compare(Ne, if isArray then ArrayOf([value]) else Scalar(value))
    case OtherThan => if isArray then Not(ValueIn(value)) else Compare(Ne, Scalar(value))
    case GreaterThan => Compare(Gt, Scalar(value))
    case GreaterThanEqual => Compare(Ge, Scalar(value))
    case LessThan => Compare(Lt, Scalar(value))
    case LessThanEqual => Compare(Le, Scalar(value))
  }

  /** The predicate one rule stands for: none when its operator is unknown or its value is not an object. */
  function RulePredicateFor(rule: SurveyRule, st: FormSubtype): (r: Option<Predicate>)
    ensures r.None? <==> ParseOperator(rule.operatorCode).None? || rule.value.None?
  {
    match (ParseOperator(rule.operatorCode), rule.value)
    case (Some(op), Some(value)) => Some(OperatorPredicate(op, value, st))
    case _ => None
  }

  /**
   * The operator table: choice answers are compared with the one-element array of the
   * rule's value, "ot" on a choice becomes "value not among the answers", and the
   * ordering operators compare with the bare value whatever the subtype.
   */
  lemma RulePredicateTable(rule: SurveyRule, st: FormSubtype)
    requires rule.value.Some?
    ensures rule.operatorCode == "de" <==> RulePredicateFor(rule, st) == Some(AnswerIsNull)
    ensures rule.operatorCode == "eq" ==>
      RulePredicateFor(rule, st).value == Compare(Eq, if IsChoice(st) then ArrayOf([rule.value.value]) else Scalar(rule.value.value))
    ensures rule.operatorCode == "ne" ==>
      RulePredicateFor(rule, st).value == Compare(Ne, if IsChoice(st) then ArrayOf([rule.value.value]) else Scalar(rule.value.value))
    ensures rule.operatorCode == "ot" ==>
      RulePredicateFor(rule, st).value == if IsChoice(st) then Not(ValueIn(rule.value.value)) else Compare(Ne, Scalar(rule.value.value))
    ensures rule.operatorCode == "lt" ==> RulePredicateFor(rule, st).value == Compare(Lt, Scalar(rule.value.value))
    ensures rule.operatorCode == "gt" ==> RulePredicateFor(rule, st).value == Compare(Gt, Scalar(rule.value.value))
    ensures rule.operatorCode == "le" ==> RulePredicateFor(rule, st).value == Compare(Le, Scalar(rule.value.value))
    ensures rule.operatorCode == "ge" ==> RulePredicateFor(rule, st).value == Compare(Ge, Scalar(rule.value.value))
  {
  }

  /** The subtype only decides whether the answer is an array: two subtypes alike in that give the same predicate. */
  lemma {:induction false} RulePredicateDependsOnlyOnChoice(rule: SurveyRule, s1: FormSubtype, s2: FormSubtype)
    requires IsChoice(s1) == IsChoice(s2)
    ensures RulePredicateFor(rule, s1) == RulePredicateFor(rule, s2)
  {
  }

  /** The code of the first rule's target step, if the first entry is a rule. */
  function SkipIdentifier(q: Question): (r: Option<string>)
    ensures r.Some? <==>
      && q.constraints.rules.Some? && |q.constraints.rules.value| > 0
      && q.constraints.rules.value[0].Rule? && q.constraints.rules.value[0].rule.skipTo.Some?
    ensures r.Some? ==> r == q.constraints.rules.value[0].rule.skipTo
  {
    match q.constraints.rules
    case Some(entries) =>
      if |entries| > 0 && entries[0].Rule? then entries[0].rule.skipTo else None
    case None => None
  }

  /** The predicate an entry of the rules list yields: none unless it is a rule that yields one. */
  function EntryPredicate(e: RuleEntry, st: FormSubtype): (r: Option<Predicate>)
    ensures r.Some? ==> e.Rule? && r == RulePredicateFor(e.rule, st)
    ensures e.Rule? ==> r == RulePredicateFor(e.rule, st)
    ensures !e.Rule? ==> r.None?
  {
    if e.Rule? then RulePredicateFor(e.rule, st) else None
  }

  /** An entry contributes when it is a rule that yields a predicate. */
  predicate Contributes(e: RuleEntry, st: FormSubtype) {
    EntryPredicate(e, st).Some?
  }

  /** The per-entry predicate function for subtype `st`. */
  function EntryPredicateOf(st: FormSubtype): RuleEntry -> Option<Predicate> {
    e => EntryPredicate(e, st)
  }

  /** `predicateOf` applied to each entry, in order. */
  function Applied(entries: seq<RuleEntry>, predicateOf: RuleEntry -> Option<Predicate>): (r: seq<Option<Predicate>>)
    ensures |r| == |entries|
    ensures forall j :: 0 <= j < |entries| ==> r[j] == predicateOf(entries[j])
  {
    seq(|entries|, j requires 0 <= j < |entries| => predicateOf(entries[j]))
  }

  /** The entries' predicates, or their absence, entry by entry. */
  function EntryPredicates(entries: seq<RuleEntry>, st: FormSubtype): (r: seq<Option<Predicate>>)
    ensures |r| == |entries|
    ensures forall j :: 0 <= j < |entries| ==> r[j] == EntryPredicate(entries[j], st)
  {
    Applied(entries, EntryPredicateOf(st))
  }

  /** The predicates of the contributing entries, in entry order. */
  function RulePredicates(entries: seq<RuleEntry>, st: FormSubtype): (ps: seq<Predicate>)
    ensures |ps| <= |entries|
  {
    Somes(EntryPredicates(entries, st))
  }

  /** No predicate is collected exactly when no entry contributes. */
  lemma RulePredicatesEmptyIff(entries: seq<RuleEntry>, st: FormSubtype)
    ensures RulePredicates(entries, st) == [] <==> forall j :: 0 <= j < |entries| ==> !Contributes(entries[j], st)
  {
    SomesEmptyIff(EntryPredicates(entries, st));
  }

  /** Collecting predicates distributes over concatenation of the entry lists, which fixes their order. */
  lemma RulePredicatesAppend(a: seq<RuleEntry>, b: seq<RuleEntry>, st: FormSubtype)
    ensures RulePredicates(a + b, st) == RulePredicates(a, st) + RulePredicates(b, st)
  {
    assert EntryPredicates(a + b, st) == EntryPredicates(a, st) + EntryPredicates(b, st);
    SomesAppend(EntryPredicates(a, st), EntryPredicates(b, st));
  }

  /** When every entry contributes, the i-th predicate is that of the i-th rule. */
  lemma RulePredicatesAllContribute(entries: seq<RuleEntry>, st: FormSubtype)
    requires forall j :: 0 <= j < |entries| ==> Contributes(entries[j], st)
    ensures |RulePredicates(entries, st)| == |entries|
    ensures forall j :: 0 <= j < |entries| ==>
      entries[j].Rule? && Some(RulePredicates(entries, st)[j]) == RulePredicateFor(entries[j].rule, st)
  {
    SomesAllPresent(EntryPredicates(entries, st));
  }

  /** Every predicate collected is the predicate of one of the entries (and so of one of the rules). */
  lemma RulePredicatesSound(entries: seq<RuleEntry>, st: FormSubtype)
    ensures forall k :: 0 <= k < |RulePredicates(entries, st)| ==>
      exists j :: 0 <= j < |entries| && EntryPredicate(entries[j], st) == Some(RulePredicates(entries, st)[k])
  {
    var xs := EntryPredicates(entries, st);
    assert RulePredicates(entries, st) == Somes(xs);
    SomesSound(xs);
  }

  /** Every contributing rule names `skipTo` as its target. */
  predicate SkipTargetsAgree(entries: seq<RuleEntry>, st: FormSubtype, skipTo: string) {
    forall j :: 0 <= j < |entries| && Contributes(entries[j], st) ==> entries[j].rule.skipTo == Some(skipTo)
  }

  /**
   * The question's skip predicate: the disjunction, in rule order, of the predicates of its
   * rules, provided the first rule names a target, the question has a form subtype, every
   * contributing rule names that same target and at least one rule contributes.
   */
  method RulePredicate(q: Question) returns (p: Option<Predicate>)
    ensures p.Some? <==>
      && SkipIdentifier(q).Some?
      && FormSubtypeOf(ItemType(q)).Some?
      && SkipTargetsAgree(q.constraints.rules.value, FormSubtypeOf(ItemType(q)).value, SkipIdentifier(q).value)
      && RulePredicates(q.constraints.rules.value, FormSubtypeOf(ItemType(q)).value) != []
    ensures p.Some? ==> p.value == Or(RulePredicates(q.constraints.rules.value, FormSubtypeOf(ItemType(q)).value))
  {
    var skipIdentifier := SkipIdentifier(q);
    var subtype := FormSubtypeOf(ItemType(q));
    if skipIdentifier.None? || subtype.None? {
      return None;
    }
    p := CombineRulePredicates(q.constraints.rules.value, subtype.value, skipIdentifier.value);
  }

  /** The loop of `RulePredicate`, once the target and the subtype are known. */
  method CombineRulePredicates(entries: seq<RuleEntry>, st: FormSubtype, skip: string) returns (p: Option<Predicate>)
    ensures p.Some? <==> SkipTargetsAgree(entries, st, skip) && RulePredicates(entries, st) != []
    ensures p.Some? ==> p.value == Or(RulePredicates(entries, st))
  {
    p := CollectAgreeing(entries, EntryPredicateOf(st), skip);
    assert RulePredicates(entries, st) == Somes(Applied(entries, EntryPredicateOf(st)));
    assert SkipTargetsAgree(entries, st, skip) <==>
      forall j :: 0 <= j < |entries| && EntryPredicateOf(st)(entries[j]).Some? ==> SkipTarget(entries[j]) == Some(skip);
  }

  /** The step a rule entry names, if it is a rule. */
  function SkipTarget(e: RuleEntry): (r: Option<string>)
    ensures e.Rule? ==> r == e.rule.skipTo
  {
    if e.Rule? then e.rule.skipTo else None
  }

  /**
   * The loop itself, for any way `predicateOf` of reading an entry as a predicate: it gathers
   * the predicates in order and gives up at the first entry with a predicate that names a
   * step other than `skip`, or when no entry has a predicate.
   */
  method CollectAgreeing(entries: seq<RuleEntry>, predicateOf: RuleEntry -> Option<Predicate>, skip: string)
    returns (p: Option<Predicate>)
    ensures p.Some? <==>
      && (forall j :: 0 <= j < |entries| && predicateOf(entries[j]).Some? ==> SkipTarget(entries[j]) == Some(skip))
      && Somes(Applied(entries, predicateOf)) != []
    ensures p.Some? ==> p.value == Or(Somes(Applied(entries, predicateOf)))
  {
    ghost var xs := Applied(entries, predicateOf);
    var predicates: seq<Predicate> := [];
    for i := 0 to |entries|
      invariant predicates == Somes(xs[..i])
      invariant forall j :: 0 <= j < i && predicateOf(entries[j]).Some? ==> SkipTarget(entries[j]) == Some(skip)
    {
      SomesExtend(xs, i);
      var entryPredicate := predicateOf(entries[i]);
      if entryPredicate.Some? {
        if SkipTarget(entries[i]) != Some(skip) {
          return None;
        }
        predicates := predicates + [entryPredicate.value];
      }
    }
    assert xs[..|entries|] == xs;
    SomesEmptyIff(xs);
    if |predicates| == 0 {
      return None;
    }
    return Some(Or(predicates));
  }

  // ---------------------------------------------------------------------------
  // Date and number ranges
  // ---------------------------------------------------------------------------

  function MinDate(r: DateRange): (d: Option<Date>)
    ensures d == r.earliestValue
  {
    r.earliestValue
  }

  /** The latest allowed date; `now` is the clock reading used when future dates are barred and no bound is given. */
  function MaxDate(r: DateRange, now: Date): (d: Option<Date>)
    ensures !r.allowFutureValue && r.latestValue.None? ==> d == Some(now)
    ensures r.allowFutureValue || r.latestValue.Some? ==> d == r.latestValue
    ensures d.None? <==> r.allowFutureValue && r.latestValue.None?
  {
    if !r.allowFutureValue && r.latestValue.None? then Some(now) else r.latestValue
  }

  /** A bound is reported only when both bounds are present. */
  function MinNumber(r: NumberRange): (n: Option<real>)
    ensures n.Some? <==> r.minValue.Some? && r.maxValue.Some?
    ensures n.Some? ==> n == r.minValue
  {
    if r.minValue.Some? && r.maxValue.Some? then r.minValue else None
  }

  function MaxNumber(r: NumberRange): (n: Option<real>)
    ensures n.Some? <==> r.minValue.Some? && r.maxValue.Some?
    ensures n.Some? ==> n == r.maxValue
  {
    if r.minValue.Some? && r.maxValue.Some? then r.maxValue else None
  }

  /** `NSNumber.integerValue` of a real: the integer part, rounding toward zero. */
  function TruncateTowardZero(x: real): (n: int)
    ensures 0.0 <= x ==> n as real <= x < n as real + 1.0
    ensures x < 0.0 ==> n as real - 1.0 < x <= n as real
  {
    if 0.0 <= x then x.Floor else -((-x).Floor)
  }

  /** The step between scale values; 1 when the constraints give none. */
  function StepInterval(r: NumberRange): (n: int)
    ensures r.step.None? ==> n == 1
    ensures r.step.Some? ==> n == TruncateTowardZero(r.step.value)
  {
    if r.step.None? then 1 else TruncateTowardZero(r.step.value)
  }

  /** The unit label: absent for an empty or missing unit, otherwise the unit itself. */
  function UnitLabel(r: NumberRange): (u: Option<string>)
    ensures u.None? <==> r.unit.None? || r.unit == Some("")
    ensures u.Some? ==> u == r.unit
  {
    if r.unit != Some("") then r.unit else None
  }
}
