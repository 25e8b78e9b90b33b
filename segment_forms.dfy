/**
 * The catalogues behind the segment rule builder: which comparison
 * operators each kind of field offers, the definition of every operator,
 * the period and time-filter choices, and the list of custom-field
 * options shown when the feature is enabled.
 */
module SegmentForms {

  import opened Wrappers
  import opened SegmentTypes

  /** The `type` of a field definition. */
  datatype FieldKind =
    | StringField | NumberField | DateField | BooleanField | SelectField
    | JsonPathField | LeadConversionField

  function KindName(k: FieldKind): string {
    match k
    case StringField => "string"
    case NumberField => "number"
    case DateField => "date"
    case BooleanField => "boolean"
    case SelectField => "select"
    case JsonPathField => "json_path"
    case LeadConversionField => "lead_conversion"
  }

  /** The operators a field definition can list. */
  datatype Operator =
    | Equals | NotEquals | Contains | NotContains | StartsWith | EndsWith
    | LessThan | GreaterThan | GreaterThanOrEqual | LessThanOrEqual
    | Before | After | Between | IsEmpty | IsNotEmpty
    | JsonKeyEquals | JsonContains | JsonKeyExists
    | LeadHasConversion | LeadNotHasConversion

  function OperatorKey(op: Operator): string {
    match op
    case Equals => "equals"
    case NotEquals => "notEquals"
    case Contains => "contains"
    case NotContains => "notContains"
    case StartsWith => "startsWith"
    case EndsWith => "endsWith"
    case LessThan => "lessThan"
    case GreaterThan => "greaterThan"
    case GreaterThanOrEqual => "greaterThanOrEqual"
    case LessThanOrEqual => "lessThanOrEqual"
    case Before => "before"
    case After => "after"
    case Between => "between"
    case IsEmpty => "isEmpty"
    case IsNotEmpty => "isNotEmpty"
    case JsonKeyEquals => "jsonKeyEquals"
    case JsonContains => "jsonContains"
    case JsonKeyExists => "jsonKeyExists"
    case LeadHasConversion => "leadHasConversion"
    case LeadNotHasConversion => "leadNotHasConversion"
  }

  datatype FieldGroup = LeadGroup | ConversionGroup | CustomFieldGroup

  /** An entry of the field picker; `caption` is its `label`. */
  datatype FieldDefinition = FieldDefinition(
    id: string,
    key: Option<string>,
    caption: string,
    fieldType: FieldKind,
    operators: seq<Operator>,
    options: Option<seq<string>>,
    fieldGroup: FieldGroup,
    custom: Option<bool>)

  datatype ValueType = TextValue | NumberValue | SelectValue | MultiSelectValue | DateValue | NoValue

  datatype OperatorDefinition = OperatorDefinition(
    key: Operator,
    caption: string,
    valueType: ValueType,
    supportedFieldTypes: seq<FieldKind>)

  /** `FIELD_TYPE_OPERATORS`: the operators offered for each field type. */
  function KindOperators(k: FieldKind): seq<Operator> {
    match k
    case StringField =>
      [Equals, NotEquals, Contains, NotContains, StartsWith, EndsWith, IsEmpty, IsNotEmpty]
    case NumberField =>
      [Equals, NotEquals, LessThan, GreaterThan, GreaterThanOrEqual, LessThanOrEqual, IsEmpty, IsNotEmpty]
    case DateField => [Equals, NotEquals, Before, After, Between, IsEmpty, IsNotEmpty]
    case SelectField => [Equals, NotEquals, IsEmpty, IsNotEmpty]
    case BooleanField => [Equals, NotEquals]
    case JsonPathField => [JsonKeyEquals, JsonContains, JsonKeyExists]
    case LeadConversionField => [LeadHasConversion, LeadNotHasConversion]
  }

  /** `OPERATORS`. */
  const Operators: seq<OperatorDefinition> := [
    OperatorDefinition(Equals, "Igual a", TextValue, [StringField, NumberField, SelectField, BooleanField]),
    OperatorDefinition(NotEquals, "Diferente de", TextValue, [StringField, NumberField, SelectField, BooleanField]),
    OperatorDefinition(Contains, "Cont\U{00E9}m", TextValue, [StringField]),
    OperatorDefinition(NotContains, "N\U{00E3}o cont\U{00E9}m", TextValue, [StringField]),
    OperatorDefinition(StartsWith, "Come\U{00E7}a com", TextValue, [StringField]),
    OperatorDefinition(EndsWith, "Termina com", TextValue, [StringField]),
    OperatorDefinition(LessThan, "Menor que", NumberValue, [NumberField]),
    OperatorDefinition(GreaterThan, "Maior que", NumberValue, [NumberField]),
    OperatorDefinition(GreaterThanOrEqual, "Maior ou igual a", NumberValue, [NumberField]),
    OperatorDefinition(LessThanOrEqual, "Menor ou igual a", NumberValue, [NumberField]),
    OperatorDefinition(Before, "Antes de", DateValue, [DateField]),
    OperatorDefinition(After, "Depois de", DateValue, [DateField]),
    OperatorDefinition(Between, "Entre", TextValue, [NumberField, DateField]),
    OperatorDefinition(IsEmpty, "Est\U{00E1} vazio", NoValue, [StringField, NumberField, DateField, SelectField]),
    OperatorDefinition(IsNotEmpty, "N\U{00E3}o est\U{00E1} vazio", NoValue, [StringField, NumberField, DateField, SelectField]),
    OperatorDefinition(JsonKeyEquals, "Chave JSON igual a", TextValue, [JsonPathField]),
    OperatorDefinition(JsonContains, "JSON cont\U{00E9}m valor", TextValue, [JsonPathField]),
    OperatorDefinition(JsonKeyExists, "Chave JSON existe", TextValue, [JsonPathField]),
    OperatorDefinition(LeadHasConversion, "Lead tem convers\U{00E3}o", TextValue, [LeadConversionField]),
    OperatorDefinition(LeadNotHasConversion, "Lead n\U{00E3}o tem convers\U{00E3}o", TextValue, [LeadConversionField])
  ]

  /** A choice of a select box: the stored value and its label (`caption`). */
  datatype SelectOption = SelectOption(value: string, caption: string)

  function OptionValues(os: seq<SelectOption>): (r: seq<string>)
    ensures |r| == |os| && forall i :: 0 <= i < |os| ==> r[i] == os[i].value
  {
    seq(|os|, i requires 0 <= i < |os| => os[i].value)
  }

  /** `TIME_FILTER_OPTIONS`. */
  const TimeFilterOptions: seq<SelectOption> := [
    SelectOption("lead.createdAt", "Data de cria\U{00E7}\U{00E3}o do lead"),
    SelectOption("conversion.first", "Primeira convers\U{00E3}o"),
    SelectOption("conversion.last", "\U{00DA}ltima convers\U{00E3}o"),
    SelectOption("conversion.any", "Qualquer convers\U{00E3}o no per\U{00ED}odo"),
    SelectOption("conversion.first_strict", "Primeira convers\U{00E3}o (estrita)"),
    SelectOption("conversion.last_strict", "\U{00DA}ltima convers\U{00E3}o (estrita)")
  ]

  /** `RELATIVE_PERIOD_OPTIONS`. */
  const RelativePeriodOptions: seq<SelectOption> := [
    SelectOption("automatic", "Autom\U{00E1}tico"),
    SelectOption("today", "Hoje"),
    SelectOption("yesterday", "Ontem"),
    SelectOption("thisWeek", "Esta semana"),
    SelectOption("lastWeek", "Semana passada"),
    SelectOption("thisMonth", "Este m\U{00EA}s"),
    SelectOption("lastMonth", "M\U{00EA}s passado"),
    SelectOption("thisQuarter", "Este trimestre"),
    SelectOption("lastQuarter", "Trimestre passado"),
    SelectOption("none", "Nenhum"),
    SelectOption("absolute", "Fixo")
  ]

  /** The select boxes offer exactly the members of the period and time-filter types. */
  lemma OptionsMatchTypes()
    ensures OptionValues(RelativePeriodOptions) == RelativePeriodValues
    ensures OptionValues(TimeFilterOptions) == TimeFilterTypes
  {
  }

  /**
   * `buildDynamicFieldOptions(customFieldOptions = [], hasCustomFieldsFeature = false)`:
   * the custom options, in order, when the feature is on and there are any;
   * otherwise nothing.
   */
  function BuildDynamicFieldOptions(customFieldOptions: seq<FieldDefinition>, hasCustomFieldsFeature: bool): (r: seq<FieldDefinition>)
    ensures hasCustomFieldsFeature && |customFieldOptions| > 0 ==> r == customFieldOptions
    ensures !hasCustomFieldsFeature || |customFieldOptions| == 0 ==> r == []
  {
    var allFields: seq<FieldDefinition> := [];
    if hasCustomFieldsFeature && |customFieldOptions| > 0 then allFields + customFieldOptions else allFields
  }

  /** The call with both defaults. */
  function BuildDefaultFieldOptions(): (r: seq<FieldDefinition>)
    ensures r == []
  {
    BuildDynamicFieldOptions([], false)
  }

  /** The position of an operator's definition in `Operators`. */
  function OperatorIndex(op: Operator): nat {
    match op
    case Equals => 0
    case NotEquals => 1
    case Contains => 2
    case NotContains => 3
    case StartsWith => 4
    case EndsWith => 5
    case LessThan => 6
    case GreaterThan => 7
    case GreaterThanOrEqual => 8
    case LessThanOrEqual => 9
    case Before => 10
    case After => 11
    case Between => 12
    case IsEmpty => 13
    case IsNotEmpty => 14
    case JsonKeyEquals => 15
    case JsonContains => 16
    case JsonKeyExists => 17
    case LeadHasConversion => 18
    case LeadNotHasConversion => 19
  }

  /** Every operator has a definition: the entry at `OperatorIndex(op)`. */
  lemma OperatorDefined(op: Operator)
    ensures OperatorIndex(op) < |Operators| && Operators[OperatorIndex(op)].key == op
  {
    KeysOfOperators();
    assert OperatorKeys[OperatorIndex(op)] == op;
  }

  /** The operators' keys, in definition order. */
  const OperatorKeys: seq<Operator> := [Equals, NotEquals, Contains, NotContains, StartsWith, EndsWith,
    LessThan, GreaterThan, GreaterThanOrEqual, LessThanOrEqual, Before, After, Between,
    IsEmpty, IsNotEmpty, JsonKeyEquals, JsonContains, JsonKeyExists,
    LeadHasConversion, LeadNotHasConversion]

  lemma KeysOfOperators()
    ensures |OperatorKeys| == |Operators|
    ensures forall i :: 0 <= i < |Operators| ==> Operators[i].key == OperatorKeys[i]
  {
    var keys := seq(|Operators|, i requires 0 <= i < |Operators| => Operators[i].key);
    assert keys == OperatorKeys;
  }

  lemma KeysAtOwnIndex()
    ensures forall i :: 0 <= i < |OperatorKeys| ==> OperatorIndex(OperatorKeys[i]) == i
  {
  }

  /** No operator has two definitions: every entry sits at the index of its own key. */
  lemma OperatorsDistinct()
    ensures forall i :: 0 <= i < |Operators| ==> OperatorIndex(Operators[i].key) == i
  {
    KeysOfOperators();
    KeysAtOwnIndex();
  }

  /**
   * The JSON-path and lead-conversion kinds offer only their own operators:
   * no other kind lists them, and their definitions support that one kind.
   */
  lemma DedicatedOperators(k: FieldKind, op: Operator)
    requires k == JsonPathField || k == LeadConversionField
    requires op in KindOperators(k)
    ensures OperatorIndex(op) < |Operators| && Operators[OperatorIndex(op)].key == op
    ensures Operators[OperatorIndex(op)].supportedFieldTypes == [k]
    ensures forall other: FieldKind :: other != k ==> op !in KindOperators(other)
  {
    OperatorDefined(op);
    DedicatedSupport(k, op);
    DedicatedExclusive(k, op);
  }

  lemma DedicatedSupport(k: FieldKind, op: Operator)
    requires k == JsonPathField || k == LeadConversionField
    requires op in KindOperators(k)
    ensures OperatorIndex(op) >= 15 && Operators[OperatorIndex(op)].supportedFieldTypes == [k]
  {
    var support := seq(|Operators|, i requires 0 <= i < |Operators| => Operators[i].supportedFieldTypes);
    assert support[15..] == [[JsonPathField], [JsonPathField], [JsonPathField],
      [LeadConversionField], [LeadConversionField]];
  }

  lemma DedicatedExclusive(k: FieldKind, op: Operator)
    requires k == JsonPathField || k == LeadConversionField
    requires op in KindOperators(k)
    ensures forall other: FieldKind :: other != k ==> op !in KindOperators(other)
  {
  }

  /**
   * The two catalogues do not agree everywhere: date fields offer
   * `equals`, whose definition does not list the date type.
   */
  lemma DateEqualsUndeclared()
    ensures Equals in KindOperators(DateField)
    ensures Operators[0].key == Equals && DateField !in Operators[0].supportedFieldTypes
  {
  }
}
