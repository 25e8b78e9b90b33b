/**
 * The field picker of the segment rule builder: the static lead and
 * conversion fields, and the definition built for each custom field of
 * the leads table.
 */
module FieldDefinitions {

  import opened Wrappers
  import opened SegmentForms

  /** `LEAD_FIELDS`: the columns of the leads table. */
  const LeadFields: seq<FieldDefinition> := [
    FieldDefinition("name", Some("name"), "Nome", StringField,
      [Equals, NotEquals, Contains, NotContains, StartsWith, EndsWith, IsEmpty, IsNotEmpty],
      None, LeadGroup, None),
    FieldDefinition("email", Some("email"), "Email", StringField,
      [Equals, NotEquals, Contains, NotContains, StartsWith, EndsWith, IsEmpty, IsNotEmpty],
      None, LeadGroup, None),
    FieldDefinition("secondary_email", Some("secondary_email"), "Email Secund\U{00E1}rio", StringField,
      [Equals, NotEquals, Contains, NotContains, StartsWith, EndsWith, IsEmpty, IsNotEmpty],
      None, LeadGroup, None),
    FieldDefinition("phone", Some("phone"), "Telefone", StringField,
      [Equals, NotEquals, Contains, NotContains, StartsWith, EndsWith, IsEmpty, IsNotEmpty],
      None, LeadGroup, None),
    FieldDefinition("secondary_phone", Some("secondary_phone"), "Telefone Secund\U{00E1}rio", StringField,
      [Equals, NotEquals, Contains, NotContains, StartsWith, EndsWith, IsEmpty, IsNotEmpty],
      None, LeadGroup, None),
    FieldDefinition("company", Some("company"), "Empresa", StringField,
      [Equals, NotEquals, Contains, NotContains, StartsWith, EndsWith, IsEmpty, IsNotEmpty],
      None, LeadGroup, None),
    FieldDefinition("job_title", Some("job_title"), "Cargo", StringField,
      [Equals, NotEquals, Contains, NotContains, StartsWith, EndsWith, IsEmpty, IsNotEmpty],
      None, LeadGroup, None),
    FieldDefinition("import_method", Some("import_method"), "M\U{00E9}todo de Importa\U{00E7}\U{00E3}o", StringField,
      [Equals, NotEquals, Contains, NotContains, IsEmpty, IsNotEmpty],
      None, LeadGroup, None),
    FieldDefinition("external_id", Some("external_id"), "ID Externo", StringField,
      [Equals, NotEquals, Contains, NotContains, IsEmpty, IsNotEmpty],
      None, LeadGroup, None),
    FieldDefinition("external_source", Some("external_source"), "Fonte Externa", StringField,
      [Equals, NotEquals, Contains, NotContains, IsEmpty, IsNotEmpty],
      None, LeadGroup, None),
    FieldDefinition("fit_score", Some("fit_score"), "Fit Score", SelectField,
      [Equals, NotEquals, IsEmpty, IsNotEmpty],
      Some(["A", "B", "C", "D", "F", "a", "b", "c", "d", "f"]), LeadGroup, None),
    FieldDefinition("interest", Some("interest"), "Interesse", NumberField,
      [Equals, NotEquals, GreaterThan, LessThan, GreaterThanOrEqual, LessThanOrEqual, IsEmpty, IsNotEmpty],
      None, LeadGroup, None),
    FieldDefinition("total_conversions", Some("total_conversions"), "Total de Convers\U{00F5}es", NumberField,
      [Equals, NotEquals, GreaterThan, LessThan, GreaterThanOrEqual, LessThanOrEqual],
      None, LeadGroup, None),
    FieldDefinition("first_conversion_date", Some("first_conversion_date"), "Data da Primeira Convers\U{00E3}o", DateField,
      [Equals, NotEquals, Before, After, Between, IsEmpty, IsNotEmpty],
      None, LeadGroup, None),
    FieldDefinition("last_conversion_date", Some("last_conversion_date"), "Data da \U{00DA}ltima Convers\U{00E3}o", DateField,
      [Equals, NotEquals, Before, After, Between, IsEmpty, IsNotEmpty],
      None, LeadGroup, None),
    FieldDefinition("first_conversion_utm_source", Some("first_conversion_utm_source"), "Primeira Convers\U{00E3}o - UTM Source", StringField,
      [Equals, NotEquals, Contains, NotContains, IsEmpty, IsNotEmpty],
      None, LeadGroup, None),
    FieldDefinition("first_conversion_utm_medium", Some("first_conversion_utm_medium"), "Primeira Convers\U{00E3}o - UTM Medium", StringField,
      [Equals, NotEquals, Contains, NotContains, IsEmpty, IsNotEmpty],
      None, LeadGroup, None),
    FieldDefinition("first_conversion_utm_campaign", Some("first_conversion_utm_campaign"), "Primeira Convers\U{00E3}o - UTM Campaign", StringField,
      [Equals, NotEquals, Contains, NotContains, IsEmpty, IsNotEmpty],
      None, LeadGroup, None),
    FieldDefinition("first_conversion_utm_content", Some("first_conversion_utm_content"), "Primeira Convers\U{00E3}o - UTM Content", StringField,
      [Equals, NotEquals, Contains, NotContains, IsEmpty, IsNotEmpty],
      None, LeadGroup, None),
    FieldDefinition("first_conversion_utm_term", Some("first_conversion_utm_term"), "Primeira Convers\U{00E3}o - UTM Term", StringField,
      [Equals, NotEquals, Contains, NotContains, IsEmpty, IsNotEmpty],
      None, LeadGroup, None),
    FieldDefinition("last_conversion_utm_source", Some("last_conversion_utm_source"), "\U{00DA}ltima Convers\U{00E3}o - UTM Source", StringField,
      [Equals, NotEquals, Contains, NotContains, IsEmpty, IsNotEmpty],
      None, LeadGroup, None),
    FieldDefinition("last_conversion_utm_medium", Some("last_conversion_utm_medium"), "\U{00DA}ltima Convers\U{00E3}o - UTM Medium", StringField,
      [Equals, NotEquals, Contains, NotContains, IsEmpty, IsNotEmpty],
      None, LeadGroup, None),
    FieldDefinition("last_conversion_utm_campaign", Some("last_conversion_utm_campaign"), "\U{00DA}ltima Convers\U{00E3}o - UTM Campaign", StringField,
      [Equals, NotEquals, Contains, NotContains, IsEmpty, IsNotEmpty],
      None, LeadGroup, None),
    FieldDefinition("last_conversion_utm_content", Some("last_conversion_utm_content"), "\U{00DA}ltima Convers\U{00E3}o - UTM Content", StringField,
      [Equals, NotEquals, Contains, NotContains, IsEmpty, IsNotEmpty],
      None, LeadGroup, None),
    FieldDefinition("last_conversion_utm_term", Some("last_conversion_utm_term"), "\U{00DA}ltima Convers\U{00E3}o - UTM Term", StringField,
      [Equals, NotEquals, Contains, NotContains, IsEmpty, IsNotEmpty],
      None, LeadGroup, None),
    FieldDefinition("tags", Some("tags"), "Tags", StringField,
      [Contains, NotContains, IsEmpty, IsNotEmpty],
      None, LeadGroup, None),
    FieldDefinition("notes", Some("notes"), "Observa\U{00E7}\U{00F5}es", StringField,
      [Contains, NotContains, IsEmpty, IsNotEmpty],
      None, LeadGroup, None),
    FieldDefinition("created_at", Some("created_at"), "Data de Cria\U{00E7}\U{00E3}o", DateField,
      [Equals, NotEquals, Before, After, Between],
      None, LeadGroup, None),
    FieldDefinition("updated_at", Some("updated_at"), "Data de Atualiza\U{00E7}\U{00E3}o", DateField,
      [Equals, NotEquals, Before, After, Between],
      None, LeadGroup, None)
  ]

  /** `CONVERSION_FIELDS`: the columns of the conversions table. */
  const ConversionFields: seq<FieldDefinition> := [
    FieldDefinition("lead_conversion_check", Some("conversion_name"), "Verifica\U{00E7}\U{00E3}o de Convers\U{00E3}o do Lead", LeadConversionField,
      [LeadHasConversion, LeadNotHasConversion],
      None, ConversionGroup, None),
    FieldDefinition("conversion_name", Some("name"), "Nome da Convers\U{00E3}o", StringField,
      [Equals, NotEquals, Contains, NotContains, IsEmpty, IsNotEmpty],
      None, ConversionGroup, None),
    FieldDefinition("conversion_identifier", Some("identifier"), "Identificador da Convers\U{00E3}o", StringField,
      [Equals, NotEquals, Contains, NotContains, IsEmpty, IsNotEmpty],
      None, ConversionGroup, None),
    FieldDefinition("conversion_external_id", Some("external_id"), "ID Externo da Convers\U{00E3}o", StringField,
      [Equals, NotEquals, Contains, NotContains, IsEmpty, IsNotEmpty],
      None, ConversionGroup, None),
    FieldDefinition("conversion_external_source", Some("external_source"), "Fonte Externa da Convers\U{00E3}o", StringField,
      [Equals, NotEquals, Contains, NotContains, IsEmpty, IsNotEmpty],
      None, ConversionGroup, None),
    FieldDefinition("conversion_date", Some("date"), "Data da Convers\U{00E3}o", DateField,
      [Equals, NotEquals, Before, After, Between],
      None, ConversionGroup, None),
    FieldDefinition("conversion_value", Some("value"), "Valor da Convers\U{00E3}o", NumberField,
      [Equals, NotEquals, GreaterThan, LessThan, GreaterThanOrEqual, LessThanOrEqual, IsEmpty, IsNotEmpty],
      None, ConversionGroup, None),
    FieldDefinition("conversion_source", Some("source"), "Fonte da Convers\U{00E3}o", StringField,
      [Equals, NotEquals, Contains, NotContains, IsEmpty, IsNotEmpty],
      None, ConversionGroup, None),
    FieldDefinition("conversion_utm_source", Some("utm_source"), "UTM Source da Convers\U{00E3}o", StringField,
      [Equals, NotEquals, Contains, NotContains, IsEmpty, IsNotEmpty],
      None, ConversionGroup, None),
    FieldDefinition("conversion_utm_medium", Some("utm_medium"), "UTM Medium da Convers\U{00E3}o", StringField,
      [Equals, NotEquals, Contains, NotContains, IsEmpty, IsNotEmpty],
      None, ConversionGroup, None),
    FieldDefinition("conversion_utm_campaign", Some("utm_campaign"), "UTM Campaign da Convers\U{00E3}o", StringField,
      [Equals, NotEquals, Contains, NotContains, IsEmpty, IsNotEmpty],
      None, ConversionGroup, None),
    FieldDefinition("conversion_utm_content", Some("utm_content"), "UTM Content da Convers\U{00E3}o", StringField,
      [Equals, NotEquals, Contains, NotContains, IsEmpty, IsNotEmpty],
      None, ConversionGroup, None),
    FieldDefinition("conversion_utm_term", Some("utm_term"), "UTM Term da Convers\U{00E3}o", StringField,
      [Equals, NotEquals, Contains, NotContains, IsEmpty, IsNotEmpty],
      None, ConversionGroup, None),
    FieldDefinition("conversion_utm_channel", Some("utm_channel"), "UTM Channel da Convers\U{00E3}o", StringField,
      [Equals, NotEquals, Contains, NotContains, IsEmpty, IsNotEmpty],
      None, ConversionGroup, None),
    FieldDefinition("conversion_url", Some("conversion_url"), "URL da Convers\U{00E3}o", StringField,
      [Equals, NotEquals, Contains, NotContains, IsEmpty, IsNotEmpty],
      None, ConversionGroup, None),
    FieldDefinition("conversion_domain", Some("conversion_domain"), "Dom\U{00ED}nio da Convers\U{00E3}o", StringField,
      [Equals, NotEquals, Contains, NotContains, IsEmpty, IsNotEmpty],
      None, ConversionGroup, None),
    FieldDefinition("conversion_device", Some("device"), "Dispositivo", StringField,
      [Equals, NotEquals, Contains, NotContains, IsEmpty, IsNotEmpty],
      None, ConversionGroup, None),
    FieldDefinition("raw_payload", Some("raw_payload"), "Payload JSON (Caminho Personalizado)", JsonPathField,
      [JsonKeyEquals, JsonContains, JsonKeyExists],
      None, ConversionGroup, None)
  ]

  /** `ALL_FIELDS`. */
  const AllFields: seq<FieldDefinition> := LeadFields + ConversionFields

  /** `CUSTOM_FIELD_TEMPLATE`. */
  const CustomFieldTemplate: FieldDefinition :=
    FieldDefinition("custom_field", Some("custom_field"), "Campo Personalizado", StringField,
      [Equals, NotEquals, Contains, NotContains, StartsWith, EndsWith, IsEmpty, IsNotEmpty],
      None, CustomFieldGroup, None)

  /** A definition offers only operators that `FIELD_TYPE_OPERATORS` lists for its type. */
  predicate OperatorsAllowed(f: FieldDefinition) {
    forall j :: 0 <= j < |f.operators| ==> f.operators[j] in KindOperators(f.fieldType)
  }

  /** A row of the `custom_fields` table, as the builder reads it. */
  datatype CustomFieldRow = CustomFieldRow(fieldKey: string, caption: string, fieldType: string)

  /**
   * `buildLeadsCustomFieldDefinition`: a custom field of the leads table
   * is addressed as `custom_fields.<key>`, compares as a number when its
   * type is `integer` or `number` and as a string otherwise, and offers
   * exactly the operators of that type.
   */
  function BuildLeadsCustomFieldDefinition(field: CustomFieldRow): (r: FieldDefinition)
    ensures r.id == "custom_fields." + field.fieldKey && r.key == Some(r.id)
    ensures r.caption == field.caption + " (Personalizado)"
    ensures r.fieldGroup == CustomFieldGroup && r.custom == Some(true) && r.options.None?
    ensures r.fieldType == NumberField <==> (field.fieldType == "integer" || field.fieldType == "number")
    ensures r.fieldType == NumberField || r.fieldType == StringField
    ensures OperatorsAllowed(r)
    ensures forall op :: op in KindOperators(r.fieldType) ==> op in r.operators
  {
    var isNumericField := field.fieldType == "integer" || field.fieldType == "number";
    var path := "custom_fields." + field.fieldKey;
    FieldDefinition(
      path, Some(path), field.caption + " (Personalizado)",
      if isNumericField then NumberField else StringField,
      if isNumericField then
        [Equals, NotEquals, GreaterThan, LessThan, GreaterThanOrEqual, LessThanOrEqual, IsEmpty, IsNotEmpty]
      else
        [Equals, NotEquals, Contains, NotContains, StartsWith, EndsWith, IsEmpty, IsNotEmpty],
      None, CustomFieldGroup, Some(true))
  }

  /** The template offers every string operator and nothing else. */
  lemma TemplateOperators()
    ensures OperatorsAllowed(CustomFieldTemplate)
    ensures CustomFieldTemplate.operators == KindOperators(StringField)
  {
  }

  /** Every lead field belongs to the lead group and offers only the operators of its type. */
  lemma LeadFieldsWellFormed()
    ensures forall i :: 0 <= i < |LeadFields| ==>
      LeadFields[i].fieldGroup == LeadGroup && OperatorsAllowed(LeadFields[i])
  {
    LeadFieldsWellFormedIn(0, 6);
    LeadFieldsWellFormedIn(6, 12);
    LeadFieldsWellFormedIn(12, 18);
    LeadFieldsWellFormedIn(18, 24);
    LeadFieldsWellFormedIn(24, |LeadFields|);
  }

  lemma LeadFieldsWellFormedIn(lo: nat, hi: nat)
    requires lo <= hi <= |LeadFields| && hi - lo <= 6
    ensures forall i :: lo <= i < hi ==>
      LeadFields[i].fieldGroup == LeadGroup && OperatorsAllowed(LeadFields[i])
  {
  }

  /** Every conversion field belongs to the conversion group and offers only the operators of its type. */
  lemma ConversionFieldsWellFormed()
    ensures forall i :: 0 <= i < |ConversionFields| ==>
      ConversionFields[i].fieldGroup == ConversionGroup && OperatorsAllowed(ConversionFields[i])
  {
    ConversionFieldsWellFormedIn(0, 6);
    ConversionFieldsWellFormedIn(6, 12);
    ConversionFieldsWellFormedIn(12, |ConversionFields|);
  }

  lemma ConversionFieldsWellFormedIn(lo: nat, hi: nat)
    requires lo <= hi <= |ConversionFields| && hi - lo <= 6
    ensures forall i :: lo <= i < hi ==>
      ConversionFields[i].fieldGroup == ConversionGroup && OperatorsAllowed(ConversionFields[i])
  {
  }
}
