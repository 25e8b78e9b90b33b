/**
 * The legacy-to-current field key tables used only while migrating data,
 * and the per-entity lookup that normalises a key.
 */
module FieldMappings {

  import opened Wrappers

  /** Legacy conversion field names (and lead-level UTM names used by segments). */
  function ConversionFieldMapping(key: string): Option<string> {
    match key
    case "conversion_name" => Some("name")
    case "conversion_identifier" => Some("identifier")
    case "conversion_date" => Some("date")
    case "conversion_url" => Some("url")
    case "conversion_domain" => Some("domain")
    case "conversion_value" => Some("value")
    case "traffic_source_source" => Some("utm_source")
    case "traffic_source_medium" => Some("utm_medium")
    case "traffic_source_campaign" => Some("utm_campaign")
    case "traffic_source_content" => Some("utm_content")
    case "traffic_source_term" => Some("utm_term")
    case "traffic_source_channel" => Some("utm_channel")
    case "last_traffic_source_campaign" => Some("last_conversion_utm_campaign")
    case "last_traffic_source_medium" => Some("last_conversion_utm_medium")
    case "last_traffic_source_source" => Some("last_conversion_utm_source")
    case "last_traffic_source_content" => Some("last_conversion_utm_content")
    case "last_traffic_source_term" => Some("last_conversion_utm_term")
    case "payload_raw_json" => Some("raw_payload")
    case _ => None
  }

  /** Legacy lead field names. */
  function LeadFieldMapping(key: string): Option<string> {
    match key
    case "mobile_phone" => Some("phone")
    case "personal_phone" => Some("secondary_phone")
    case _ => None
  }

  /** There are no custom field renames. */
  function CustomFieldMapping(key: string): Option<string> {
    None
  }

  /** The current names the tables produce, in table order. */
  const ConversionTargets: seq<string> := [
    "name", "identifier", "date", "url", "domain", "value",
    "utm_source", "utm_medium", "utm_campaign", "utm_content", "utm_term", "utm_channel",
    "last_conversion_utm_campaign", "last_conversion_utm_medium", "last_conversion_utm_source",
    "last_conversion_utm_content", "last_conversion_utm_term", "raw_payload"
  ]

  const LeadTargets: seq<string> := ["phone", "secondary_phone"]

  /** The own property `key` of the table selected by an entity type, if any. */
  function MappingFor(entityType: string, key: string): Option<string> {
    match entityType
    case "conversions" => ConversionFieldMapping(key)
    case "leads" => LeadFieldMapping(key)
    case "custom_fields" => CustomFieldMapping(key)
    case _ => None
  }

  /**
   * The current name of a legacy field key: the mapped name when the
   * entity's table has the key, otherwise the key itself.
   */
  function NormalizeFieldKey(fieldKey: string, entityType: string): (r: string)
    ensures MappingFor(entityType, fieldKey).Some? ==> r == MappingFor(entityType, fieldKey).value
    ensures MappingFor(entityType, fieldKey).None? ==> r == fieldKey
  {
    // Every mapped name is non-empty, so `||` only falls back on a missing key.
    match MappingFor(entityType, fieldKey)
    case Some(mapped) => mapped
    case None => fieldKey
  }

  /**
   * A key normalises to itself exactly when the entity's table does not
   * rename it: a key missing from the table is kept, and a listed key
   * always changes.
   */
  lemma NormalizeKeepsExactlyUnmapped(fieldKey: string, entityType: string)
    ensures NormalizeFieldKey(fieldKey, entityType) == fieldKey <==> MappingFor(entityType, fieldKey).None?
  {
    if MappingFor(entityType, fieldKey).Some? {
      MappingRenames(fieldKey);
    }
  }

  /** Every name produced by a table is one of its listed targets. */
  lemma MappedNamesAreTargets(key: string)
    ensures ConversionFieldMapping(key).Some? ==> ConversionFieldMapping(key).value in ConversionTargets
    ensures LeadFieldMapping(key).Some? ==> LeadFieldMapping(key).value in LeadTargets
  {
  }

  // The target names, three at a time, checked against both tables.

  lemma ConversionTargetsAAreNotKeys()
    ensures forall i :: 0 <= i < 3 ==> ConversionFieldMapping(ConversionTargets[i]).None?
    ensures forall i :: 0 <= i < 3 ==> LeadFieldMapping(ConversionTargets[i]).None?
  {
  }

  lemma ConversionTargetsBAreNotKeys()
    ensures forall i :: 3 <= i < 6 ==> ConversionFieldMapping(ConversionTargets[i]).None?
    ensures forall i :: 3 <= i < 6 ==> LeadFieldMapping(ConversionTargets[i]).None?
  {
  }

  lemma UtmTargetsAAreNotKeys()
    ensures forall i :: 6 <= i < 9 ==> ConversionFieldMapping(ConversionTargets[i]).None?
    ensures forall i :: 6 <= i < 9 ==> LeadFieldMapping(ConversionTargets[i]).None?
  {
  }

  lemma UtmTargetsBAreNotKeys()
    ensures forall i :: 9 <= i < 12 ==> ConversionFieldMapping(ConversionTargets[i]).None?
    ensures forall i :: 9 <= i < 12 ==> LeadFieldMapping(ConversionTargets[i]).None?
  {
  }

  lemma LastUtmTargetsAAreNotKeys()
    ensures forall i :: 12 <= i < 15 ==> ConversionFieldMapping(ConversionTargets[i]).None?
    ensures forall i :: 12 <= i < 15 ==> LeadFieldMapping(ConversionTargets[i]).None?
  {
  }

  lemma LastUtmTargetsBAreNotKeys()
    ensures forall i :: 15 <= i < 18 ==> ConversionFieldMapping(ConversionTargets[i]).None?
    ensures forall i :: 15 <= i < 18 ==> LeadFieldMapping(ConversionTargets[i]).None?
  {
  }

  /** No target name is itself a legacy key of either table. */
  lemma TargetsAreNotKeys(t: string)
    requires t in ConversionTargets || t in LeadTargets
    ensures ConversionFieldMapping(t).None? && LeadFieldMapping(t).None?
  {
    ConversionTargetsAAreNotKeys();
    ConversionTargetsBAreNotKeys();
    UtmTargetsAAreNotKeys();
    UtmTargetsBAreNotKeys();
    LastUtmTargetsAAreNotKeys();
    LastUtmTargetsBAreNotKeys();
    if t in ConversionTargets {
      var i :| 0 <= i < |ConversionTargets| && ConversionTargets[i] == t;
    }
  }

  /** A mapped key is renamed to a different, non-empty name. */
  lemma MappingRenames(key: string)
    ensures ConversionFieldMapping(key).Some? ==> key != "" && ConversionFieldMapping(key).value != key
    ensures LeadFieldMapping(key).Some? ==> key != "" && LeadFieldMapping(key).value != key
  {
    MappedNamesAreTargets(key);
    if ConversionFieldMapping(key).Some? {
      TargetsAreNotKeys(ConversionFieldMapping(key).value);
    }
    if LeadFieldMapping(key).Some? {
      TargetsAreNotKeys(LeadFieldMapping(key).value);
    }
  }

  /** A lead key is never also a conversion key. */
  lemma KeySetsDisjoint(key: string)
    ensures !(ConversionFieldMapping(key).Some? && LeadFieldMapping(key).Some?)
  {
    assert ConversionFieldMapping("mobile_phone").None?;
    assert ConversionFieldMapping("personal_phone").None?;
  }

  /** Normalising a normalised key changes nothing. */
  lemma NormalizeIdempotent(fieldKey: string, entityType: string)
    ensures NormalizeFieldKey(NormalizeFieldKey(fieldKey, entityType), entityType)
      == NormalizeFieldKey(fieldKey, entityType)
  {
    var r := NormalizeFieldKey(fieldKey, entityType);
    if r != fieldKey {
      MappedNamesAreTargets(fieldKey);
      TargetsAreNotKeys(r);
    }
  }

  /** The custom-field entity type and every unknown entity type leave keys unchanged. */
  lemma NormalizeIdentityOutsideTables(fieldKey: string, entityType: string)
    requires entityType != "conversions" && entityType != "leads"
    ensures NormalizeFieldKey(fieldKey, entityType) == fieldKey
  {
  }

  /** Some concrete renames. */
  lemma ConcreteEntries()
    ensures NormalizeFieldKey("mobile_phone", "leads") == "phone"
    ensures NormalizeFieldKey("personal_phone", "leads") == "secondary_phone"
    ensures NormalizeFieldKey("traffic_source_channel", "conversions") == "utm_channel"
    ensures NormalizeFieldKey("last_traffic_source_term", "conversions") == "last_conversion_utm_term"
    ensures NormalizeFieldKey("payload_raw_json", "conversions") == "raw_payload"
    ensures NormalizeFieldKey("mobile_phone", "conversions") == "mobile_phone"
  {
  }

  // ---------------------------------------------------------------------
  // The lookup as written: `MAP[key] || key` reads a plain object, so a key
  // naming a member of Object.prototype yields that inherited member.
  // ---------------------------------------------------------------------

  /** What reading a property of a plain object literal can yield. */
  datatype PropertyValue =
    | Text(s: string)    // an own string property, or the key passed through
    | Method             // an inherited function such as `toString`
    | ObjectPrototype    // `__proto__`, which yields Object.prototype itself

  /** The function-valued members every plain object inherits. */
  const InheritedMethodNames: seq<string> := [
    "constructor", "hasOwnProperty", "isPrototypeOf", "propertyIsEnumerable",
    "toString", "valueOf", "toLocaleString", "__defineGetter__",
    "__defineSetter__", "__lookupGetter__", "__lookupSetter__"
  ]

  predicate IsInheritedName(key: string) {
    key in InheritedMethodNames || key == "__proto__"
  }

  /** `MAP[key]` on a table object: own property first, then Object.prototype. */
  function PropertyRead(ownProperty: Option<string>, key: string): Option<PropertyValue> {
    match ownProperty
    case Some(s) => Some(Text(s))
    case None =>
      if key in InheritedMethodNames then Some(Method)
      else if key == "__proto__" then Some(ObjectPrototype)
      else None
  }

  /** `normalizeFieldKey` exactly as written, including inherited members. */
  function NormalizeFieldKeyAsWritten(fieldKey: string, entityType: string): (r: PropertyValue)
    ensures !IsInheritedName(fieldKey) ==> r == Text(NormalizeFieldKey(fieldKey, entityType))
  {
    if entityType == "conversions" || entityType == "leads" || entityType == "custom_fields" then
      match PropertyRead(MappingFor(entityType, fieldKey), fieldKey)
      case Some(v) => v
      case None => Text(fieldKey)
    else Text(fieldKey)
  }

  /** The key "constructor" yields the inherited Object function instead of itself. */
  lemma AsWrittenConstructorCounterexample()
    ensures NormalizeFieldKeyAsWritten("constructor", "leads") == Method
    ensures NormalizeFieldKey("constructor", "leads") == "constructor"
  {
  }
}
