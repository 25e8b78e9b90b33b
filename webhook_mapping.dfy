/**
 * Migration of webhook field mappings from the old layout
 * `{section: {webhookField: targetField}}` to the new layout
 * `{section: {targetField: fullWebhookPath}}`, where the full path is the
 * payload's base data path followed by the webhook field.
 */
module WebhookMapping {

  import opened Wrappers
  import opened Strings
  import opened JsonValues
  import opened FieldMappings

  const DefaultDataPath: string := "data.leads[0]"
  const MigratedStructureInfo: string := "Migrated from old format"

  /** The full payload path of a webhook field; an empty field stays empty. */
  function BuildFullWebhookPath(webhookField: string, baseDataPath: string): (r: string)
    ensures webhookField == "" ==> r == ""
    ensures webhookField != "" ==> StartsWith(r, baseDataPath + ".") && EndsWith(r, webhookField)
    ensures webhookField != "" ==> |r| == |baseDataPath| + 1 + |webhookField|
  {
    if webhookField == "" then "" else baseDataPath + "." + webhookField
  }

  predicate IsSection(name: string) {
    name == "leads" || name == "conversions" || name == "custom_fields"
  }

  /** `_structure?.dataPath || "data.leads[0]"`, as the text placed in paths. */
  function BaseDataPath(props: seq<(string, Json)>): string {
    var structure := Lookup(props, "_structure");
    if structure.Some? && structure.value.JObj? then
      match Lookup(structure.value.members, "dataPath")
      case Some(d) => if Truthy(d) then ToJsString(d) else DefaultDataPath
      case None => DefaultDataPath
    else DefaultDataPath
  }

  /** The `_structure` of the result: the old one when truthy, else a default. */
  function Structure(props: seq<(string, Json)>): Json {
    match Lookup(props, "_structure")
    case Some(s) =>
      if Truthy(s) then s
      else JObj([("dataPath", JStr(DefaultDataPath)), ("structureInfo", JStr(MigratedStructureInfo))])
    case None => JObj([("dataPath", JStr(DefaultDataPath)), ("structureInfo", JStr(MigratedStructureInfo))])
  }

  /**
   * `Object.keys(v)` paired with `v[key]`: null has no keys (a TypeError),
   * strings and arrays are indexed, numbers and booleans have none.
   */
  function OwnEntries(v: Json): Option<seq<(string, Json)>> {
    match v
    case JNull => None
    case JBool(_) => Some([])
    case JNum(_) => Some([])
    case JStr(s) => Some(seq(|s|, i requires 0 <= i < |s| => (NatToString(i), JStr([s[i]]))))
    case JArr(items) => Some(seq(|items|, i requires 0 <= i < |items| => (NatToString(i), items[i])))
    case JObj(ms) => Some(Spread(ms))
  }

  /** `custom_fields` carries its own metadata keys, which are not mappings. */
  predicate Skipped(section: string, webhookField: string) {
    section == "custom_fields" && (webhookField == "dataPath" || webhookField == "structureInfo")
  }

  /** The key the new layout uses for a target field. */
  function TargetKey(section: string, target: Json): string {
    NormalizeFieldKey(ToJsString(target), section)
  }

  /** One flip `out[target] = path` of the forEach over a section. */
  function FlipEntry(section: string, base: string, out: seq<(string, Json)>, entry: (string, Json)): seq<(string, Json)> {
    if Skipped(section, entry.0) then out
    else Assign(out, TargetKey(section, entry.1), JStr(BuildFullWebhookPath(entry.0, base)))
  }

  /** Every flip of a section, in key order. */
  function FlipAll(section: string, base: string, out: seq<(string, Json)>, entries: seq<(string, Json)>): seq<(string, Json)>
    decreases |entries|
  {
    if |entries| == 0 then out
    else FlipAll(section, base, FlipEntry(section, base, out, entries[0]), entries[1..])
  }

  /** The three section dictionaries being filled. */
  datatype Sections = Sections(leads: seq<(string, Json)>, conversions: seq<(string, Json)>, customFields: seq<(string, Json)>)

  function SectionOf(st: Sections, name: string): seq<(string, Json)>
    requires IsSection(name)
  {
    if name == "leads" then st.leads else if name == "conversions" then st.conversions else st.customFields
  }

  function WithSection(st: Sections, name: string, d: seq<(string, Json)>): (r: Sections)
    requires IsSection(name)
    ensures SectionOf(r, name) == d
    ensures forall other :: IsSection(other) && other != name ==> SectionOf(r, other) == SectionOf(st, other)
  {
    if name == "leads" then st.(leads := d)
    else if name == "conversions" then st.(conversions := d)
    else st.(customFields := d)
  }

  /** The outer forEach over the old mapping's keys; a null section throws. */
  function ProcessSections(st: Sections, base: string, props: seq<(string, Json)>): Result<Sections, string>
    decreases |props|
  {
    if |props| == 0 then Ok(st)
    else if !IsSection(props[0].0) then ProcessSections(st, base, props[1..])
    else match OwnEntries(props[0].1)
      case None => Err("TypeError: Cannot convert undefined or null to object")
      case Some(entries) =>
        var name := props[0].0;
        ProcessSections(WithSection(st, name, FlipAll(name, base, SectionOf(st, name), entries)), base, props[1..])
  }

  function Assemble(st: Sections, structure: Json): Json {
    JObj([("leads", JObj(st.leads)), ("conversions", JObj(st.conversions)),
          ("custom_fields", JObj(st.customFields)), ("_structure", structure)])
  }

  /** The whole migration of one webhook's mappings, as a function of the old value. */
  function TransformFieldMappingsSpec(oldMappings: Json): Result<Json, string> {
    match oldMappings
    case JObj(ms) =>
      var props := Spread(ms);
      (match ProcessSections(Sections([], [], []), BaseDataPath(props), props)
       case Ok(st) => Ok(Assemble(st, Structure(props)))
       case Err(e) => Err(e))
    case JArr(_) =>
      // An array has only index keys, none of which is a section name.
      Ok(Assemble(Sections([], [], []), Structure([])))
    case _ => Ok(oldMappings)
  }

  /** `transformFieldMappings`: fills the section dictionaries in place. */
  method TransformFieldMappings(oldMappings: Json) returns (r: Result<Json, string>)
    ensures r == TransformFieldMappingsSpec(oldMappings)
  {
    if !Truthy(oldMappings) || !(oldMappings.JObj? || oldMappings.JArr?) {
      return Ok(oldMappings);
    }
    if oldMappings.JArr? {
      return Ok(Assemble(Sections([], [], []), Structure([])));
    }
    var props := Spread(oldMappings.members);
    var base := BaseDataPath(props);
    var leads: seq<(string, Json)> := [];
    var conversions: seq<(string, Json)> := [];
    var customFields: seq<(string, Json)> := [];
    var i := 0;
    while i < |props|
      invariant 0 <= i <= |props|
      invariant ProcessSections(Sections(leads, conversions, customFields), base, props[i..])
             == ProcessSections(Sections([], [], []), base, props)
    {
      var section := props[i].0;
      if section == "_structure" || !IsSection(section) {
        i := i + 1;
        continue;
      }
      var entries := OwnEntries(props[i].1);
      if entries.None? {
        return Err("TypeError: Cannot convert undefined or null to object");
      }
      var es := entries.value;
      var st := Sections(leads, conversions, customFields);
      var out := SectionOf(st, section);
      ghost var out0 := out;
      var j := 0;
      while j < |es|
        invariant 0 <= j <= |es|
        invariant FlipAll(section, base, out, es[j..]) == FlipAll(section, base, out0, es)
      {
        var webhookField := es[j].0;
        var targetField := es[j].1;
        assert es[j..][0] == es[j] && es[j..][1..] == es[j + 1..];
        if !Skipped(section, webhookField) {
          var fullWebhookPath := BuildFullWebhookPath(webhookField, base);
          var normalizedTargetField := NormalizeFieldKey(ToJsString(targetField), section);
          out := Assign(out, normalizedTargetField, JStr(fullWebhookPath));
        }
        j := j + 1;
      }
      if section == "leads" {
        leads := out;
      } else if section == "conversions" {
        conversions := out;
      } else {
        customFields := out;
      }
      assert Sections(leads, conversions, customFields) == WithSection(st, section, out);
      assert props[i..][0] == props[i] && props[i..][1..] == props[i + 1..];
      i := i + 1;
    }
    assert ProcessSections(Sections(leads, conversions, customFields), base, props[i..])
        == Ok(Sections(leads, conversions, customFields));
    r := Ok(Assemble(Sections(leads, conversions, customFields), Structure(props)));
  }

  // ---------------------------------------------------------------------
  // Properties of the migration
  // ---------------------------------------------------------------------

  /** Null and non-object values are returned unchanged. */
  lemma NonObjectsUnchanged(v: Json)
    requires !(v.JObj? || v.JArr?)
    ensures TransformFieldMappingsSpec(v) == Ok(v)
  {
  }

  /**
   * A migrated mapping has exactly the three sections and `_structure`,
   * which is the old one when truthy and otherwise points at
   * "data.leads[0]"; any other old section is dropped.
   */
  lemma OutputShape(v: Json)
    requires v.JObj? || v.JArr?
    requires TransformFieldMappingsSpec(v).Ok?
    ensures var out := TransformFieldMappingsSpec(v).value;
      out.JObj? && Keys(out.members) == ["leads", "conversions", "custom_fields", "_structure"]
      && Lookup(out.members, "_structure") == Some(Structure(if v.JObj? then Spread(v.members) else []))
  {
    var out := TransformFieldMappingsSpec(v).value;
    assert Keys(out.members) == ["leads", "conversions", "custom_fields", "_structure"];
  }

  /**
   * The path written last under key `k` by a section's entries: the later
   * of two entries with the same normalised target wins, and skipped
   * metadata entries never write.
   */
  function LastWrite(section: string, base: string, entries: seq<(string, Json)>, k: string): Option<string>
    decreases |entries|
  {
    if |entries| == 0 then None
    else match LastWrite(section, base, entries[1..], k)
      case Some(p) => Some(p)
      case None =>
        if !Skipped(section, entries[0].0) && TargetKey(section, entries[0].1) == k
        then Some(BuildFullWebhookPath(entries[0].0, base))
        else None
  }

  /** Filling a section dictionary agrees with `LastWrite` on every key. */
  lemma {:induction false} FlipAllLookup(section: string, base: string, out: seq<(string, Json)>,
                                         entries: seq<(string, Json)>, k: string)
    requires UniqueKeys(out)
    ensures UniqueKeys(FlipAll(section, base, out, entries))
    ensures Lookup(FlipAll(section, base, out, entries), k) ==
      match LastWrite(section, base, entries, k)
      case Some(p) => Some(JStr(p))
      case None => Lookup(out, k)
    decreases |entries|
  {
    if |entries| > 0 {
      var e := entries[0];
      var out' := FlipEntry(section, base, out, e);
      if !Skipped(section, e.0) {
        AssignKeys(out, TargetKey(section, e.1), JStr(BuildFullWebhookPath(e.0, base)));
      }
      FlipAllLookup(section, base, out', entries[1..], k);
    }
  }

  /** After the outer loop each section holds the flips of its own old entries. */
  lemma {:induction false} ProcessSectionsResult(st0: Sections, base: string, props: seq<(string, Json)>, name: string)
    requires UniqueKeys(props) && IsSection(name)
    requires ProcessSections(st0, base, props).Ok?
    ensures HasKey(props, name) ==> OwnEntries(Lookup(props, name).value).Some?
    ensures SectionOf(ProcessSections(st0, base, props).value, name) ==
      if HasKey(props, name)
      then FlipAll(name, base, SectionOf(st0, name), OwnEntries(Lookup(props, name).value).value)
      else SectionOf(st0, name)
    decreases |props|
  {
    if |props| > 0 {
      var rest := props[1..];
      assert UniqueKeys(rest);
      HasKeyCons(props, name);
      forall i | 0 <= i < |rest| ensures rest[i].0 != props[0].0 {
        assert rest[i] == props[i + 1];
      }
      assert !HasKey(rest, props[0].0);
      if !IsSection(props[0].0) {
        ProcessSectionsResult(st0, base, rest, name);
      } else {
        var entries := OwnEntries(props[0].1).value;
        var st1 := WithSection(st0, props[0].0, FlipAll(props[0].0, base, SectionOf(st0, props[0].0), entries));
        ProcessSectionsResult(st1, base, rest, name);
        if props[0].0 == name {
          LookupMissing(rest, name);
        }
      }
    }
  }

  /** A null section makes the migration throw. */
  lemma {:induction false} NullSectionThrows(st0: Sections, base: string, props: seq<(string, Json)>, name: string)
    requires UniqueKeys(props) && IsSection(name) && Lookup(props, name) == Some(JNull)
    ensures ProcessSections(st0, base, props).Err?
  {
    if ProcessSections(st0, base, props).Ok? {
      ProcessSectionsResult(st0, base, props, name);
      assert false;
    }
  }

  /** The old entries of a section, or none when the section is absent. */
  function SectionEntries(props: seq<(string, Json)>, name: string): seq<(string, Json)> {
    match Lookup(props, name)
    case Some(v) => if OwnEntries(v).Some? then OwnEntries(v).value else []
    case None => []
  }

  /** The dictionary a migrated mapping holds under a section name. */
  function MigratedSection(v: Json, name: string): seq<(string, Json)> {
    if v.JObj? then
      match Lookup(v.members, name)
      case Some(d) => if d.JObj? then d.members else []
      case None => []
    else []
  }

  lemma AssembleLookup(st: Sections, structure: Json, name: string)
    requires IsSection(name)
    ensures MigratedSection(Assemble(st, structure), name) == SectionOf(st, name)
  {
    var ms := Assemble(st, structure).members;
    if name == "leads" {
      LookupAt(ms, 0);
    } else if name == "conversions" {
      LookupAt(ms, 1);
    } else {
      LookupAt(ms, 2);
    }
  }

  /**
   * Each pair `w -> t` of section `s` ends up as `out[s][normalize(t, s)] =
   * base + "." + w` ("" for an empty `w`), the later of two colliding pairs
   * winning; keys never written are absent.
   */
  lemma InvertedEntry(ms: seq<(string, Json)>, name: string, k: string)
    requires IsSection(name)
    requires TransformFieldMappingsSpec(JObj(ms)).Ok?
    ensures var section := MigratedSection(TransformFieldMappingsSpec(JObj(ms)).value, name);
      UniqueKeys(section) &&
      Lookup(section, k) ==
        match LastWrite(name, BaseDataPath(Spread(ms)), SectionEntries(Spread(ms), name), k)
        case Some(p) => Some(JStr(p))
        case None => None
  {
    var props := Spread(ms);
    var base := BaseDataPath(props);
    var st0 := Sections([], [], []);
    var entries := SectionEntries(props, name);
    var st := ProcessSections(st0, base, props).value;
    assert SectionOf(st, name) == FlipAll(name, base, [], entries) by {
      SpreadProps(ms);
      ProcessSectionsResult(st0, base, props, name);
    }
    assert MigratedSection(TransformFieldMappingsSpec(JObj(ms)).value, name) == SectionOf(st, name) by {
      AssembleLookup(st, Structure(props), name);
    }
    FlipAllLookup(name, base, [], entries, k);
  }

  /** `{leads: {cel: "mobile_phone"}}` becomes `{leads: {phone: "data.leads[0].cel"}, ...}`. */
  lemma LeadPhoneExample()
    ensures TransformFieldMappingsSpec(JObj([("leads", JObj([("cel", JStr("mobile_phone"))]))]))
      == Ok(JObj([("leads", JObj([("phone", JStr("data.leads[0].cel"))])), ("conversions", JObj([])),
                  ("custom_fields", JObj([])),
                  ("_structure", JObj([("dataPath", JStr("data.leads[0]")), ("structureInfo", JStr("Migrated from old format"))]))]))
  {
    var section := [("cel", JStr("mobile_phone"))];
    var props := [("leads", JObj(section))];
    SpreadUnique(props);
    SpreadUnique(section);
    assert Lookup(props, "_structure") == None;
    assert BaseDataPath(props) == "data.leads[0]";
    assert OwnEntries(JObj(section)) == Some(section);
    assert TargetKey("leads", JStr("mobile_phone")) == "phone";
    var flipped := [("phone", JStr("data.leads[0].cel"))];
    assert "data.leads[0]" + "." + "cel" == "data.leads[0].cel";
    assert BuildFullWebhookPath("cel", "data.leads[0]") == "data.leads[0].cel";
    assert FlipEntry("leads", "data.leads[0]", [], section[0]) == flipped;
    assert section[1..] == [];
    assert FlipAll("leads", "data.leads[0]", [], section) == flipped;
    var st := Sections(flipped, [], []);
    assert ProcessSections(Sections([], [], []), "data.leads[0]", props) == Ok(st);
  }
}
