/**
 * The segment rule model: a segment's `rule_json` is a group of rules and
 * nested groups combined with "and" or "or", optionally negated and
 * optionally carrying a period filter.  The type guards look at parsed
 * JSON objects; the typed tree and its encoding say what the guards see
 * when they meet a well-formed rule or group.
 */
module SegmentTypes {

  import opened Wrappers
  import opened JsonValues

  const FieldTypes: seq<string> := ["lead", "conversion", "custom_field"]

  const TimeFilterTypes: seq<string> := [
    "lead.createdAt", "conversion.first", "conversion.last",
    "conversion.any", "conversion.first_strict", "conversion.last_strict"
  ]

  const RelativePeriodValues: seq<string> := [
    "automatic", "today", "yesterday", "thisWeek", "lastWeek", "thisMonth",
    "lastMonth", "thisQuarter", "lastQuarter", "none", "absolute"
  ]

  // ---------------------------------------------------------------------
  // Property access on parsed JSON
  // ---------------------------------------------------------------------

  /** `k in v` for a parsed object `v`. */
  predicate HasProp(v: Json, k: string) {
    v.JObj? && HasKey(v.members, k)
  }

  /** `v[k]` for a parsed object, `None` standing for `undefined`. */
  function Prop(v: Json, k: string): Option<Json> {
    if v.JObj? then Lookup(v.members, k) else None
  }

  /** `!!v[k]`. */
  predicate PropTruthy(v: Json, k: string) {
    Prop(v, k).Some? && Truthy(Prop(v, k).value)
  }

  // ---------------------------------------------------------------------
  // Type guards
  // ---------------------------------------------------------------------

  /**
   * `isRule`: `field` is present and a string.  The declared parameter
   * type `RuleOrGroup` admits only objects; on a primitive the source's
   * `'field' in item` would throw, and the guard here answers false.
   */
  predicate IsRule(item: Json) {
    HasProp(item, "field") && Prop(item, "field").value.JStr?
  }

  /** `isRuleGroup`: `combinator` is present and `field` is not (false on primitives, as for `isRule`). */
  predicate IsRuleGroup(item: Json) {
    HasProp(item, "combinator") && !HasProp(item, "field")
  }

  /** `isRelativePeriod`: type "relative" with a truthy `relativeValue`. */
  predicate IsRelativePeriod(periodValue: Json) {
    Prop(periodValue, "type") == Some(JStr("relative")) && PropTruthy(periodValue, "relativeValue")
  }

  /** `isAbsolutePeriod`: type "absolute" with a truthy `dateRange`. */
  predicate IsAbsolutePeriod(periodValue: Json) {
    Prop(periodValue, "type") == Some(JStr("absolute")) && PropTruthy(periodValue, "dateRange")
  }

  /** `hasTemporalFilter`: a truthy `periodFilter`. */
  predicate HasTemporalFilter(ruleGroup: Json) {
    PropTruthy(ruleGroup, "periodFilter")
  }

  /** No item passes both `isRule` and `isRuleGroup`. */
  lemma GuardsExclusive(item: Json)
    ensures !(IsRule(item) && IsRuleGroup(item))
  {
  }

  /** No period value is both relative and absolute. */
  lemma PeriodGuardsExclusive(periodValue: Json)
    ensures !(IsRelativePeriod(periodValue) && IsAbsolutePeriod(periodValue))
  {
  }

  // ---------------------------------------------------------------------
  // The typed rule tree
  // ---------------------------------------------------------------------

  datatype Combinator = And | Or

  function CombinatorName(c: Combinator): string {
    match c
    case And => "and"
    case Or => "or"
  }

  datatype SegmentRule = SegmentRule(id: Option<string>, field: string, fieldGroup: Option<string>, operator: string, value: Json)

  datatype DateRange = DateRange(from: string, to: Option<string>)

  datatype PeriodValue = PeriodValue(kind: string, relativeValue: Option<string>, dateRange: Option<DateRange>)

  datatype PeriodFilter = PeriodFilter(timeFilterType: string, periodValue: PeriodValue)

  /** `RuleOrGroup`: a rule or a nested group, to any depth. */
  datatype RuleOrGroup =
    | Rule(rule: SegmentRule)
    | Group(id: Option<string>, combinator: Combinator, rules: seq<RuleOrGroup>, not: Option<bool>, periodFilter: Option<PeriodFilter>)

  /** A binding present only when the optional value is. */
  function OptionalProp(k: string, v: Option<Json>): seq<(string, Json)> {
    if v.Some? then [(k, v.value)] else []
  }

  lemma OptionalPropLookup(k: string, v: Option<Json>, j: string)
    ensures HasKey(OptionalProp(k, v), j) <==> j == k && v.Some?
    ensures Lookup(OptionalProp(k, v), j) == if j == k then v else None
  {
    if v.Some? {
      assert OptionalProp(k, v)[0].0 == k;
    }
  }

  function OptionalText(v: Option<string>): Option<Json> {
    if v.Some? then Some(JStr(v.value)) else None
  }

  function EncodeDateRange(d: DateRange): Json {
    JObj([("from", JStr(d.from))] + OptionalProp("to", OptionalText(d.to)))
  }

  function EncodePeriodValue(p: PeriodValue): Json {
    JObj([("type", JStr(p.kind))]
      + OptionalProp("relativeValue", OptionalText(p.relativeValue))
      + OptionalProp("dateRange", if p.dateRange.Some? then Some(EncodeDateRange(p.dateRange.value)) else None))
  }

  function EncodePeriodFilter(f: PeriodFilter): Json {
    JObj([("timeFilterType", JStr(f.timeFilterType)), ("periodValue", EncodePeriodValue(f.periodValue))])
  }

  function RuleMembers(r: SegmentRule): seq<(string, Json)> {
    OptionalProp("id", OptionalText(r.id))
      + [("field", JStr(r.field))]
      + (OptionalProp("fieldGroup", OptionalText(r.fieldGroup)) + [("operator", JStr(r.operator)), ("value", r.value)])
  }

  function GroupHead(id: Option<string>, c: Combinator, rules: seq<Json>): seq<(string, Json)> {
    OptionalProp("id", OptionalText(id)) + [("combinator", JStr(CombinatorName(c))), ("rules", JArr(rules))]
  }

  function GroupTail(not: Option<bool>, f: Option<PeriodFilter>): seq<(string, Json)> {
    OptionalProp("not", if not.Some? then Some(JBool(not.value)) else None)
      + OptionalProp("periodFilter", if f.Some? then Some(EncodePeriodFilter(f.value)) else None)
  }

  /** The JSON a rule tree is stored as in `rule_json`. */
  function Encode(item: RuleOrGroup): Json
    decreases item
  {
    match item
    case Rule(r) => JObj(RuleMembers(r))
    case Group(id, c, rules, not, f) =>
      JObj(GroupHead(id, c, EncodeAll(rules)) + GroupTail(not, f))
  }

  function EncodeAll(items: seq<RuleOrGroup>): (r: seq<Json>)
    ensures |r| == |items|
    decreases items
  {
    if |items| == 0 then [] else [Encode(items[0])] + EncodeAll(items[1..])
  }

  /** The guards tell an encoded rule from an encoded group. */
  lemma GuardsClassify(item: RuleOrGroup)
    ensures IsRule(Encode(item)) <==> item.Rule?
    ensures IsRuleGroup(Encode(item)) <==> item.Group?
  {
    match item
    case Rule(r) =>
      var a := OptionalProp("id", OptionalText(r.id)) + [("field", JStr(r.field))];
      var b := OptionalProp("fieldGroup", OptionalText(r.fieldGroup)) + [("operator", JStr(r.operator)), ("value", r.value)];
      HasKeyAppend(OptionalProp("fieldGroup", OptionalText(r.fieldGroup)), [("operator", JStr(r.operator)), ("value", r.value)], "field");
      HasKeyAppend(a, b, "field");
      HasKeyAppend(OptionalProp("id", OptionalText(r.id)), [("field", JStr(r.field))], "field");
      LookupAppend(a, b, "field");
      LookupAppend(OptionalProp("id", OptionalText(r.id)), [("field", JStr(r.field))], "field");
      HasKeyAppend(OptionalProp("fieldGroup", OptionalText(r.fieldGroup)), [("operator", JStr(r.operator)), ("value", r.value)], "combinator");
      HasKeyAppend(a, b, "combinator");
      HasKeyAppend(OptionalProp("id", OptionalText(r.id)), [("field", JStr(r.field))], "combinator");
    case Group(id, c, rules, not, f) =>
      var head := GroupHead(id, c, EncodeAll(rules));
      var tail := GroupTail(not, f);
      var notProp := OptionalProp("not", if not.Some? then Some(JBool(not.value)) else None);
      var filterProp := OptionalProp("periodFilter", if f.Some? then Some(EncodePeriodFilter(f.value)) else None);
      var idProp := OptionalProp("id", OptionalText(id));
      var pair := [("combinator", JStr(CombinatorName(c))), ("rules", JArr(EncodeAll(rules)))];
      HasKeyAppend(head, tail, "field");
      HasKeyAppend(head, tail, "combinator");
      HasKeyAppend(notProp, filterProp, "field");
      HasKeyAppend(idProp, pair, "field");
      HasKeyAppend(idProp, pair, "combinator");
      assert pair[0].0 == "combinator";
  }

  /** A read of `combinator` or `rules` on an encoded group finds the pair written for it. */
  lemma GroupPairKey(id: Option<string>, c: Combinator, items: seq<Json>, not: Option<bool>, f: Option<PeriodFilter>, k: string)
    requires k == "combinator" || k == "rules"
    ensures Lookup(GroupHead(id, c, items) + GroupTail(not, f), k)
      == Lookup([("combinator", JStr(CombinatorName(c))), ("rules", JArr(items))], k)
  {
    var idProp := OptionalProp("id", OptionalText(id));
    var pair := [("combinator", JStr(CombinatorName(c))), ("rules", JArr(items))];
    var notProp := OptionalProp("not", if not.Some? then Some(JBool(not.value)) else None);
    var filterProp := OptionalProp("periodFilter", if f.Some? then Some(EncodePeriodFilter(f.value)) else None);
    OptionalPropLookup("not", if not.Some? then Some(JBool(not.value)) else None, k);
    OptionalPropLookup("periodFilter", if f.Some? then Some(EncodePeriodFilter(f.value)) else None, k);
    HasKeyAppend(notProp, filterProp, k);
    LookupAppend(GroupHead(id, c, items), GroupTail(not, f), k);
    assert HasKey(pair, k) by {
      assert pair[if k == "combinator" then 0 else 1].0 == k;
    }
    HasKeyAppend(idProp, pair, k);
    LookupAppend(idProp, pair, k);
  }

  /** An encoded group's `combinator` and `rules` read back as written. */
  lemma GroupMembers(id: Option<string>, c: Combinator, rules: seq<RuleOrGroup>, not: Option<bool>, f: Option<PeriodFilter>)
    ensures Encode(Group(id, c, rules, not, f)).JObj?
    ensures Lookup(Encode(Group(id, c, rules, not, f)).members, "combinator") == Some(JStr(CombinatorName(c)))
    ensures Lookup(Encode(Group(id, c, rules, not, f)).members, "rules") == Some(JArr(EncodeAll(rules)))
  {
    var items := EncodeAll(rules);
    var pair := [("combinator", JStr(CombinatorName(c))), ("rules", JArr(items))];
    assert Encode(Group(id, c, rules, not, f)) == JObj(GroupHead(id, c, items) + GroupTail(not, f));
    GroupPairKey(id, c, items, not, f, "combinator");
    GroupPairKey(id, c, items, not, f, "rules");
    assert Lookup(pair, "combinator") == Some(JStr(CombinatorName(c)));
    assert Lookup(pair, "rules") == Some(JArr(items));
  }

  /** `hasTemporalFilter` holds of an encoded group exactly when it carries a period filter. */
  lemma TemporalFilterClassify(id: Option<string>, c: Combinator, rules: seq<RuleOrGroup>, not: Option<bool>, f: Option<PeriodFilter>)
    ensures HasTemporalFilter(Encode(Group(id, c, rules, not, f))) <==> f.Some?
  {
    var head := GroupHead(id, c, EncodeAll(rules));
    var notProp := OptionalProp("not", if not.Some? then Some(JBool(not.value)) else None);
    var filter := if f.Some? then Some(EncodePeriodFilter(f.value)) else None;
    var filterProp := OptionalProp("periodFilter", filter);
    var idProp := OptionalProp("id", OptionalText(id));
    var pair := [("combinator", JStr(CombinatorName(c))), ("rules", JArr(EncodeAll(rules)))];
    assert Encode(Group(id, c, rules, not, f)) == JObj(head + (notProp + filterProp));
    HasKeyAppend(idProp, pair, "periodFilter");
    assert !HasKey(head, "periodFilter");
    LookupMissing(head, "periodFilter");
    LookupAppend(head, notProp + filterProp, "periodFilter");
    LookupAppend(notProp, filterProp, "periodFilter");
    HasKeyAppend(notProp, filterProp, "periodFilter");
    assert Lookup(notProp + filterProp, "periodFilter") == filter;
  }

  /** `isRelativePeriod` of an encoded period value. */
  lemma RelativePeriodClassify(p: PeriodValue)
    ensures IsRelativePeriod(EncodePeriodValue(p)) <==>
      p.kind == "relative" && p.relativeValue.Some? && p.relativeValue.value != ""
    ensures IsAbsolutePeriod(EncodePeriodValue(p)) <==> p.kind == "absolute" && p.dateRange.Some?
  {
    var t := [("type", JStr(p.kind))];
    var rv := OptionalProp("relativeValue", OptionalText(p.relativeValue));
    var dr := OptionalProp("dateRange", if p.dateRange.Some? then Some(EncodeDateRange(p.dateRange.value)) else None);
    LookupAppend(t + rv, dr, "type");
    LookupAppend(t, rv, "type");
    HasKeyAppend(t, rv, "type");
    LookupAppend(t + rv, dr, "relativeValue");
    LookupAppend(t, rv, "relativeValue");
    HasKeyAppend(t, rv, "relativeValue");
    LookupAppend(t + rv, dr, "dateRange");
    HasKeyAppend(t, rv, "dateRange");
    LookupAppend(t, rv, "dateRange");
    OptionalPropLookup("relativeValue", OptionalText(p.relativeValue), "type");
    OptionalPropLookup("relativeValue", OptionalText(p.relativeValue), "relativeValue");
    OptionalPropLookup("relativeValue", OptionalText(p.relativeValue), "dateRange");
    var d := if p.dateRange.Some? then Some(EncodeDateRange(p.dateRange.value)) else None;
    OptionalPropLookup("dateRange", d, "type");
    OptionalPropLookup("dateRange", d, "relativeValue");
    OptionalPropLookup("dateRange", d, "dateRange");
    assert !HasKey(t, "relativeValue") && !HasKey(t, "dateRange");
    LookupMissing(t, "relativeValue");
    LookupMissing(t, "dateRange");
  }
}
