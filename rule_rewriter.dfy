/**
 * The segment rule rewriter used while migrating segments: a walk over an
 * arbitrary JSON tree that renames the legacy field key stored under every
 * `field` property, leaving the rest of the tree as it was.
 */
module RuleRewriter {

  import opened Wrappers
  import opened Strings
  import opened JsonValues
  import opened FieldMappings

  /**
   * The new name for a truthy `field` value: the value is used as a property
   * key (so it is converted to a string), the conversion table is tried
   * first and the lead table second.
   */
  function FieldRename(v: Json): Option<string> {
    var key := ToJsString(v);
    match ConversionFieldMapping(key)
    case Some(m) => Some(m)
    case None => LeadFieldMapping(key)
  }

  /** The rewritten tree: arrays element by element, objects property by property. */
  function TransformFields(v: Json): Json
    decreases v, 1
  {
    match v
    case JArr(items) => JArr(seq(|items|, i requires 0 <= i < |items| => TransformFields(items[i])))
    case JObj(ms) =>
      JObj(Spread(seq(|ms|, i requires 0 <= i < |ms| => (ms[i].0, RewriteBinding(ms[i].0, ms[i].1)))))
    case _ => v
  }

  /**
   * The value a property `k: val` of an object is rewritten to: a truthy
   * `field` with a known legacy name gets the new name, and everything
   * else is walked recursively.
   */
  function RewriteBinding(k: string, val: Json): Json
    decreases val, 2
  {
    if k == "field" && Truthy(val) && FieldRename(val).Some?
    then JStr(FieldRename(val).value)
    else TransformFields(val)
  }

  /**
   * Migration of one stored rule: empty text and text that does not parse
   * both give `{}`; `parsed` is the outcome of `JSON.parse` on `text`.
   */
  function RewriteRuleJson(text: string, parsed: Option<Json>): (r: Json)
    ensures text == "" || parsed.None? ==> r == JObj([])
    ensures text != "" && parsed.Some? ==> r == TransformFields(parsed.value)
  {
    if text == "" then JObj([])
    else match parsed
      case None => JObj([])
      case Some(v) => TransformFields(v)
  }

  lemma TransformObject(ms: seq<(string, Json)>)
    ensures TransformFields(JObj(ms)) == JObj(Spread(MapValues(ms, RewriteBinding)))
  {
    var a := seq(|ms|, i requires 0 <= i < |ms| => (ms[i].0, RewriteBinding(ms[i].0, ms[i].1)));
    assert a == MapValues(ms, RewriteBinding);
  }

  /**
   * The tree with every `field` value blanked out and every object reduced
   * to its properties: what the rewriter must leave unchanged.
   */
  function Skeleton(v: Json): Json
    decreases v, 1
  {
    match v
    case JArr(items) => JArr(seq(|items|, i requires 0 <= i < |items| => Skeleton(items[i])))
    case JObj(ms) =>
      JObj(Spread(seq(|ms|, i requires 0 <= i < |ms| => (ms[i].0, SkeletonBinding(ms[i].0, ms[i].1)))))
    case _ => v
  }

  function SkeletonBinding(k: string, val: Json): Json
    decreases val, 2
  {
    if k == "field" then JNull else Skeleton(val)
  }

  lemma SkeletonObject(ms: seq<(string, Json)>)
    ensures Skeleton(JObj(ms)) == JObj(Spread(MapValues(ms, SkeletonBinding)))
  {
    var a := seq(|ms|, i requires 0 <= i < |ms| => (ms[i].0, SkeletonBinding(ms[i].0, ms[i].1)));
    assert a == MapValues(ms, SkeletonBinding);
  }

  /**
   * Only `field` values change: arrays keep their length and order, objects
   * keep their property sets, and every other value is the same.
   */
  lemma {:induction false} TransformKeepsSkeleton(v: Json)
    ensures Skeleton(TransformFields(v)) == Skeleton(v)
    decreases v
  {
    match v
    case JArr(items) =>
      var t := TransformFields(v).items;
      forall i | 0 <= i < |items| ensures Skeleton(t[i]) == Skeleton(items[i]) {
        TransformKeepsSkeleton(items[i]);
      }
    case JObj(ms) =>
      var rb := MapValues(ms, RewriteBinding);
      TransformObject(ms);
      var t := Spread(rb);
      SkeletonObject(t);
      SkeletonObject(ms);
      SpreadMapValues(rb, SkeletonBinding);
      SpreadIdempotent(MapValues(rb, SkeletonBinding));
      forall i | 0 <= i < |ms|
        ensures MapValues(rb, SkeletonBinding)[i] == MapValues(ms, SkeletonBinding)[i]
      {
        assert ms[i].1 < v;
        TransformKeepsSkeleton(ms[i].1);
      }
      assert MapValues(rb, SkeletonBinding) == MapValues(ms, SkeletonBinding);
    case _ =>
  }

  /** An object keeps exactly its property names; an array keeps its length. */
  lemma TransformKeepsKeys(v: Json)
    ensures v.JArr? ==> TransformFields(v).JArr? && |TransformFields(v).items| == |v.items|
    ensures v.JObj? ==> TransformFields(v).JObj? && UniqueKeys(TransformFields(v).members)
    ensures v.JObj? ==> forall k :: HasKey(TransformFields(v).members, k) <==> HasKey(v.members, k)
  {
    if v.JObj? {
      TransformObject(v.members);
      SpreadProps(MapValues(v.members, RewriteBinding));
      forall k ensures HasKey(TransformFields(v).members, k) <==> HasKey(v.members, k) {
        HasKeyMapValues(v.members, RewriteBinding, k);
      }
    }
  }

  /** The rewriter keeps a value's string form, and so its truthiness. */
  lemma {:induction false} TransformKeepsStringForm(v: Json)
    ensures ToJsString(TransformFields(v)) == ToJsString(v)
    ensures Truthy(TransformFields(v)) == Truthy(v)
    ensures TransformFields(v).JNull? <==> v.JNull?
    decreases v
  {
    match v
    case JArr(items) =>
      var t := TransformFields(v).items;
      forall i | 0 <= i < |items|
        ensures t[i].JNull? == items[i].JNull?
        ensures ToJsString(t[i]) == ToJsString(items[i])
      {
        TransformKeepsStringForm(items[i]);
      }
      assert seq(|t|, i requires 0 <= i < |t| => if t[i].JNull? then "" else ToJsString(t[i]))
        == seq(|items|, i requires 0 <= i < |items| => if items[i].JNull? then "" else ToJsString(items[i]));
    case _ =>
  }

  lemma MappedNamesNonEmpty(v: Json)
    requires FieldRename(v).Some?
    ensures FieldRename(v).value != ""
    ensures FieldRename(JStr(FieldRename(v).value)).None?
  {
    MappedNamesAreTargets(ToJsString(v));
    TargetsAreNotKeys(FieldRename(v).value);
  }

  /** Rewriting a rewritten tree changes nothing. */
  lemma {:induction false} TransformIdempotent(v: Json)
    ensures TransformFields(TransformFields(v)) == TransformFields(v)
    decreases v
  {
    match v
    case JArr(items) =>
      var t := TransformFields(v).items;
      forall i | 0 <= i < |items| ensures TransformFields(t[i]) == t[i] {
        TransformIdempotent(items[i]);
      }
    case JObj(ms) =>
      var rb := MapValues(ms, RewriteBinding);
      TransformObject(ms);
      var t := Spread(rb);
      TransformObject(t);
      SpreadMapValues(rb, RewriteBinding);
      SpreadIdempotent(MapValues(rb, RewriteBinding));
      forall i | 0 <= i < |ms|
        ensures MapValues(rb, RewriteBinding)[i] == rb[i]
      {
        var k := ms[i].0;
        var val := ms[i].1;
        assert val < v;
        if k == "field" && Truthy(val) && FieldRename(val).Some? {
          MappedNamesNonEmpty(val);
        } else {
          TransformKeepsStringForm(val);
          TransformIdempotent(val);
        }
      }
      assert MapValues(rb, RewriteBinding) == rb;
    case _ =>
  }

  /** Migrating an already migrated rule gives the same rule. */
  lemma RewriteRuleJsonIdempotent(text: string, parsed: Option<Json>, text2: string)
    requires text2 != ""
    ensures RewriteRuleJson(text2, Some(RewriteRuleJson(text, parsed))) == RewriteRuleJson(text, parsed)
  {
    if text != "" && parsed.Some? {
      TransformIdempotent(parsed.value);
    }
  }

  /**
   * A string `field` value becomes its conversion name when the conversion
   * table renames it, else its lead name (which may be itself).
   */
  lemma {:induction false} StringFieldRewritten(ms: seq<(string, Json)>, s: string)
    requires Lookup(ms, "field") == Some(JStr(s))
    ensures Lookup(TransformFields(JObj(ms)).members, "field") == Some(JStr(
      if NormalizeFieldKey(s, "conversions") != s then NormalizeFieldKey(s, "conversions")
      else NormalizeFieldKey(s, "leads")))
  {
    FieldBindingRewritten(ms, s);
    StringFieldRenamed(s);
  }

  /** The `field` property of a rewritten object is its rewritten binding. */
  lemma FieldBindingRewritten(ms: seq<(string, Json)>, s: string)
    requires Lookup(ms, "field") == Some(JStr(s))
    ensures Lookup(TransformFields(JObj(ms)).members, "field") == Some(RewriteBinding("field", JStr(s)))
  {
    var rb := MapValues(ms, RewriteBinding);
    TransformObject(ms);
    SpreadProps(rb);
    LookupMapValues(ms, RewriteBinding, "field");
  }

  /** A string `field` value is renamed by the conversion table first, then the lead table. */
  lemma StringFieldRenamed(s: string)
    ensures RewriteBinding("field", JStr(s)) == JStr(
      if NormalizeFieldKey(s, "conversions") != s then NormalizeFieldKey(s, "conversions")
      else NormalizeFieldKey(s, "leads"))
  {
    var conv := ConversionFieldMapping(s);
    var lead := LeadFieldMapping(s);
    assert ToJsString(JStr(s)) == s;
    MappingRenames(s);
    if conv.Some? {
      assert FieldRename(JStr(s)) == conv;
    } else if lead.Some? {
      assert FieldRename(JStr(s)) == lead;
    } else {
      assert FieldRename(JStr(s)).None?;
    }
  }

  /** A single rule on the legacy lead field `mobile_phone` is renamed to `phone`. */
  lemma SingleRuleRenamed()
    ensures TransformFields(JObj([("field", JStr("mobile_phone"))])) == JObj([("field", JStr("phone"))])
  {
    var inner := [("field", JStr("mobile_phone"))];
    var renamed := [("field", JStr("phone"))];
    assert ToJsString(JStr("mobile_phone")) == "mobile_phone";
    assert FieldRename(JStr("mobile_phone")) == Some("phone");
    assert RewriteBinding("field", JStr("mobile_phone")) == JStr("phone");
    TransformObject(inner);
    assert MapValues(inner, RewriteBinding) == renamed;
    SpreadUnique(renamed);
  }

  /** A rule nested in a group's `rules` array is renamed too. */
  lemma NestedRuleExample()
    ensures TransformFields(JObj([("combinator", JStr("and")),
                                  ("rules", JArr([JObj([("field", JStr("mobile_phone"))])]))]))
         == JObj([("combinator", JStr("and")),
                  ("rules", JArr([JObj([("field", JStr("phone"))])]))])
  {
    var rule := JObj([("field", JStr("mobile_phone"))]);
    var renamed := JObj([("field", JStr("phone"))]);
    SingleRuleRenamed();
    var rules := JArr([rule]);
    assert TransformFields(rules).items[0] == renamed;
    assert TransformFields(rules) == JArr([renamed]);
    assert RewriteBinding("rules", rules) == JArr([renamed]);
    assert RewriteBinding("combinator", JStr("and")) == JStr("and");
    var outer := [("combinator", JStr("and")), ("rules", rules)];
    var expected := [("combinator", JStr("and")), ("rules", JArr([renamed]))];
    TransformObject(outer);
    assert MapValues(outer, RewriteBinding) == expected;
    SpreadUnique(expected);
  }

  // ---------------------------------------------------------------------
  // The rewriter as written reads the mapping tables as plain objects, so
  // a `field` naming an Object.prototype member is replaced by that member:
  // a function (which JSON.stringify then drops) or Object.prototype (which
  // spreads to `{}`).
  // ---------------------------------------------------------------------

  /** A property after the rewrite: a JSON value, or a function that serialisation omits. */
  datatype Slot = Value(v: Json) | Omitted

  function RenameAsWritten(key: string, own: Option<string>): Option<Slot> {
    match PropertyRead(own, key)
    case Some(Text(m)) => Some(Value(JStr(m)))
    case Some(Method) => Some(Omitted)
    case Some(ObjectPrototype) => Some(Value(JObj([])))
    case None => None
  }

  function Present(ms: seq<(string, Slot)>): (r: seq<(string, Json)>)
    ensures |r| <= |ms|
  {
    if |ms| == 0 then []
    else match ms[0].1
      case Value(x) => [(ms[0].0, x)] + Present(ms[1..])
      case Omitted => Present(ms[1..])
  }

  /** `transformRuleJsonFields` followed by `JSON.stringify`/`JSON.parse`, as written. */
  function TransformFieldsAsWritten(v: Json): Json
    decreases v, 1
  {
    match v
    case JArr(items) => JArr(seq(|items|, i requires 0 <= i < |items| => TransformFieldsAsWritten(items[i])))
    case JObj(ms) =>
      JObj(Present(Spread(seq(|ms|, i requires 0 <= i < |ms| =>
        (ms[i].0, RewriteBindingAsWritten(ms[i].0, ms[i].1))))))
    case _ => v
  }

  function RewriteBindingAsWritten(k: string, val: Json): Slot
    decreases val, 2
  {
    if k == "field" && Truthy(val) then
      var key := ToJsString(val);
      match RenameAsWritten(key, ConversionFieldMapping(key))
      case Some(slot) => slot
      case None =>
        match RenameAsWritten(key, LeadFieldMapping(key))
        case Some(slot) => slot
        case None => Value(TransformFieldsAsWritten(val))
    else Value(TransformFieldsAsWritten(val))
  }

  lemma TransformAsWrittenObject(ms: seq<(string, Json)>)
    ensures TransformFieldsAsWritten(JObj(ms)) == JObj(Present(Spread(MapValues(ms, RewriteBindingAsWritten))))
  {
    var a := seq(|ms|, i requires 0 <= i < |ms| => (ms[i].0, RewriteBindingAsWritten(ms[i].0, ms[i].1)));
    assert a == MapValues(ms, RewriteBindingAsWritten);
  }

  /** A rule on the field "constructor" loses its `field` property as written. */
  lemma ConstructorFieldDropped()
    ensures TransformFieldsAsWritten(JObj([("field", JStr("constructor"))])) == JObj([])
  {
    var ms := [("field", JStr("constructor"))];
    assert ToJsString(JStr("constructor")) == "constructor";
    assert ConversionFieldMapping("constructor").None?;
    assert RewriteBindingAsWritten("field", JStr("constructor")) == Omitted;
    TransformAsWrittenObject(ms);
    var slots := [("field", Omitted)];
    assert MapValues(ms, RewriteBindingAsWritten) == slots;
    SpreadUnique(slots);
  }

  /** The corrected rewriter keeps a rule on the field "constructor" as it is. */
  lemma ConstructorFieldKept()
    ensures TransformFields(JObj([("field", JStr("constructor"))])) == JObj([("field", JStr("constructor"))])
  {
    var ms := [("field", JStr("constructor"))];
    assert ToJsString(JStr("constructor")) == "constructor";
    assert ConversionFieldMapping("constructor").None?;
    assert LeadFieldMapping("constructor").None?;
    assert RewriteBinding("field", JStr("constructor")) == JStr("constructor");
    TransformObject(ms);
    assert MapValues(ms, RewriteBinding) == ms;
    SpreadUnique(ms);
  }
}
