/**
 * What the valibot `object` schemas of the application read from their
 * input: each entry of a schema reads one property of the input object,
 * checks its type, then runs the entry's checks.  As valibot 1.x's
 * `object` does, an absent property is accepted only by `optional`; for
 * any other entry, `unknown()` included, the missing key is reported
 * with the object's default message and the entry's own schema (with
 * its own type message) does not run.  A schema reports every problem it finds,
 * entry by entry in schema order, and accepts exactly when there is none.
 */
module SchemaFields {

  import opened Wrappers
  import opened JsonValues

  /**
   * One problem found by a schema: the input property it concerns and
   * the schema's own message, `None` where valibot's default message
   * applies.
   */
  datatype Issue = Issue(field: string, message: Option<string>)

  /** The properties of the input object, in order. */
  type Props = seq<(string, Json)>

  /** `string()`: the property when it is a string. */
  function StrAt(o: Props, k: string): Option<string> {
    match Lookup<Json>(o, k)
    case Some(JStr(s)) => Some(s)
    case _ => None
  }

  /** `boolean()`: the property when it is a boolean. */
  function BoolAt(o: Props, k: string): Option<bool> {
    match Lookup<Json>(o, k)
    case Some(JBool(b)) => Some(b)
    case _ => None
  }

  /** `number()`: the property when it is a number. */
  function NumAt(o: Props, k: string): Option<int> {
    match Lookup<Json>(o, k)
    case Some(JNum(n)) => Some(n)
    case _ => None
  }

  predicate AllStrings(items: seq<Json>) {
    forall i :: 0 <= i < |items| ==> items[i].JStr?
  }

  function StringsOf(items: seq<Json>): (r: seq<string>)
    requires AllStrings(items)
    ensures |r| == |items| && forall i :: 0 <= i < |items| ==> items[i] == JStr(r[i])
  {
    seq(|items|, i requires 0 <= i < |items| => items[i].s)
  }

  /** `array(string())`: the property when it is an array of strings. */
  function StrArrayAt(o: Props, k: string): Option<seq<string>> {
    match Lookup<Json>(o, k)
    case Some(JArr(items)) => if AllStrings(items) then Some(StringsOf(items)) else None
    case _ => None
  }

  predicate Absent(o: Props, k: string) {
    Lookup(o, k).None?
  }

  /** `optional(string())` accepts an absent property or a string. */
  predicate OptStrOk(o: Props, k: string) {
    Absent(o, k) || StrAt(o, k).Some?
  }

  predicate OptBoolOk(o: Props, k: string) {
    Absent(o, k) || BoolAt(o, k).Some?
  }

  predicate OptNumOk(o: Props, k: string) {
    Absent(o, k) || NumAt(o, k).Some?
  }

  predicate OptStrArrayOk(o: Props, k: string) {
    Absent(o, k) || StrArrayAt(o, k).Some?
  }

  /** The issue of a check on property `k`: none when the check holds. */
  function Expect(ok: bool, k: string, message: Option<string>): seq<Issue> {
    if ok then [] else [Issue(k, message)]
  }

  /** `unknown()` in an `object`: any value, but the key must be present. */
  function KeyIssues(o: Props, k: string): seq<Issue> {
    Expect(!Absent(o, k), k, None)
  }

  /** The value of an `unknown()` entry (`null` stands in for an absent one, which is refused). */
  function ValueAt(o: Props, k: string): Json {
    match Lookup<Json>(o, k)
    case Some(v) => v
    case None => JNull
  }

  /**
   * The issue of a `string(typeMessage)` entry whose value is not a
   * string: the object's missing-key issue when it is absent, the type
   * message when it is present.
   */
  function NotTextIssue(o: Props, k: string, typeMessage: Option<string>): Issue {
    if Absent(o, k) then Issue(k, None) else Issue(k, typeMessage)
  }

  /** `pipe(string(typeMessage), minLength(min, tooShort))`. */
  function MinLengthIssues(o: Props, k: string, typeMessage: Option<string>, min: nat, tooShort: string): seq<Issue> {
    match StrAt(o, k)
    case None => [NotTextIssue(o, k, typeMessage)]
    case Some(s) => Expect(|s| >= min, k, Some(tooShort))
  }

  /**
   * `pipe(string(typeMessage), minLength(1, required), maxLength(max, tooLong))`:
   * both length checks run on a string.
   */
  function BoundedIssues(o: Props, k: string, typeMessage: Option<string>, max: nat, required: string, tooLong: string): seq<Issue> {
    match StrAt(o, k)
    case None => [NotTextIssue(o, k, typeMessage)]
    case Some(s) => Expect(|s| >= 1, k, Some(required)) + Expect(|s| <= max, k, Some(tooLong))
  }

  /** `pipe(array(string()), minLength(1, required))`: the length is checked only on an array of strings. */
  function NonEmptyListIssues(o: Props, k: string, required: string): seq<Issue> {
    match StrArrayAt(o, k)
    case None => [Issue(k, None)]
    case Some(xs) => Expect(|xs| >= 1, k, Some(required))
  }

  /** The string of a property whose type check passed (the empty string otherwise). */
  function Text(o: Props, k: string): string {
    match StrAt(o, k)
    case Some(s) => s
    case None => ""
  }

  /** `optional(schema, default)`: the default stands in for an absent property. */
  function OrElse<T>(x: Option<T>, default: T): T {
    match x
    case Some(v) => v
    case None => default
  }

  /** The schema's result: the parsed value when there is no issue, else every issue. */
  function Validated<T>(issues: seq<Issue>, value: T): Result<T, seq<Issue>> {
    if issues == [] then Ok(value) else Err(issues)
  }

  /** Properties appended after the ones a schema reads leave what it reads unchanged. */
  lemma ExtraPropsUnread(o: Props, extra: Props, k: string)
    requires !HasKey(extra, k)
    ensures Lookup(o + extra, k) == Lookup(o, k)
    ensures StrAt(o + extra, k) == StrAt(o, k) && BoolAt(o + extra, k) == BoolAt(o, k)
    ensures NumAt(o + extra, k) == NumAt(o, k) && StrArrayAt(o + extra, k) == StrArrayAt(o, k)
  {
    LookupAppend(o, extra, k);
  }
}
