/**
 * The SQL text the migration runner builds by hand: quoted string
 * literals with doubled quotes, NULL for falsy text, PostgreSQL text-array
 * literals for tags, and `$placeholder` substitution in the view scripts.
 */
module SqlLiterals {

  import opened Wrappers
  import opened Strings

  /** `s.replace(/'/g, "''")`: every single quote is doubled. */
  function EscapeQuotes(s: string): (r: string)
    ensures |r| >= |s|
  {
    if |s| == 0 then ""
    else if s[0] == '\'' then "''" + EscapeQuotes(s[1..])
    else [s[0]] + EscapeQuotes(s[1..])
  }

  /** `'…'` around the escaped text. */
  function Quote(s: string): string {
    "'" + EscapeQuotes(s) + "'"
  }

  /**
   * How PostgreSQL reads the body of a string literal: `''` stands for one
   * quote and a lone quote ends the literal.  Returns the value and the
   * text after the closing quote.
   */
  function ReadQuotedBody(s: string): Option<(string, string)>
    decreases |s|
  {
    if |s| == 0 then None
    else if s[0] != '\'' then
      match ReadQuotedBody(s[1..])
      case Some((v, rest)) => Some(([s[0]] + v, rest))
      case None => None
    else if |s| >= 2 && s[1] == '\'' then
      match ReadQuotedBody(s[2..])
      case Some((v, rest)) => Some(("'" + v, rest))
      case None => None
    else Some(("", s[1..]))
  }

  /** A string literal starting at the beginning of `s`. */
  function ReadLiteral(s: string): Option<(string, string)> {
    if |s| > 0 && s[0] == '\'' then ReadQuotedBody(s[1..]) else None
  }

  /**
   * The escaped text reads back as exactly the original value, and the
   * literal ends exactly at its closing quote when a non-quote follows.
   */
  lemma {:induction false} EscapeReadsBack(s: string, rest: string)
    requires |rest| == 0 || rest[0] != '\''
    ensures ReadQuotedBody(EscapeQuotes(s) + "'" + rest) == Some((s, rest))
    decreases |s|
  {
    var t := EscapeQuotes(s) + "'" + rest;
    if |s| == 0 {
      assert t == "'" + rest;
      assert t[1..] == rest;
      ReadClosingQuote(rest);
    } else {
      EscapeReadsBack(s[1..], rest);
      var tail := EscapeQuotes(s[1..]) + "'" + rest;
      if s[0] == '\'' {
        assert t == "''" + tail;
        ReadDoubledQuote(tail);
        assert "'" + s[1..] == s;
      } else {
        assert t == [s[0]] + tail;
        ReadPlainChar(s[0], tail);
        assert [s[0]] + s[1..] == s;
      }
    }
  }

  lemma ReadClosingQuote(rest: string)
    requires |rest| == 0 || rest[0] != '\''
    ensures ReadQuotedBody("'" + rest) == Some(("", rest))
  {
    assert ("'" + rest)[1..] == rest;
  }

  lemma ReadDoubledQuote(tail: string)
    ensures ReadQuotedBody("''" + tail) ==
      match ReadQuotedBody(tail)
      case Some((v, r)) => Some(("'" + v, r))
      case None => None
  {
    assert ("''" + tail)[2..] == tail;
  }

  lemma ReadPlainChar(c: char, tail: string)
    requires c != '\''
    ensures ReadQuotedBody([c] + tail) ==
      match ReadQuotedBody(tail)
      case Some((v, r)) => Some(([c] + v, r))
      case None => None
  {
    assert ([c] + tail)[1..] == tail;
  }

  lemma QuoteReadsBack(s: string, rest: string)
    requires |rest| == 0 || rest[0] != '\''
    ensures ReadLiteral(Quote(s) + rest) == Some((s, rest))
  {
    EscapeReadsBack(s, rest);
    assert (Quote(s) + rest)[1..] == EscapeQuotes(s) + "'" + rest;
  }

  /** `value ? '…' : NULL` for a nullable text column (null and "" are falsy). */
  function TextOrNull(value: Option<string>): (r: string)
    ensures value.None? || value == Some("") ==> r == "NULL"
    ensures value.Some? && value.value != "" ==> ReadLiteral(r) == Some((value.value, ""))
  {
    match value
    case Some(s) =>
      if s != "" then
        assert Quote(s) + "" == Quote(s);
        QuoteReadsBack(s, "");
        Quote(s)
      else "NULL"
    case None => "NULL"
  }

  /** A PostgreSQL text-array literal holding the tags, in order. */
  function TagsArrayLiteral(tags: seq<string>): string {
    if |tags| == 0 then "ARRAY[]::text[]"
    else "ARRAY[" + Join(seq(|tags|, i requires 0 <= i < |tags| => Quote(tags[i])), ",") + "]::text[]"
  }

  /** Reads `'a','b',…` up to the closing bracket of an array literal. */
  function ReadLiteralList(s: string): Option<(seq<string>, string)>
    decreases |s|
  {
    match ReadLiteral(s)
    case None => None
    case Some((v, rest)) =>
      if |rest| < |s| && |rest| > 0 && rest[0] == ',' then
        match ReadLiteralList(rest[1..])
        case Some((vs, after)) => Some(([v] + vs, after))
        case None => None
      else Some(([v], rest))
  }

  /** How PostgreSQL reads the array literals the runner builds. */
  function ReadTagsArray(s: string): Option<seq<string>> {
    if s == "ARRAY[]::text[]" then Some([])
    else if StartsWith(s, "ARRAY[") then
      match ReadLiteralList(s[6..])
      case Some((vs, "]::text[]")) => Some(vs)
      case _ => None
    else None
  }

  lemma ReadLiteralShrinks(s: string)
    requires ReadLiteral(s).Some?
    ensures |ReadLiteral(s).value.1| < |s|
  {
    ReadBodyShrinks(s[1..]);
  }

  lemma {:induction false} ReadBodyShrinks(s: string)
    requires ReadQuotedBody(s).Some?
    ensures |ReadQuotedBody(s).value.1| < |s|
    decreases |s|
  {
    if s[0] != '\'' {
      ReadBodyShrinks(s[1..]);
    } else if |s| >= 2 && s[1] == '\'' {
      ReadBodyShrinks(s[2..]);
    }
  }

  lemma {:induction false} QuotedListReadsBack(tags: seq<string>, rest: string)
    requires |tags| > 0
    requires |rest| == 0 || (rest[0] != ',' && rest[0] != '\'')
    ensures ReadLiteralList(Join(seq(|tags|, i requires 0 <= i < |tags| => Quote(tags[i])), ",") + rest)
      == Some((tags, rest))
  {
    var qs := seq(|tags|, i requires 0 <= i < |tags| => Quote(tags[i]));
    var s := Join(qs, ",") + rest;
    if |tags| == 1 {
      assert Join(qs, ",") == Quote(tags[0]);
      ReadListLast(tags[0], rest);
      assert [tags[0]] == tags;
    } else {
      var qs' := seq(|tags| - 1, i requires 0 <= i < |tags| - 1 => Quote(tags[1..][i]));
      assert qs[1..] == qs';
      var tail := Join(qs', ",") + rest;
      assert s == Quote(tags[0]) + ("," + tail);
      ReadListCons(tags[0], tail);
      QuotedListReadsBack(tags[1..], rest);
      assert [tags[0]] + tags[1..] == tags;
    }
  }

  /** A last literal, followed by neither a comma nor a quote, ends the list. */
  lemma ReadListLast(t: string, rest: string)
    requires |rest| == 0 || (rest[0] != ',' && rest[0] != '\'')
    ensures ReadLiteralList(Quote(t) + rest) == Some(([t], rest))
  {
    QuoteReadsBack(t, rest);
    ReadLiteralShrinks(Quote(t) + rest);
  }

  /** A literal followed by a comma is read, then the rest of the list. */
  lemma ReadListCons(t: string, tail: string)
    ensures ReadLiteralList(Quote(t) + ("," + tail)) ==
      match ReadLiteralList(tail)
      case Some((vs, after)) => Some(([t] + vs, after))
      case None => None
  {
    QuoteReadsBack(t, "," + tail);
    ReadLiteralShrinks(Quote(t) + ("," + tail));
    assert ("," + tail)[1..] == tail;
  }

  /** PostgreSQL reads the tags literal back as exactly the tag list. */
  lemma TagsArrayReadsBack(tags: seq<string>)
    ensures ReadTagsArray(TagsArrayLiteral(tags)) == Some(tags)
  {
    if |tags| > 0 {
      var qs := seq(|tags|, i requires 0 <= i < |tags| => Quote(tags[i]));
      var lit := TagsArrayLiteral(tags);
      assert lit == "ARRAY[" + (Join(qs, ",") + "]::text[]");
      assert lit != "ARRAY[]::text[]" by {
        JoinStartsWith(qs, ",");
        assert lit[6] == '\'';
      }
      assert lit[6..] == Join(qs, ",") + "]::text[]";
      QuotedListReadsBack(tags, "]::text[]");
    }
  }

  // ---------------------------------------------------------------------
  // Placeholder substitution in the transformation scripts
  // ---------------------------------------------------------------------

  /** `s.replace(/pattern/g, replacement)` for a literal pattern: leftmost, non-overlapping. */
  function ReplaceAll(s: string, pattern: string, replacement: string): string
    requires |pattern| > 0
    decreases |s|
  {
    if StartsWith(s, pattern) then replacement + ReplaceAll(s[|pattern|..], pattern, replacement)
    else if |s| == 0 then ""
    else [s[0]] + ReplaceAll(s[1..], pattern, replacement)
  }

  const SourcePlaceholder: string := "$source_company_id"
  const TargetPlaceholder: string := "$target_org_id"

  /** The two `.replace` calls applied to a script read from disk. */
  function Parameterize(sql: string, sourceCompanyId: string, targetOrgId: string): string {
    ReplaceAll(ReplaceAll(sql, SourcePlaceholder, "'" + sourceCompanyId + "'"), TargetPlaceholder, "'" + targetOrgId + "'")
  }

  /** A script as a sequence of plain text and placeholders. */
  datatype Chunk = Text(text: string) | SourceCompanyId | TargetOrgId

  function RenderChunk(c: Chunk, source: string, target: string): string {
    match c
    case Text(t) => t
    case SourceCompanyId => source
    case TargetOrgId => target
  }

  /** The script text with each placeholder written as `source`/`target`. */
  function Render(cs: seq<Chunk>, source: string, target: string): string
    decreases |cs|
  {
    if |cs| == 0 then "" else RenderChunk(cs[0], source, target) + Render(cs[1..], source, target)
  }

  predicate DollarFree(s: string) {
    forall i :: 0 <= i < |s| ==> s[i] != '$'
  }

  predicate PlainText(cs: seq<Chunk>) {
    forall i :: 0 <= i < |cs| ==> cs[i].Text? ==> DollarFree(cs[i].text)
  }

  /** A first character other than the pattern's is copied as it is. */
  lemma ReplaceStep(s: string, pattern: string, replacement: string)
    requires |pattern| > 0 && |s| > 0 && s[0] != pattern[0]
    ensures ReplaceAll(s, pattern, replacement) == [s[0]] + ReplaceAll(s[1..], pattern, replacement)
  {
    assert !StartsWith(s, pattern) by {
      if |pattern| <= |s| {
        assert s[..|pattern|][0] == s[0];
      }
    }
  }

  /** Text without `$` cannot hold a placeholder, so it is copied through. */
  lemma {:induction false} ReplaceSkipsPlain(a: string, b: string, pattern: string, replacement: string)
    requires |pattern| > 0 && pattern[0] == '$' && DollarFree(a)
    ensures ReplaceAll(a + b, pattern, replacement) == a + ReplaceAll(b, pattern, replacement)
    decreases |a|
  {
    if |a| == 0 {
      assert a + b == b;
    } else {
      ReplaceStep(a + b, pattern, replacement);
      assert (a + b)[1..] == a[1..] + b;
      ReplaceSkipsPlain(a[1..], b, pattern, replacement);
      assert [a[0]] + a[1..] == a;
    }
  }

  lemma ReplaceAtPattern(b: string, pattern: string, replacement: string)
    requires |pattern| > 0
    ensures ReplaceAll(pattern + b, pattern, replacement) == replacement + ReplaceAll(b, pattern, replacement)
  {
    assert (pattern + b)[..|pattern|] == pattern;
    assert (pattern + b)[|pattern|..] == b;
  }

  /** The other placeholder starts with `$` but is not the pattern, so it is copied through. */
  lemma ReplaceSkipsOther(b: string, other: string, pattern: string, replacement: string)
    requires |pattern| > 1 && pattern[0] == '$' && |other| > 1 && other[0] == '$'
    requires DollarFree(other[1..]) && other[1] != pattern[1]
    ensures ReplaceAll(other + b, pattern, replacement) == other + ReplaceAll(b, pattern, replacement)
  {
    var s := other + b;
    assert !StartsWith(s, pattern) by {
      if |pattern| <= |s| {
        assert s[..|pattern|][1] == other[1];
      }
    }
    assert ReplaceAll(s, pattern, replacement) == [s[0]] + ReplaceAll(s[1..], pattern, replacement);
    assert s[1..] == other[1..] + b;
    ReplaceSkipsPlain(other[1..], b, pattern, replacement);
    calc {
      [s[0]] + (other[1..] + ReplaceAll(b, pattern, replacement));
      ([other[0]] + other[1..]) + ReplaceAll(b, pattern, replacement);
      { assert [other[0]] + other[1..] == other; }
      other + ReplaceAll(b, pattern, replacement);
    }
  }

  /** Substituting the source id leaves only target placeholders. */
  lemma {:induction false} FirstPass(cs: seq<Chunk>, source: string)
    requires PlainText(cs) && DollarFree(source)
    ensures ReplaceAll(Render(cs, SourcePlaceholder, TargetPlaceholder), SourcePlaceholder, "'" + source + "'")
      == Render(cs, "'" + source + "'", TargetPlaceholder)
    decreases |cs|
  {
    if |cs| > 0 {
      var rest := Render(cs[1..], SourcePlaceholder, TargetPlaceholder);
      FirstPass(cs[1..], source);
      match cs[0]
      case Text(t) => ReplaceSkipsPlain(t, rest, SourcePlaceholder, "'" + source + "'");
      case SourceCompanyId => ReplaceAtPattern(rest, SourcePlaceholder, "'" + source + "'");
      case TargetOrgId =>
        assert TargetPlaceholder[1..] == "target_org_id";
        ReplaceSkipsOther(rest, TargetPlaceholder, SourcePlaceholder, "'" + source + "'");
    }
  }

  lemma {:induction false} SecondPass(cs: seq<Chunk>, source: string, target: string)
    requires PlainText(cs) && DollarFree(source) && DollarFree(target)
    ensures ReplaceAll(Render(cs, "'" + source + "'", TargetPlaceholder), TargetPlaceholder, "'" + target + "'")
      == Render(cs, "'" + source + "'", "'" + target + "'")
    decreases |cs|
  {
    if |cs| > 0 {
      var q := "'" + source + "'";
      var rest := Render(cs[1..], q, TargetPlaceholder);
      SecondPass(cs[1..], source, target);
      match cs[0]
      case Text(t) => ReplaceSkipsPlain(t, rest, TargetPlaceholder, "'" + target + "'");
      case SourceCompanyId =>
        assert DollarFree(q) by {
          forall i | 0 <= i < |q| ensures q[i] != '$' {
            if 0 < i < |q| - 1 {
              assert q[i] == source[i - 1];
            }
          }
        }
        ReplaceSkipsPlain(q, rest, TargetPlaceholder, "'" + target + "'");
      case TargetOrgId => ReplaceAtPattern(rest, TargetPlaceholder, "'" + target + "'");
    }
  }

  /**
   * Every `$source_company_id` and `$target_org_id` in a script whose own
   * text has no `$` is replaced by the quoted ids, and nothing else changes.
   */
  lemma ParameterizeInstantiates(cs: seq<Chunk>, source: string, target: string)
    requires PlainText(cs) && DollarFree(source) && DollarFree(target)
    ensures Parameterize(Render(cs, SourcePlaceholder, TargetPlaceholder), source, target)
      == Render(cs, "'" + source + "'", "'" + target + "'")
  {
    FirstPass(cs, source);
    SecondPass(cs, source, target);
  }
}
