/**
 * The query of a location, as `URLSearchParams` reads it: the text
 * between the first `?` and the fragment, split into `name=value` pairs
 * at `&`.
 */
module UrlQuery {

  import opened Wrappers
  import opened Strings

  /** `URLSearchParams.get`: the first value of a key, `None` for `null`. */
  function SearchParam(query: seq<(string, string)>, key: string): (r: Option<string>)
    ensures r.Some? ==> (key, r.value) in query
    ensures r.None? <==> forall i :: 0 <= i < |query| ==> query[i].0 != key
  {
    if |query| == 0 then None
    else if query[0].0 == key then Some(query[0].1)
    else SearchParam(query[1..], key)
  }

  /** The value found belongs to the first pair with the key: earlier pairs have other keys. */
  lemma {:induction false} SearchParamFirst(query: seq<(string, string)>, key: string)
    ensures SearchParam(query, key).Some? ==>
      exists i :: 0 <= i < |query| && query[i] == (key, SearchParam(query, key).value)
        && forall j :: 0 <= j < i ==> query[j].0 != key
    decreases |query|
  {
    if |query| > 0 && query[0].0 != key && SearchParam(query, key).Some? {
      var rest := query[1..];
      SearchParamFirst(rest, key);
      var i :| 0 <= i < |rest| && rest[i] == (key, SearchParam(rest, key).value) && forall j :: 0 <= j < i ==> rest[j].0 != key;
      assert query[i + 1] == rest[i];
      forall j | 0 <= j < i + 1 ensures query[j].0 != key {
        if j > 0 { assert query[j] == rest[j - 1]; }
      }
    } else if |query| > 0 && query[0].0 == key {
      assert query[0] == (key, SearchParam(query, key).value);
    }
  }

  /** One piece of a query: the name before its first `=`, the value after it (`""` without one). */
  function PairOf(piece: string): (string, string) {
    match IndexOf(piece, '=')
    case None => (piece, "")
    case Some(i) => (piece[..i], piece[i + 1..])
  }

  /** The pairs of the pieces, empty pieces skipped. */
  function PiecesToPairs(pieces: seq<string>): seq<(string, string)> {
    if |pieces| == 0 then []
    else (if pieces[0] == "" then [] else [PairOf(pieces[0])]) + PiecesToPairs(pieces[1..])
  }

  /** The pairs of a location's query; a location without `?` has none. */
  function QueryPairs(location: string): seq<(string, string)> {
    match IndexOf(location, '?')
    case None => []
    case Some(i) => PiecesToPairs(Split(BeforeFirst(location[i + 1..], '#'), '&'))
  }

  /** The first occurrence of `c` in `a + [c] + b`, when `a` does not hold it, is right after `a`. */
  lemma IndexAfter(a: string, c: char, b: string)
    requires c !in a
    ensures IndexOf(a + [c] + b, c) == Some(|a|)
  {
    var s := a + [c] + b;
    assert s[|a|] == c;
    assert forall j :: 0 <= j < |a| ==> s[j] == a[j];
  }

  /** A location's query is the text after its first `?`, up to the fragment. */
  lemma QueryOfLocation(path: string, query: string)
    requires '?' !in path && '#' !in query
    ensures QueryPairs(path + "?" + query) == PiecesToPairs(Split(query, '&'))
  {
    var location := path + "?" + query;
    assert location == path + ['?'] + query;
    IndexAfter(path, '?', query);
    assert location[|path| + 1..] == query;
    assert BeforeFirst(query, '#') == query;
  }

  /** A query without `&` is a single piece. */
  lemma SinglePiece(query: string)
    requires query != "" && '&' !in query
    ensures PiecesToPairs(Split(query, '&')) == [PairOf(query)]
  {
    assert Split(query, '&') == [query];
    assert PiecesToPairs([query]) == [PairOf(query)] + PiecesToPairs([]);
  }

  /** A piece `key=value` whose key holds no `=` splits back into the key and the value. */
  lemma PairOfKeyValue(key: string, value: string)
    requires '=' !in key
    ensures PairOf(key + "=" + value) == (key, value)
  {
    var piece := key + "=" + value;
    assert piece == key + ['='] + value;
    IndexAfter(key, '=', value);
    assert piece[..|key|] == key;
    assert piece[|key| + 1..] == value;
  }

  /**
   * A location `path?key=value` whose parts hold none of the query's
   * delimiters, nor the characters `URLSearchParams` would decode, reads
   * back `value` under `key`.
   */
  lemma SingleParamReadBack(path: string, key: string, value: string)
    requires '?' !in path && '#' !in path
    requires key != "" && '=' !in key && '&' !in key && '#' !in key && '%' !in key && '+' !in key
    requires '&' !in value && '#' !in value && '%' !in value && '+' !in value
    ensures SearchParam(QueryPairs(path + "?" + key + "=" + value), key) == Some(value)
  {
    var query := key + "=" + value;
    assert path + "?" + key + "=" + value == path + "?" + query;
    assert '#' !in query && '&' !in query;
    QueryOfLocation(path, query);
    SinglePiece(query);
    PairOfKeyValue(key, value);
  }
}
