/**
 * JSON values as JavaScript sees them after `JSON.parse`: objects are
 * sequences of (key, value) bindings in text order.  JavaScript itself
 * lists integer-like keys first, in ascending order; that reordering is
 * not modelled, so every key here is taken to be an ordinary name, and
 * no key is treated as inherited from `Object.prototype`.  A parsed object with a
 * repeated key has one property, placed at the key's first occurrence and
 * holding the value of its last occurrence; `Spread` computes exactly that
 * property list, and `Assign` is the property write `o[k] = v`.
 */
module JsonValues {

  import opened Wrappers
  import opened Strings

  datatype Json =
    | JNull
    | JBool(b: bool)
    | JNum(n: int)
    | JStr(s: string)
    | JArr(items: seq<Json>)
    | JObj(members: seq<(string, Json)>)

  /** JavaScript truthiness: `null`, `false`, `0` and `""` are falsy. */
  predicate Truthy(v: Json) {
    match v
    case JNull => false
    case JBool(b) => b
    case JNum(n) => n != 0
    case JStr(s) => s != ""
    case _ => true
  }

  /**
   * `String(v)`: arrays join their elements with "," (null elements give
   * the empty string) and every object gives "[object Object]".
   */
  function ToJsString(v: Json): string {
    match v
    case JNull => "null"
    case JBool(b) => if b then "true" else "false"
    case JNum(n) => IntToString(n)
    case JStr(s) => s
    case JArr(items) =>
      Join(seq(|items|, i requires 0 <= i < |items| =>
        if items[i].JNull? then "" else ToJsString(items[i])), ",")
    case JObj(_) => "[object Object]"
  }

  predicate HasKey<V>(ms: seq<(string, V)>, k: string) {
    exists i :: 0 <= i < |ms| && ms[i].0 == k
  }

  /** Property read `o[k]` on a parsed object: the last binding of `k` wins. */
  function Lookup<V>(ms: seq<(string, V)>, k: string): (r: Option<V>)
    ensures r.Some? <==> HasKey(ms, k)
  {
    if |ms| == 0 then None
    else
      match Lookup(ms[1..], k)
      case Some(v) =>
        assert forall i :: 0 <= i < |ms[1..]| ==> ms[1..][i] == ms[i + 1];
        Some(v)
      case None =>
        if ms[0].0 == k then Some(ms[0].1)
        else
          assert forall i :: 1 <= i < |ms| ==> ms[i] == ms[1..][i - 1];
          None
  }

  /** Every key is bound at most once. */
  predicate UniqueKeys<V>(ms: seq<(string, V)>) {
    forall i, j :: 0 <= i < j < |ms| ==> ms[i].0 != ms[j].0
  }

  function Keys<V>(ms: seq<(string, V)>): (r: seq<string>)
    ensures |r| == |ms| && forall i :: 0 <= i < |ms| ==> r[i] == ms[i].0
  {
    seq(|ms|, i requires 0 <= i < |ms| => ms[i].0)
  }

  /** Property write `o[k] = v`: replaces the binding of `k` in place, or appends one. */
  function Assign<V>(ms: seq<(string, V)>, k: string, v: V): (r: seq<(string, V)>)
    ensures HasKey(ms, k) ==> |r| == |ms|
    ensures !HasKey(ms, k) ==> r == ms + [(k, v)]
  {
    if |ms| == 0 then [(k, v)]
    else if ms[0].0 == k then [(k, v)] + ms[1..]
    else
      assert HasKey(ms, k) <==> HasKey(ms[1..], k) by {
        if HasKey(ms, k) {
          var i :| 0 <= i < |ms| && ms[i].0 == k;
          assert ms[1..][i - 1].0 == k;
        }
        if HasKey(ms[1..], k) {
          var i :| 0 <= i < |ms[1..]| && ms[1..][i].0 == k;
          assert ms[i + 1].0 == k;
        }
      }
      [ms[0]] + Assign(ms[1..], k, v)
  }

  lemma {:induction false} AssignKeys<V>(ms: seq<(string, V)>, k: string, v: V)
    requires UniqueKeys(ms)
    ensures UniqueKeys(Assign(ms, k, v))
    ensures forall j :: HasKey(Assign(ms, k, v), j) <==> HasKey(ms, j) || j == k
    ensures Lookup(Assign(ms, k, v), k) == Some(v)
    ensures forall j :: j != k ==> Lookup(Assign(ms, k, v), j) == Lookup(ms, j)
  {
    var r := Assign(ms, k, v);
    if |ms| == 0 {
      assert r[0].0 == k;
    } else if ms[0].0 == k {
      assert r[1..] == ms[1..];
      forall j ensures HasKey(r, j) <==> HasKey(ms, j) || j == k {
        assert HasKey(r, j) ==> HasKey(ms, j) || j == k by {
          if HasKey(r, j) {
            var i :| 0 <= i < |r| && r[i].0 == j;
            assert r[i].0 == ms[i].0;
          }
        }
        assert HasKey(ms, j) ==> HasKey(r, j) by {
          if HasKey(ms, j) {
            var i :| 0 <= i < |ms| && ms[i].0 == j;
            assert r[i].0 == ms[i].0;
          }
        }
        assert r[0].0 == k;
      }
      assert !HasKey(ms[1..], k);
      LookupMissing(ms[1..], k);
      assert Lookup(r, k) == Some(v);
      forall j | j != k ensures Lookup(r, j) == Lookup(ms, j) {
        assert r[1..] == ms[1..];
      }
    } else {
      var tail := ms[1..];
      assert UniqueKeys(tail);
      AssignKeys(tail, k, v);
      var t := Assign(tail, k, v);
      assert r == [ms[0]] + t;
      assert r[1..] == t;
      forall i | 0 <= i < |tail| ensures tail[i].0 != ms[0].0 {
        assert tail[i] == ms[i + 1];
      }
      assert !HasKey(tail, ms[0].0);
      forall i, j | 0 <= i < j < |r| ensures r[i].0 != r[j].0 {
        if i > 0 {
          assert r[i] == t[i - 1] && r[j] == t[j - 1];
        } else {
          assert r[j] == t[j - 1];
        }
      }
      forall j ensures HasKey(r, j) <==> HasKey(ms, j) || j == k {
        HasKeyCons(ms, j);
        HasKeyCons(r, j);
      }
      forall j ensures Lookup(r, j) == if j == k then Some(v) else Lookup(ms, j) {
        assert r[1..] == t;
        if j == ms[0].0 {
          LookupMissing(tail, j);
        }
      }
    }
  }

  lemma HasKeyCons<V>(ms: seq<(string, V)>, j: string)
    requires |ms| > 0
    ensures HasKey(ms, j) <==> ms[0].0 == j || HasKey(ms[1..], j)
  {
    if HasKey(ms, j) && ms[0].0 != j {
      var i :| 0 <= i < |ms| && ms[i].0 == j;
      assert ms[1..][i - 1].0 == j;
    }
    if HasKey(ms[1..], j) {
      var i :| 0 <= i < |ms[1..]| && ms[1..][i].0 == j;
      assert ms[i + 1].0 == j;
    }
  }

  /** With every key bound once, each key reads back the value bound to it. */
  lemma {:induction false} LookupAt<V>(ms: seq<(string, V)>, i: int)
    requires UniqueKeys(ms) && 0 <= i < |ms|
    ensures Lookup(ms, ms[i].0) == Some(ms[i].1)
  {
    var tail := ms[1..];
    if i == 0 {
      forall j | 0 <= j < |tail| ensures tail[j].0 != ms[0].0 {
        assert tail[j] == ms[j + 1];
      }
      LookupMissing(tail, ms[0].0);
    } else {
      forall a, b | 0 <= a < b < |tail| ensures tail[a].0 != tail[b].0 {
        assert tail[a] == ms[a + 1] && tail[b] == ms[b + 1];
      }
      LookupAt(tail, i - 1);
      assert tail[i - 1] == ms[i];
    }
  }

  /** Assigning a key not yet bound appends its binding and changes no other read. */
  lemma AssignFresh<V>(ms: seq<(string, V)>, k: string, v: V)
    requires UniqueKeys(ms) && !HasKey(ms, k)
    ensures Assign(ms, k, v) == ms + [(k, v)]
    ensures UniqueKeys(ms + [(k, v)])
    ensures forall j :: Lookup(ms + [(k, v)], j) == if j == k then Some(v) else Lookup(ms, j)
  {
    var r := ms + [(k, v)];
    forall i, j | 0 <= i < j < |r| ensures r[i].0 != r[j].0 {
      if j == |ms| {
        assert r[i] == ms[i];
      } else {
        assert r[i] == ms[i] && r[j] == ms[j];
      }
    }
    forall j ensures Lookup(r, j) == if j == k then Some(v) else Lookup(ms, j) {
      LookupAppend(ms, [(k, v)], j);
      assert HasKey([(k, v)], j) <==> j == k by {
        assert [(k, v)][0].0 == k;
      }
    }
  }

  lemma LookupMissing<V>(ms: seq<(string, V)>, k: string)
    requires !HasKey(ms, k)
    ensures Lookup(ms, k) == None
  {
  }

  /** The object built by assigning the bindings of `ms`, in order, onto `acc`. */
  function SpreadInto<V>(acc: seq<(string, V)>, ms: seq<(string, V)>): seq<(string, V)>
    decreases |ms|
  {
    if |ms| == 0 then acc else SpreadInto(Assign(acc, ms[0].0, ms[0].1), ms[1..])
  }

  /** `{ ...o }` of a parsed object: one property per key, last value wins. */
  function Spread<V>(ms: seq<(string, V)>): seq<(string, V)> {
    SpreadInto([], ms)
  }

  lemma {:induction false} SpreadIntoProps<V>(acc: seq<(string, V)>, ms: seq<(string, V)>)
    requires UniqueKeys(acc)
    ensures UniqueKeys(SpreadInto(acc, ms))
    ensures forall j :: HasKey(SpreadInto(acc, ms), j) <==> HasKey(acc, j) || HasKey(ms, j)
    ensures forall j :: Lookup(SpreadInto(acc, ms), j) == (if HasKey(ms, j) then Lookup(ms, j) else Lookup(acc, j))
    decreases |ms|
  {
    if |ms| > 0 {
      var acc' := Assign(acc, ms[0].0, ms[0].1);
      AssignKeys(acc, ms[0].0, ms[0].1);
      SpreadIntoProps(acc', ms[1..]);
      forall j ensures HasKey(SpreadInto(acc, ms), j) <==> HasKey(acc, j) || HasKey(ms, j) {
        HasKeyCons(ms, j);
      }
      forall j ensures Lookup(SpreadInto(acc, ms), j) ==
        (if HasKey(ms, j) then Lookup(ms, j) else Lookup(acc, j))
      {
        HasKeyCons(ms, j);
        if !HasKey(ms[1..], j) {
          LookupMissing(ms[1..], j);
        }
      }
    }
  }

  /** Spreading keeps the key set and every key's (last) value, and removes repeats. */
  lemma SpreadProps<V>(ms: seq<(string, V)>)
    ensures UniqueKeys(Spread(ms))
    ensures forall j :: HasKey(Spread(ms), j) <==> HasKey(ms, j)
    ensures forall j :: Lookup(Spread(ms), j) == Lookup(ms, j)
  {
    SpreadIntoProps([], ms);
  }

  /** Spreading an object that has no repeated key changes nothing. */
  lemma {:induction false} SpreadIntoUnique<V>(acc: seq<(string, V)>, ms: seq<(string, V)>)
    requires UniqueKeys(acc + ms)
    ensures SpreadInto(acc, ms) == acc + ms
    decreases |ms|
  {
    if |ms| > 0 {
      forall i | 0 <= i < |acc| ensures acc[i].0 != ms[0].0 {
        assert (acc + ms)[i] == acc[i] && (acc + ms)[|acc|] == ms[0];
      }
      forall i, j | 0 <= i < j < |acc + [ms[0]] + ms[1..]|
        ensures (acc + [ms[0]] + ms[1..])[i].0 != (acc + [ms[0]] + ms[1..])[j].0
      {
        assert acc + [ms[0]] + ms[1..] == acc + ms;
      }
      assert Assign(acc, ms[0].0, ms[0].1) == acc + [ms[0]];
      assert acc + [ms[0]] + ms[1..] == acc + ms;
      SpreadIntoUnique(acc + [ms[0]], ms[1..]);
    }
  }

  lemma SpreadUnique<V>(ms: seq<(string, V)>)
    requires UniqueKeys(ms)
    ensures Spread(ms) == ms
  {
    assert [] + ms == ms;
    SpreadIntoUnique([], ms);
  }

  /** Rewrites every bound value, keeping keys and order. */
  function MapValues<V, W>(ms: seq<(string, V)>, f: (string, V) -> W): (r: seq<(string, W)>)
    ensures |r| == |ms| && forall i :: 0 <= i < |ms| ==> r[i] == (ms[i].0, f(ms[i].0, ms[i].1))
  {
    seq(|ms|, i requires 0 <= i < |ms| => (ms[i].0, f(ms[i].0, ms[i].1)))
  }

  lemma HasKeyMapValues<V, W>(ms: seq<(string, V)>, f: (string, V) -> W, k: string)
    ensures HasKey(MapValues(ms, f), k) <==> HasKey(ms, k)
  {
    var r := MapValues(ms, f);
    if HasKey(ms, k) {
      var i :| 0 <= i < |ms| && ms[i].0 == k;
      assert r[i].0 == k;
    }
    if HasKey(r, k) {
      var i :| 0 <= i < |r| && r[i].0 == k;
      assert ms[i].0 == k;
    }
  }

  lemma {:induction false} AssignMapValues<V, W>(acc: seq<(string, V)>, k: string, v: V, f: (string, V) -> W)
    ensures Assign(MapValues(acc, f), k, f(k, v)) == MapValues(Assign(acc, k, v), f)
    decreases |acc|
  {
    if |acc| > 0 && acc[0].0 != k {
      AssignMapValues(acc[1..], k, v, f);
      assert MapValues(acc, f)[1..] == MapValues(acc[1..], f);
    } else if |acc| > 0 {
      assert MapValues(acc, f)[1..] == MapValues(acc[1..], f);
    }
  }

  lemma {:induction false} SpreadIntoMapValues<V, W>(acc: seq<(string, V)>, ms: seq<(string, V)>, f: (string, V) -> W)
    ensures SpreadInto(MapValues(acc, f), MapValues(ms, f)) == MapValues(SpreadInto(acc, ms), f)
    decreases |ms|
  {
    if |ms| > 0 {
      var fm := MapValues(ms, f);
      assert fm[0] == (ms[0].0, f(ms[0].0, ms[0].1));
      assert fm[1..] == MapValues(ms[1..], f);
      AssignMapValues(acc, ms[0].0, ms[0].1, f);
      SpreadIntoMapValues(Assign(acc, ms[0].0, ms[0].1), ms[1..], f);
    }
  }

  /** Rewriting values commutes with spreading. */
  lemma SpreadMapValues<V, W>(ms: seq<(string, V)>, f: (string, V) -> W)
    ensures Spread(MapValues(ms, f)) == MapValues(Spread(ms), f)
  {
    assert MapValues([], f) == [];
    SpreadIntoMapValues([], ms, f);
  }

  lemma SpreadIdempotent<V>(ms: seq<(string, V)>)
    ensures Spread(Spread(ms)) == Spread(ms)
  {
    SpreadProps(ms);
    SpreadUnique(Spread(ms));
  }

  lemma {:induction false} LookupMapValues<V, W>(ms: seq<(string, V)>, f: (string, V) -> W, k: string)
    ensures Lookup(MapValues(ms, f), k) ==
      if Lookup(ms, k).Some? then Some(f(k, Lookup(ms, k).value)) else None
  {
    if |ms| > 0 {
      LookupMapValues(ms[1..], f, k);
      assert MapValues(ms, f)[1..] == MapValues(ms[1..], f);
    }
  }

  lemma HasKeyAppend<V>(a: seq<(string, V)>, b: seq<(string, V)>, k: string)
    ensures HasKey(a + b, k) <==> HasKey(a, k) || HasKey(b, k)
  {
    if HasKey(a + b, k) {
      var i :| 0 <= i < |a + b| && (a + b)[i].0 == k;
      if i >= |a| {
        assert b[i - |a|].0 == k;
      }
    }
    if HasKey(b, k) {
      var i :| 0 <= i < |b| && b[i].0 == k;
      assert (a + b)[|a| + i].0 == k;
    }
    if HasKey(a, k) {
      var i :| 0 <= i < |a| && a[i].0 == k;
      assert (a + b)[i].0 == k;
    }
  }

  /** A binding in the later part of an object shadows the earlier part. */
  lemma {:induction false} LookupAppend<V>(a: seq<(string, V)>, b: seq<(string, V)>, k: string)
    ensures Lookup(a + b, k) == if HasKey(b, k) then Lookup(b, k) else Lookup(a, k)
  {
    if |a| == 0 {
      assert a + b == b;
      if !HasKey(b, k) {
        LookupMissing(b, k);
      }
    } else {
      assert (a + b)[1..] == a[1..] + b;
      LookupAppend(a[1..], b, k);
      HasKeyAppend(a[1..], b, k);
    }
  }
}
