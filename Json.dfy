/**
 * JavaScript values as the ledger handles them: what JSON.parse produces,
 * plus `undefined`, which a property read yields for an absent key.
 * An object is a sequence of fields in the object's own property order, so
 * that spreading, rest-destructuring and serialisation order can be stated.
 */
module Json {

  datatype Option<+T> = None | Some(value: T)

  datatype Value =
    | Undefined
    | Null
    | Bool(b: bool)
    | Num(n: int)
    | Str(s: string)
    | Arr(items: seq<Value>)
    | Obj(fields: seq<(string, Value)>)

  /** A JavaScript object: its own fields in property order. */
  type Record = seq<(string, Value)>

  /** Number.MAX_SAFE_INTEGER; integers beyond it are not exact in a JS number. */
  const MaxSafeInteger: int := 0x1F_FFFF_FFFF_FFFF

  function KeysOf(r: Record): set<string>
  {
    set i | 0 <= i < |r| :: r[i].0
  }

  /** `o[k]`: the value of the first field named k, or undefined when there is none. */
  function Get(r: Record, k: string): Value
  {
    if r == [] then Undefined
    else if r[0].0 == k then r[0].1
    else Get(r[1..], k)
  }

  /** `{...o, [k]: v}`: a field already named k keeps its place and takes v; otherwise k is appended. */
  function Put(r: Record, k: string, v: Value): Record
  {
    if r == [] then [(k, v)]
    else if r[0].0 == k then [(k, v)] + r[1..]
    else [r[0]] + Put(r[1..], k, v)
  }

  /** `const {[k]: _, ...rest} = o`: every field not named k, in order. */
  function Without(r: Record, k: string): Record
  {
    if r == [] then []
    else if r[0].0 == k then Without(r[1..], k)
    else [r[0]] + Without(r[1..], k)
  }

  /** `{...base, ...extra}`: the fields of extra put into base one after another. */
  function Merge(base: Record, extra: Record): Record
    decreases |extra|
  {
    if extra == [] then base
    else Merge(Put(base, extra[0].0, extra[0].1), extra[1..])
  }

  /** Field names of a JS object are distinct. */
  predicate UniqueKeys(r: Record)
  {
    forall i, j :: 0 <= i < j < |r| ==> r[i].0 != r[j].0
  }

  predicate IsDigit(c: char)
  {
    '0' <= c <= '9'
  }

  /**
   * Canonical decimal strings: the keys a JS object orders before all others.
   * Keys of this shape are excluded from plain records, for which the field
   * sequence is then exactly the JS property order.
   */
  predicate LooksLikeIndex(k: string)
  {
    |k| > 0 && (forall i :: 0 <= i < |k| ==> IsDigit(k[i])) && (k[0] != '0' || |k| == 1)
  }

  /**
   * Values that JSON text represents faithfully: no undefined anywhere,
   * integers within the safe range, objects with distinct keys in JS order.
   */
  predicate Plain(v: Value)
    decreases v
  {
    match v
    case Undefined => false
    case Null => true
    case Bool(_) => true
    case Num(n) => -MaxSafeInteger <= n <= MaxSafeInteger
    case Str(_) => true
    case Arr(items) => forall i :: 0 <= i < |items| ==> Plain(items[i])
    case Obj(fields) =>
      UniqueKeys(fields) &&
      forall i :: 0 <= i < |fields| ==> !LooksLikeIndex(fields[i].0) && Plain(fields[i].1)
  }

  predicate PlainRecord(r: Record)
  {
    Plain(Obj(r))
  }

  /** JavaScript truthiness (NaN is not a modelled number). */
  predicate Truthy(v: Value)
  {
    match v
    case Undefined => false
    case Null => false
    case Bool(b) => b
    case Num(n) => n != 0
    case Str(s) => s != ""
    case Arr(_) => true
    case Obj(_) => true
  }

  /**
   * `v.k` for the data field names the ledger reads: None when v is null or
   * undefined (a TypeError), undefined for strings, numbers, booleans and arrays.
   */
  function Prop(v: Value, k: string): (r: Option<Value>)
    ensures r.None? <==> v == Null || v == Undefined
    ensures v.Obj? ==> r == Some(Get(v.fields, k))
  {
    match v
    case Undefined => None
    case Null => None
    case Obj(fields) => Some(Get(fields, k))
    case _ => Some(Undefined)
  }

  // ---------------------------------------------------------------------------
  // Lemmas on the object operations
  // ---------------------------------------------------------------------------

  lemma {:induction false} GetAbsent(r: Record, k: string)
    requires k !in KeysOf(r)
    ensures Get(r, k) == Undefined
  {
    if r != [] {
      assert r[0].0 in KeysOf(r);
      assert KeysOf(r[1..]) <= KeysOf(r) by {
        forall x | x in KeysOf(r[1..]) ensures x in KeysOf(r) {
          var i :| 0 <= i < |r[1..]| && r[1..][i].0 == x;
          assert r[i + 1].0 == x;
        }
      }
      GetAbsent(r[1..], k);
    }
  }

  lemma {:induction false} GetAt(r: Record, i: nat)
    requires UniqueKeys(r) && i < |r|
    ensures Get(r, r[i].0) == r[i].1
  {
    if i > 0 {
      GetAt(r[1..], i - 1);
    }
  }

  lemma {:induction false} KeysOfCons(r: Record)
    requires r != []
    ensures KeysOf(r) == {r[0].0} + KeysOf(r[1..])
  {
    forall x | x in KeysOf(r) ensures x in {r[0].0} + KeysOf(r[1..]) {
      var i :| 0 <= i < |r| && r[i].0 == x;
      if i > 0 { assert r[1..][i - 1].0 == x; }
    }
    forall x | x in KeysOf(r[1..]) ensures x in KeysOf(r) {
      var i :| 0 <= i < |r[1..]| && r[1..][i].0 == x;
      assert r[i + 1].0 == x;
    }
  }

  lemma {:induction false} GetPut(r: Record, k: string, v: Value, k': string)
    ensures Get(Put(r, k, v), k') == if k' == k then v else Get(r, k')
  {
    if r != [] && r[0].0 != k {
      GetPut(r[1..], k, v, k');
    }
  }

  lemma {:induction false} KeysOfPut(r: Record, k: string, v: Value)
    ensures KeysOf(Put(r, k, v)) == KeysOf(r) + {k}
  {
    if r == [] {
      assert KeysOf([(k, v)]) == {k} by { KeysOfCons([(k, v)]); }
    } else if r[0].0 == k {
      KeysOfCons(r);
      KeysOfCons([(k, v)] + r[1..]);
      assert ([(k, v)] + r[1..])[1..] == r[1..];
    } else {
      KeysOfCons(r);
      var t := [r[0]] + Put(r[1..], k, v);
      KeysOfCons(t);
      assert t[1..] == Put(r[1..], k, v);
      KeysOfPut(r[1..], k, v);
    }
  }

  lemma {:induction false} PutAbsent(r: Record, k: string, v: Value)
    requires k !in KeysOf(r)
    ensures Put(r, k, v) == r + [(k, v)]
  {
    if r != [] {
      KeysOfCons(r);
      PutAbsent(r[1..], k, v);
      assert [r[0]] + (r[1..] + [(k, v)]) == r + [(k, v)];
    }
  }

  lemma {:induction false} WithoutAbsent(r: Record, k: string)
    requires k !in KeysOf(r)
    ensures Without(r, k) == r
  {
    if r != [] {
      KeysOfCons(r);
      WithoutAbsent(r[1..], k);
    }
  }

  lemma {:induction false} WithoutPut(r: Record, k: string, v: Value)
    ensures Without(Put(r, k, v), k) == Without(r, k)
  {
    if r == [] {
      assert Without([(k, v)], k) == Without([], k);
    } else if r[0].0 == k {
      assert ([(k, v)] + r[1..])[1..] == r[1..];
    } else {
      var t := [r[0]] + Put(r[1..], k, v);
      assert t[1..] == Put(r[1..], k, v);
      WithoutPut(r[1..], k, v);
    }
  }

  lemma {:induction false} KeysOfWithout(r: Record, k: string)
    ensures KeysOf(Without(r, k)) == KeysOf(r) - {k}
  {
    if r == [] {
    } else {
      KeysOfCons(r);
      KeysOfWithout(r[1..], k);
      if r[0].0 != k {
        var t := [r[0]] + Without(r[1..], k);
        KeysOfCons(t);
        assert t[1..] == Without(r[1..], k);
      }
    }
  }

  lemma {:induction false} WithoutConcat(a: Record, b: Record, k: string)
    ensures Without(a + b, k) == Without(a, k) + Without(b, k)
  {
    if a != [] {
      assert (a + b)[1..] == a[1..] + b;
      WithoutConcat(a[1..], b, k);
    } else {
      assert a + b == b;
    }
  }

  /** Every field of the rest object comes from the original, with the same value. */
  lemma {:induction false} WithoutIsSubsequence(r: Record, k: string, j: nat)
    requires j < |Without(r, k)|
    ensures Without(r, k)[j] in r && Without(r, k)[j].0 != k
  {
    if r[0].0 == k {
      WithoutIsSubsequence(r[1..], k, j);
    } else if j > 0 {
      WithoutIsSubsequence(r[1..], k, j - 1);
    }
  }

  /** A field that is plain and whose name is new may be put in front of a plain record. */
  lemma PlainCons(x: (string, Value), t: Record)
    requires PlainRecord(t) && !LooksLikeIndex(x.0) && Plain(x.1) && x.0 !in KeysOf(t)
    ensures PlainRecord([x] + t)
  {
    var w := [x] + t;
    forall i, j | 0 <= i < j < |w| ensures w[i].0 != w[j].0 {
      assert w[j] == t[j - 1];
      if i == 0 {
        assert t[j - 1].0 in KeysOf(t);
      } else {
        assert w[i] == t[i - 1];
      }
    }
    forall i | 0 <= i < |w| ensures !LooksLikeIndex(w[i].0) && Plain(w[i].1) {
      if i > 0 { assert w[i] == t[i - 1]; }
    }
  }

  /** The fields after the first of a plain record form a plain record without the first name. */
  lemma PlainTail(r: Record)
    requires PlainRecord(r) && r != []
    ensures PlainRecord(r[1..]) && r[0].0 !in KeysOf(r[1..])
    ensures !LooksLikeIndex(r[0].0) && Plain(r[0].1)
  {
    var t := r[1..];
    forall i, j | 0 <= i < j < |t| ensures t[i].0 != t[j].0 {
      assert t[i] == r[i + 1] && t[j] == r[j + 1];
    }
    forall i | 0 <= i < |t| ensures !LooksLikeIndex(t[i].0) && Plain(t[i].1) {
      assert t[i] == r[i + 1];
    }
    forall i | 0 <= i < |t| ensures t[i].0 != r[0].0 {
      assert t[i] == r[i + 1];
    }
  }

  lemma {:induction false} PlainWithout(r: Record, k: string)
    requires PlainRecord(r)
    ensures PlainRecord(Without(r, k))
  {
    if r != [] {
      PlainTail(r);
      PlainWithout(r[1..], k);
      if r[0].0 != k {
        KeysOfWithout(r[1..], k);
        PlainCons(r[0], Without(r[1..], k));
      }
    }
  }

  lemma {:induction false} PlainPut(r: Record, k: string, v: Value)
    requires PlainRecord(r) && Plain(v) && !LooksLikeIndex(k)
    ensures PlainRecord(Put(r, k, v))
  {
    if r == [] {
      PlainCons((k, v), []);
      assert [(k, v)] + [] == [(k, v)];
    } else if r[0].0 == k {
      PlainTail(r);
      PlainCons((k, v), r[1..]);
    } else {
      PlainTail(r);
      PlainPut(r[1..], k, v);
      KeysOfPut(r[1..], k, v);
      PlainCons(r[0], Put(r[1..], k, v));
    }
  }

  lemma {:induction false} GetSkip(a: Record, b: Record, k: string)
    requires k !in KeysOf(a)
    ensures Get(a + b, k) == Get(b, k)
  {
    if a != [] {
      KeysOfCons(a);
      assert (a + b)[1..] == a[1..] + b;
      GetSkip(a[1..], b, k);
    } else {
      assert a + b == b;
    }
  }

  lemma {:induction false} GetWithout(r: Record, k: string, k': string)
    requires k' != k
    ensures Get(Without(r, k), k') == Get(r, k')
  {
    if r != [] {
      GetWithout(r[1..], k, k');
    }
  }

  lemma {:induction false} KeysOfMerge(base: Record, extra: Record)
    ensures KeysOf(Merge(base, extra)) == KeysOf(base) + KeysOf(extra)
    decreases |extra|
  {
    if extra != [] {
      KeysOfPut(base, extra[0].0, extra[0].1);
      KeysOfMerge(Put(base, extra[0].0, extra[0].1), extra[1..]);
      KeysOfCons(extra);
    }
  }

  /** A merged field takes the value of extra when extra has it, else of base. */
  lemma {:induction false} GetMerge(base: Record, extra: Record, k: string)
    requires UniqueKeys(extra)
    ensures Get(Merge(base, extra), k) == if k in KeysOf(extra) then Get(extra, k) else Get(base, k)
    decreases |extra|
  {
    if extra != [] {
      var rest := extra[1..];
      assert UniqueKeys(rest);
      KeysOfCons(extra);
      GetMerge(Put(base, extra[0].0, extra[0].1), rest, k);
      GetPut(base, extra[0].0, extra[0].1, k);
      if k in KeysOf(rest) {
        var i :| 0 <= i < |rest| && rest[i].0 == k;
        assert extra[i + 1].0 == k;
      }
    }
  }
}
