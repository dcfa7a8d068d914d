/**
 * Display flattening of backend/api.js: a stored transaction node becomes one
 * flat object holding the content id, four metadata fields and, spread last,
 * the fields of the payload.  The display object is a map from field names
 * to values; its field order plays no part in what is shown.
 */
module Api {
  import opened Json

  function Digit(d: nat): (c: char)
    requires d < 10
    ensures IsDigit(c)
  {
    (('0' as int) + d) as char
  }

  /** The decimal text of a natural number, as JS writes an array index. */
  function Decimal(n: nat): (s: string)
    decreases n
  {
    if n < 10 then [Digit(n)] else Decimal(n / 10) + [Digit(n % 10)]
  }

  lemma {:induction false} DecimalLength(n: nat)
    ensures |Decimal(n)| >= 1
    ensures |Decimal(n)| == 1 <==> n < 10
  {
    if n >= 10 {
      DecimalLength(n / 10);
    }
  }

  /** Distinct indices have distinct decimal names. */
  lemma {:induction false} DecimalInjective(a: nat, b: nat)
    requires Decimal(a) == Decimal(b)
    ensures a == b
  {
    DecimalLength(a);
    DecimalLength(b);
    if a >= 10 && b >= 10 {
      var da, db := Decimal(a), Decimal(b);
      assert da[|da| - 1] == Digit(a % 10) && db[|db| - 1] == Digit(b % 10);
      assert da[..|da| - 1] == Decimal(a / 10) && db[..|db| - 1] == Decimal(b / 10);
      DecimalInjective(a / 10, b / 10);
    }
  }

  /** The own fields of an array: its indices, in decimal, mapped to its items. */
  function IndexFields(items: seq<Value>): map<string, Value>
    decreases |items|
  {
    if items == [] then map[]
    else IndexFields(items[..|items| - 1])[Decimal(|items| - 1) := items[|items| - 1]]
  }

  lemma {:induction false} IndexFieldsAt(items: seq<Value>, i: nat)
    requires i < |items|
    ensures Decimal(i) in IndexFields(items) && IndexFields(items)[Decimal(i)] == items[i]
  {
    var n := |items| - 1;
    if i < n {
      IndexFieldsAt(items[..n], i);
      if Decimal(n) == Decimal(i) {
        DecimalInjective(n, i);
      }
      assert items[..n][i] == items[i];
    }
  }

  lemma {:induction false} IndexFieldsKeys(items: seq<Value>, k: string)
    requires k in IndexFields(items)
    ensures exists i :: 0 <= i < |items| && k == Decimal(i)
  {
    var n := |items| - 1;
    if k != Decimal(n) {
      IndexFieldsKeys(items[..n], k);
    }
  }

  /** The characters of a string as one-character strings. */
  function Characters(s: string): (cs: seq<Value>)
    ensures |cs| == |s| && forall i :: 0 <= i < |s| ==> cs[i] == Str([s[i]])
  {
    seq(|s|, i requires 0 <= i < |s| => Str([s[i]]))
  }

  /**
   * The fields that `{...v}` contributes: an object its own fields, an array
   * or a string its indices, null, undefined, numbers and booleans nothing.
   */
  function Spread(v: Value): map<string, Value>
  {
    match v
    case Obj(fields) => map k | k in KeysOf(fields) :: Get(fields, k)
    case Arr(items) => IndexFields(items)
    case Str(s) => IndexFields(Characters(s))
    case _ => map[]
  }

  const MetadataKeys: set<string> := {"cid", "parents", "author", "timestamp", "type"}

  /** The object literal before the spread: the id's text and four node fields, undefined when absent. */
  function Metadata(cid: string, node: Record): map<string, Value>
  {
    map[
      "cid" := Str(cid),
      "parents" := Get(node, "parents"),
      "author" := Get(node, "author"),
      "timestamp" := Get(node, "timestamp"),
      "type" := Get(node, "type")
    ]
  }

  /**
   * formatTransactionForFrontend.  `cid` is the text `cid.toString()`.  The
   * payload is spread last, so a payload field overrides a metadata field of
   * the same name; every other top-level field of the node is dropped.
   */
  function FormatTransactionForFrontend(cid: string, node: Record): (out: map<string, Value>)
    ensures out.Keys == MetadataKeys + Spread(Get(node, "payload")).Keys
    ensures forall k :: k in Spread(Get(node, "payload")) ==> out[k] == Spread(Get(node, "payload"))[k]
    ensures "cid" !in Spread(Get(node, "payload")) ==> out["cid"] == Str(cid)
    ensures forall k :: k in MetadataKeys - {"cid"} && k !in Spread(Get(node, "payload")) ==> out[k] == Get(node, k)
  {
    Metadata(cid, node) + Spread(Get(node, "payload"))
  }

  /** Every field of an object payload is shown with the payload's value. */
  lemma PayloadFieldsShown(cid: string, node: Record, i: nat)
    requires Get(node, "payload").Obj?
    requires UniqueKeys(Get(node, "payload").fields)
    requires i < |Get(node, "payload").fields|
    ensures var f := Get(node, "payload").fields[i];
            f.0 in FormatTransactionForFrontend(cid, node) && FormatTransactionForFrontend(cid, node)[f.0] == f.1
  {
    var fields := Get(node, "payload").fields;
    GetAt(fields, i);
    assert fields[i].0 in KeysOf(fields);
  }

  /**
   * A top-level node field other than the five metadata names, `signature`
   * for one, is not shown unless the payload has a field of that name.
   */
  lemma OtherFieldsDropped(cid: string, node: Record, k: string)
    requires k !in MetadataKeys
    ensures k in FormatTransactionForFrontend(cid, node) <==> k in Spread(Get(node, "payload"))
  {
  }

  /** A string payload is shown as one field per character, named by its index. */
  lemma StringPayloadSpreadsCharacters(cid: string, node: Record, i: nat)
    requires Get(node, "payload").Str? && i < |Get(node, "payload").s|
    ensures Decimal(i) in FormatTransactionForFrontend(cid, node)
    ensures FormatTransactionForFrontend(cid, node)[Decimal(i)] == Str([Get(node, "payload").s[i]])
  {
    IndexFieldsAt(Characters(Get(node, "payload").s), i);
  }

  /** A payload that is null, undefined, a number or a boolean adds nothing. */
  lemma ScalarPayloadAddsNothing(cid: string, node: Record)
    requires Get(node, "payload") in {Null, Undefined} || Get(node, "payload").Num? || Get(node, "payload").Bool?
    ensures FormatTransactionForFrontend(cid, node) == Metadata(cid, node)
  {
  }
}
