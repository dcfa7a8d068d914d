/**
 * The rules the wallet HTTP handlers of backend/index.js and backend/server.js
 * share: the required-field checks, the wallet file name, the `.json`
 * listing filter, the display-name fallback, the record `createWallet`
 * stores, and the import checks.  JSON text, SHA-256 and the derivation of
 * a peer id from a stored key are the opaque `Platform`.
 *
 * Creation and import join the file name below `data` with `path.join`, so a
 * name of the form '../x' writes outside `data`.  `PrepareCreateAsWritten`
 * and `ImportWalletAsWritten` are the handlers as written, and
 * `CreateAsWrittenEscapes` and `ImportAsWrittenEscapes` exhibit such a write.
 * `PrepareCreate` and `ImportWallet` are the corrected handlers: they refuse,
 * with a 400, a write whose name holds '/', and `CreateStaysInData` and
 * `ImportStaysInData` state that every file they write is inside `data`.
 */
module WalletRules {
  import opened Json
  import PosixPath

  // ---------------------------------------------------------------------------
  // Strings
  // ---------------------------------------------------------------------------

  /** The characters `\s` matches and `String.prototype.trim` strips. */
  predicate IsJsWhitespace(c: char)
  {
    c == '\t' || c == '\n' || c == '\U{B}' || c == '\U{C}' || c == '\r' || c == ' ' ||
    c == '\U{A0}' || c == '\U{1680}' || ('\U{2000}' <= c && c <= '\U{200A}') ||
    c == '\U{2028}' || c == '\U{2029}' || c == '\U{202F}' || c == '\U{205F}' ||
    c == '\U{3000}' || c == '\U{FEFF}'
  }

  predicate EndsWith(s: string, suffix: string)
  {
    |s| >= |suffix| && s[|s| - |suffix|..] == suffix
  }

  /** `name.replace(/\s/g, '_')`. */
  function Underscored(name: string): string
  {
    seq(|name|, i requires 0 <= i < |name| => if IsJsWhitespace(name[i]) then '_' else name[i])
  }

  /** `${name.replace(/\s/g, '_')}.json`. */
  function WalletFileName(name: string): (f: string)
    ensures |f| == |name| + 5
    ensures EndsWith(f, ".json")
    ensures forall i :: 0 <= i < |f| ==> !IsJsWhitespace(f[i])
    ensures forall i :: 0 <= i < |name| ==> f[i] == (if IsJsWhitespace(name[i]) then '_' else name[i])
  {
    Underscored(name) + ".json"
  }

  /** The first index at which `pat` occurs in `s`. */
  function IndexOf(s: string, pat: string): Option<nat>
    decreases |s|
  {
    if |s| < |pat| then None
    else if s[..|pat|] == pat then Some(0)
    else match IndexOf(s[1..], pat)
      case None => None
      case Some(i) => Some(i + 1)
  }

  /** `pat` occurs in `s` at index j. */
  predicate OccursAt(s: string, pat: string, j: nat)
  {
    j + |pat| <= |s| && s[j..j + |pat|] == pat
  }

  /** IndexOf finds the first occurrence, and finds nothing only when there is none. */
  lemma {:induction false} IndexOfSpec(s: string, pat: string)
    ensures IndexOf(s, pat).Some? ==>
              OccursAt(s, pat, IndexOf(s, pat).value) &&
              forall j: nat :: j < IndexOf(s, pat).value ==> !OccursAt(s, pat, j)
    ensures IndexOf(s, pat).None? ==> forall j: nat :: !OccursAt(s, pat, j)
    decreases |s|
  {
    if |s| >= |pat| && s[..|pat|] != pat {
      IndexOfSpec(s[1..], pat);
      forall j: nat | 1 <= j ensures OccursAt(s, pat, j) <==> OccursAt(s[1..], pat, j - 1) {
        if j + |pat| <= |s| {
          var here, there := s[j..j + |pat|], s[1..][j - 1..j - 1 + |pat|];
          assert forall k :: 0 <= k < |pat| ==> here[k] == there[k];
          assert here == there;
        }
      }
      assert !OccursAt(s, pat, 0);
    }
  }

  /** `s.replace(pat, '')` for a string pattern: only the first occurrence goes. */
  function RemoveFirst(s: string, pat: string): (r: string)
    ensures |r| <= |s|
    ensures IndexOf(s, pat).None? ==> r == s
  {
    match IndexOf(s, pat)
    case None => s
    case Some(i) => if i + |pat| <= |s| then s[..i] + s[i + |pat|..] else s
  }

  /** `.replace(/_/g, ' ')`. */
  function Spaced(s: string): string
  {
    seq(|s|, i requires 0 <= i < |s| => if s[i] == '_' then ' ' else s[i])
  }

  /** The name shown for a wallet file whose record has no truthy `name`. */
  function DisplayName(file: string): (d: string)
    ensures |d| <= |file|
    ensures forall i :: 0 <= i < |d| ==> d[i] != '_'
    ensures IndexOf(file, ".json").None? ==> |d| == |file|
  {
    Spaced(RemoveFirst(file, ".json"))
  }

  /**
   * For a name without '.', the fallback name is the name itself with every
   * whitespace character and every '_' shown as a space.
   */
  lemma DisplayNameOfWalletFile(name: string)
    requires '.' !in name
    ensures |DisplayName(WalletFileName(name))| == |name|
    ensures forall i :: 0 <= i < |name| ==>
              DisplayName(WalletFileName(name))[i] == (if IsJsWhitespace(name[i]) || name[i] == '_' then ' ' else name[i])
  {
    var f := WalletFileName(name);
    var n := |name|;
    IndexOfSpec(f, ".json");
    assert f[n..n + 5] == ".json";
    assert OccursAt(f, ".json", n);
    var i := IndexOf(f, ".json").value;
    assert i <= n;
    assert forall j :: 0 <= j < n ==> f[j] != '.' by {
      forall j | 0 <= j < n ensures f[j] != '.' { assert name[j] in name; }
    }
    assert OccursAt(f, ".json", i) ==> f[i] == '.' by {
      if OccursAt(f, ".json", i) { assert f[i..i + 5][0] == f[i]; }
    }
    assert i == n;
    assert RemoveFirst(f, ".json") == Underscored(name);
  }

  /** A character the file name shows as '_': whitespace, or '_' itself. */
  predicate Blank(c: char)
  {
    IsJsWhitespace(c) || c == '_'
  }

  /**
   * Two names share one wallet file exactly when they have the same length
   * and agree at every position, whitespace and '_' counting as one character.
   */
  lemma FileNamesCollide(a: string, b: string)
    ensures WalletFileName(a) == WalletFileName(b) <==>
              |a| == |b| && forall i :: 0 <= i < |a| ==> a[i] == b[i] || (Blank(a[i]) && Blank(b[i]))
  {
    if WalletFileName(a) == WalletFileName(b) {
      forall i | 0 <= i < |a| ensures a[i] == b[i] || (Blank(a[i]) && Blank(b[i])) {
        assert WalletFileName(a)[i] == WalletFileName(b)[i];
      }
    }
    if |a| == |b| && forall i :: 0 <= i < |a| ==> a[i] == b[i] || (Blank(a[i]) && Blank(b[i])) {
      assert Underscored(a) == Underscored(b) by {
        forall i | 0 <= i < |a| ensures Underscored(a)[i] == Underscored(b)[i] {
        }
      }
    }
  }

  /** `String.prototype.trimStart`. */
  function TrimStart(s: string): (t: string)
    ensures |t| <= |s| && t == s[|s| - |t|..]
    ensures forall i :: 0 <= i < |s| - |t| ==> IsJsWhitespace(s[i])
    ensures t == [] || !IsJsWhitespace(t[0])
    decreases |s|
  {
    if s != [] && IsJsWhitespace(s[0]) then TrimStart(s[1..]) else s
  }

  /** `String.prototype.trimEnd`. */
  function TrimEnd(s: string): (t: string)
    ensures |t| <= |s| && t == s[..|t|]
    ensures forall i :: |t| <= i < |s| ==> IsJsWhitespace(s[i])
    ensures t == [] || !IsJsWhitespace(t[|t| - 1])
    decreases |s|
  {
    if s != [] && IsJsWhitespace(s[|s| - 1]) then TrimEnd(s[..|s| - 1]) else s
  }

  /** `String.prototype.trim`: whitespace stripped at both ends, the rest kept as it is. */
  function Trim(s: string): (t: string)
    ensures |t| <= |s|
    ensures (forall i :: 0 <= i < |s| ==> !IsJsWhitespace(s[i])) ==> t == s
    ensures t == [] || (!IsJsWhitespace(t[0]) && !IsJsWhitespace(t[|t| - 1]))
  {
    TrimEnd(TrimStart(s))
  }

  /** Trimming again changes nothing. */
  lemma TrimSpec(s: string)
    ensures Trim(Trim(s)) == Trim(s)
  {
    var u := TrimStart(s);
    var t := TrimEnd(u);
    if t != [] {
      assert t[0] == u[0];
    }
    assert TrimStart(t) == t;
    assert TrimEnd(t) == t;
  }

  /** `files.filter(file => file.endsWith('.json'))`. */
  function FilterJson(entries: seq<string>): (kept: seq<string>)
    ensures |kept| <= |entries|
    ensures forall i :: 0 <= i < |kept| ==> EndsWith(kept[i], ".json")
    decreases |entries|
  {
    if entries == [] then []
    else
      var front := FilterJson(entries[..|entries| - 1]);
      var last := entries[|entries| - 1];
      if EndsWith(last, ".json") then front + [last] else front
  }

  lemma FilterJsonSnoc(s: seq<string>, x: string)
    ensures FilterJson(s + [x]) == FilterJson(s) + (if EndsWith(x, ".json") then [x] else [])
  {
    assert (s + [x])[..|s|] == s;
  }

  /** The filter keeps exactly the `.json` entries. */
  lemma {:induction false} FilterJsonKeeps(entries: seq<string>, e: string)
    ensures e in FilterJson(entries) <==> e in entries && EndsWith(e, ".json")
    decreases |entries|
  {
    if entries != [] {
      var front := entries[..|entries| - 1];
      var last := entries[|entries| - 1];
      assert entries == front + [last];
      FilterJsonSnoc(front, last);
      FilterJsonKeeps(front, e);
    }
  }

  /** The filter keeps the directory's order: it distributes over concatenation. */
  lemma {:induction false} FilterJsonConcat(a: seq<string>, b: seq<string>)
    ensures FilterJson(a + b) == FilterJson(a) + FilterJson(b)
    decreases |b|
  {
    if b == [] {
      assert a + b == a;
    } else {
      var b' := b[..|b| - 1];
      var last := b[|b| - 1];
      var tail: seq<string> := if EndsWith(last, ".json") then [last] else [];
      FilterJsonConcat(a, b');
      assert a + b == (a + b') + [last];
      assert b == b' + [last];
      FilterJsonSnoc(a + b', last);
      FilterJsonSnoc(b', last);
      calc {
        FilterJson(a + b);
        FilterJson(a + b') + tail;
        (FilterJson(a) + FilterJson(b')) + tail;
        FilterJson(a) + (FilterJson(b') + tail);
        FilterJson(a) + FilterJson(b);
      }
    }
  }

  // ---------------------------------------------------------------------------
  // File paths
  // ---------------------------------------------------------------------------

  /** `path.join('data', walletFileName)`: for a name without '/', `data/` followed by the file name. */
  function WalletPath(name: string): (path: string)
    ensures SafeName(name) ==> path == "data/" + WalletFileName(name)
  {
    JoinFileName(name);
    PosixPath.Join("data", WalletFileName(name))
  }

  lemma JoinFileName(name: string)
    ensures SafeName(name) ==> PosixPath.Join("data", WalletFileName(name)) == "data/" + WalletFileName(name)
  {
    if SafeName(name) {
      FileNameHasNoSlash(name);
      PosixPath.JoinPlainSegment("data", WalletFileName(name));
    }
  }

  /** A name that can serve as a file name directly below `data`. */
  predicate SafeName(name: string)
  {
    '/' !in name
  }

  /** The path as written lets a name climb out of `data`. */
  lemma WalletPathEscapes()
    ensures WalletPath("../x") == "x.json"
  {
    assert WalletFileName("../x") == "../" + "x.json";
    assert PosixPath.PlainSegment("data") && PosixPath.PlainSegment("x.json");
    PosixPath.JoinClimb("data", "x.json");
  }

  lemma FileNameHasNoSlash(name: string)
    requires SafeName(name)
    ensures '/' !in WalletFileName(name)
  {
    var f := WalletFileName(name);
    forall i | 0 <= i < |f| ensures f[i] != '/' {
      if i < |name| { assert name[i] in name; } else { assert f[i] == ".json"[i - |name|]; }
    }
  }

  // ---------------------------------------------------------------------------
  // The opaque platform
  // ---------------------------------------------------------------------------

  datatype Platform = Platform(
    parse: string -> Option<Value>,       // JSON.parse; None: it throws
    stringify: Value -> string,           // JSON.stringify(value, null, 2)
    toText: Value -> string,              // String(value) for a value that is not a string
    sha256Hex: string -> string,          // createHash('sha256').update(s).digest('hex')
    addressOf: Value -> Option<string>)   // unmarshal a stored key, derive its peer id text; None: it throws

  /** Parsing what was stringified gives the value back, for values JSON represents. */
  ghost predicate Sound(p: Platform)
  {
    forall v :: Plain(v) ==> p.parse(p.stringify(v)) == Some(v)
  }

  // ---------------------------------------------------------------------------
  // Records
  // ---------------------------------------------------------------------------

  /** The `walletData` record `createWallet` writes and returns, from its already trimmed and hashed parts. */
  function WalletRecord(accountType: Value, country: string, city: string, nationalIdHash: string,
                        privateKey: string, created: string): Record
  {
    [("version", Str("1.0")), ("type", Str("Ed25519")), ("accountType", accountType),
     ("country", Str(country)), ("city", Str(city)), ("nationalIdHash", Str(nationalIdHash)),
     ("privateKey", Str(privateKey)), ("created", Str(created))]
  }

  /** The keys of the stored record; `name` is not among them. */
  const WalletKeys: set<string> :=
    {"version", "type", "accountType", "country", "city", "nationalIdHash", "privateKey", "created"}

  /** The stored record has exactly the eight keys and never a `name`, and holds the parts it was given. */
  lemma WalletRecordFacts(accountType: Value, country: string, city: string, nationalIdHash: string,
                          privateKey: string, created: string)
    ensures var w := WalletRecord(accountType, country, city, nationalIdHash, privateKey, created);
            && KeysOf(w) == WalletKeys && "name" !in KeysOf(w) && UniqueKeys(w)
            && Get(w, "version") == Str("1.0") && Get(w, "accountType") == accountType
            && Get(w, "country") == Str(country) && Get(w, "city") == Str(city)
            && Get(w, "nationalIdHash") == Str(nationalIdHash)
            && Get(w, "privateKey") == Str(privateKey) && Get(w, "created") == Str(created)
  {
    var w := WalletRecord(accountType, country, city, nationalIdHash, privateKey, created);
    WalletRecordNames(accountType, country, city, nationalIdHash, privateKey, created);
    WalletRecordShape(w);
  }

  lemma WalletRecordNames(accountType: Value, country: string, city: string, nationalIdHash: string,
                          privateKey: string, created: string)
    ensures var w := WalletRecord(accountType, country, city, nationalIdHash, privateKey, created);
            && |w| == 8 && w[0].0 == "version" && w[1].0 == "type" && w[2].0 == "accountType"
            && w[3].0 == "country" && w[4].0 == "city" && w[5].0 == "nationalIdHash"
            && w[6].0 == "privateKey" && w[7].0 == "created"
  {
  }

  /** The stored record is plain when the account type is, so it survives its JSON round trip. */
  lemma WalletRecordPlain(accountType: Value, country: string, city: string, nationalIdHash: string,
                          privateKey: string, created: string)
    requires Plain(accountType)
    ensures PlainRecord(WalletRecord(accountType, country, city, nationalIdHash, privateKey, created))
  {
    var w := WalletRecord(accountType, country, city, nationalIdHash, privateKey, created);
    WalletRecordNames(accountType, country, city, nationalIdHash, privateKey, created);
    WalletRecordKeys(w);
    forall i | 0 <= i < |w| ensures !LooksLikeIndex(w[i].0) && Plain(w[i].1) {
    }
  }

  lemma WalletRecordShape(w: Record)
    requires |w| == 8
    requires w[0].0 == "version" && w[1].0 == "type" && w[2].0 == "accountType" && w[3].0 == "country"
    requires w[4].0 == "city" && w[5].0 == "nationalIdHash" && w[6].0 == "privateKey" && w[7].0 == "created"
    ensures KeysOf(w) == WalletKeys && UniqueKeys(w)
    ensures Get(w, "version") == w[0].1 && Get(w, "accountType") == w[2].1
    ensures Get(w, "country") == w[3].1 && Get(w, "city") == w[4].1 && Get(w, "nationalIdHash") == w[5].1
    ensures Get(w, "privateKey") == w[6].1 && Get(w, "created") == w[7].1
  {
    WalletRecordKeys(w);
    GetAt(w, 0); GetAt(w, 2); GetAt(w, 3); GetAt(w, 4); GetAt(w, 5); GetAt(w, 6); GetAt(w, 7);
  }

  /** The key layout of a record shaped like `WalletRecord`. */
  lemma WalletRecordKeys(w: Record)
    requires |w| == 8
    requires w[0].0 == "version" && w[1].0 == "type" && w[2].0 == "accountType" && w[3].0 == "country"
    requires w[4].0 == "city" && w[5].0 == "nationalIdHash" && w[6].0 == "privateKey" && w[7].0 == "created"
    ensures KeysOf(w) == WalletKeys && UniqueKeys(w)
    ensures forall i :: 0 <= i < |w| ==> !LooksLikeIndex(w[i].0)
  {
    assert KeysOf(w) == WalletKeys by {
      assert forall i :: 0 <= i < |w| ==> w[i].0 in WalletKeys;
      assert forall k :: k in WalletKeys ==> exists i :: 0 <= i < |w| && w[i].0 == k;
    }
    assert UniqueKeys(w) by {
      forall i, j | 0 <= i < j < |w| ensures w[i].0 != w[j].0 {
        assert w[i].0[0] != w[j].0[0] || w[i].0[1] != w[j].0[1];
      }
    }
    forall i | 0 <= i < |w| ensures !LooksLikeIndex(w[i].0) {
      assert !IsDigit(w[i].0[0]);
    }
  }

  /**
   * `createWallet`'s record for the request fields: it throws, and nothing is
   * written, when national id, country or city is not a string.  The
   * country and city are stored trimmed, the national id only as the SHA-256
   * of its trimmed text.
   */
  function NewWalletData(p: Platform, country: Value, city: Value, nationalId: Value, accountType: Value,
                         privateKey: string, created: string): (w: Option<Record>)
    ensures w.Some? <==> country.Str? && city.Str? && nationalId.Str?
    ensures w.Some? ==> w.value == WalletRecord(accountType, Trim(country.s), Trim(city.s),
                                                p.sha256Hex(Trim(nationalId.s)), privateKey, created)
  {
    if country.Str? && city.Str? && nationalId.Str? then
      var nationalIdHash := p.sha256Hex(Trim(nationalId.s));
      Some(WalletRecord(accountType, Trim(country.s), Trim(city.s), nationalIdHash, privateKey, created))
    else None
  }

  /** `[0, 0, 0, 0, 0, 0, 0, 0, 0]`: one zero per vector. */
  const ZeroVectors: seq<Value> := [Num(0), Num(0), Num(0), Num(0), Num(0), Num(0), Num(0), Num(0), Num(0)]

  /** `{ main: 0, vectors: [0, 0, 0, 0, 0, 0, 0, 0, 0] }`. */
  const ZeroBalance: Value := Obj([("main", Num(0)), ("vectors", Arr(ZeroVectors))])

  lemma ZeroVectorsShape()
    ensures |ZeroVectors| == 9 && forall i :: 0 <= i < 9 ==> ZeroVectors[i] == Num(0)
    ensures Plain(Arr(ZeroVectors))
  {
  }

  /** The balance shown is plain, with a zero main balance and nine zero vector balances. */
  lemma ZeroBalanceShape()
    ensures Plain(ZeroBalance) && Get(ZeroBalance.fields, "main") == Num(0)
    ensures var v := Get(ZeroBalance.fields, "vectors");
            v.Arr? && |v.items| == 9 && forall i :: 0 <= i < 9 ==> v.items[i] == Num(0)
  {
    ZeroVectorsShape();
    var r := ZeroBalance.fields;
    assert !LooksLikeIndex("main") by { assert !IsDigit('m'); }
    assert !LooksLikeIndex("vectors") by { assert !IsDigit('v'); }
    assert r[0].0 != r[1].0 by { assert "main"[0] != "vectors"[0]; }
    assert Get(r, "vectors") == Arr(ZeroVectors) by { assert r[1..][0].0 == "vectors"; }
  }

  // ---------------------------------------------------------------------------
  // Responses
  // ---------------------------------------------------------------------------

  datatype Response = Response(status: int, body: Value)

  function Message(text: string): Value
  {
    Obj([("message", Str(text))])
  }

  const MissingFields := Response(400, Message("Missing required fields"))
  const InvalidName := Response(400, Message("Invalid wallet name"))
  const CreateFailed := Response(500, Message("Failed to create wallet"))
  const ListFailed := Response(500, Message("Failed to read wallets directory"))
  const InvalidWalletFile := Response(400, Message("Invalid wallet file"))
  const ImportFailed := Response(500, Message("Failed to import wallet"))
  const Imported := Response(200, Message("Wallet imported successfully"))

  /** `req.body.k` on a body that is neither null nor undefined. */
  function Field(body: Value, k: string): Value
    requires body != Null && body != Undefined
  {
    Prop(body, k).value
  }

  /** A response, and the file written before it was sent, if any. */
  datatype Outcome = Outcome(response: Response, write: Option<(string, string)>)

  // ---------------------------------------------------------------------------
  // Creation, up to the write of the wallet file
  // ---------------------------------------------------------------------------

  /** How far a creation request gets: refused, or a wallet record written to a path. */
  datatype Prepared =
    | Refused(response: Response)
    | Accepted(name: string, path: string, wallet: Record)

  predicate HasCreateFields(body: Value)
    requires body != Null && body != Undefined
  {
    Truthy(Field(body, "name")) && Truthy(Field(body, "country")) && Truthy(Field(body, "city")) &&
    Truthy(Field(body, "idNumber")) && Truthy(Field(body, "type"))
  }

  /**
   * `POST /wallets` up to `createWallet`'s write, as written: destructuring
   * a missing body throws, a falsy field answers 400, a name that is not a
   * string throws in `replace`, and `createWallet` throws on fields that are
   * not strings.  `privateKey` is the generated key and `created` the clock.
   */
  function PrepareCreateAsWritten(p: Platform, body: Value, privateKey: string, created: string): (r: Prepared)
    ensures r.Accepted? ==>
              body != Null && body != Undefined && Field(body, "name") == Str(r.name) && r.path == WalletPath(r.name)
    ensures r.Refused? ==> r.response == CreateFailed || r.response == MissingFields
  {
    if body == Null || body == Undefined then Refused(CreateFailed)
    else if !HasCreateFields(body) then Refused(MissingFields)
    else
      var name := Field(body, "name");
      if !name.Str? then Refused(CreateFailed)
      else
        match NewWalletData(p, Field(body, "country"), Field(body, "city"), Field(body, "idNumber"),
                            Field(body, "type"), privateKey, created)
        case None => Refused(CreateFailed)
        case Some(w) => Accepted(name.s, WalletPath(name.s), w)
  }

  /**
   * The corrected `POST /wallets`: as written, except that a request whose
   * name holds '/' is answered 400 before anything is written.
   */
  function PrepareCreate(p: Platform, body: Value, privateKey: string, created: string): (r: Prepared)
    ensures r.Accepted? ==> SafeName(r.name) && r == PrepareCreateAsWritten(p, body, privateKey, created)
    ensures r.Refused? ==> r.response.status in {400, 500}
    ensures r != PrepareCreateAsWritten(p, body, privateKey, created) ==>
              && r == Refused(InvalidName)
              && PrepareCreateAsWritten(p, body, privateKey, created).Accepted?
              && !SafeName(PrepareCreateAsWritten(p, body, privateKey, created).name)
  {
    var a := PrepareCreateAsWritten(p, body, privateKey, created);
    if a.Accepted? && !SafeName(a.name) then Refused(InvalidName) else a
  }

  /** The contents `createWallet` writes. */
  function WalletText(p: Platform, w: Record): string
  {
    p.stringify(Obj(w))
  }

  /** A falsy or missing field answers 400 and nothing is written; with every field present it is never that 400. */
  lemma CreateRequiresFields(p: Platform, body: Value, privateKey: string, created: string)
    requires body != Null && body != Undefined
    ensures PrepareCreate(p, body, privateKey, created) == Refused(MissingFields) <==> !HasCreateFields(body)
  {
  }

  /**
   * An accepted request writes `data/` + its file name; the record has the
   * request's account type, trimmed country and city and no `name`.
   */
  lemma AcceptedCreate(p: Platform, body: Value, privateKey: string, created: string)
    requires PrepareCreate(p, body, privateKey, created).Accepted?
    ensures var a := PrepareCreate(p, body, privateKey, created);
            && body != Null && body != Undefined && HasCreateFields(body)
            && Field(body, "name") == Str(a.name)
            && a.path == "data/" + WalletFileName(a.name)
            && KeysOf(a.wallet) == WalletKeys && UniqueKeys(a.wallet) && "name" !in KeysOf(a.wallet)
            && Get(a.wallet, "accountType") == Field(body, "type")
            && Get(a.wallet, "country") == Str(Trim(Field(body, "country").s))
            && Get(a.wallet, "city") == Str(Trim(Field(body, "city").s))
            && Get(a.wallet, "privateKey") == Str(privateKey)
            && Get(a.wallet, "created") == Str(created)
  {
    WalletRecordFacts(Field(body, "type"), Trim(Field(body, "country").s), Trim(Field(body, "city").s),
                      p.sha256Hex(Trim(Field(body, "idNumber").s)), privateKey, created);
  }

  /**
   * A request with every field truthy, a name without '/' and string
   * country, city and national id is accepted, and writes the record built
   * from them to `data/` followed by its file name.
   */
  lemma CreateAccepted(p: Platform, body: Value, privateKey: string, created: string)
    requires body != Null && body != Undefined && HasCreateFields(body)
    requires Field(body, "name").Str? && SafeName(Field(body, "name").s)
    requires Field(body, "country").Str? && Field(body, "city").Str? && Field(body, "idNumber").Str?
    ensures PrepareCreate(p, body, privateKey, created) ==
              Accepted(Field(body, "name").s, "data/" + WalletFileName(Field(body, "name").s),
                       WalletRecord(Field(body, "type"), Trim(Field(body, "country").s), Trim(Field(body, "city").s),
                                    p.sha256Hex(Trim(Field(body, "idNumber").s)), privateKey, created))
  {
  }

  /** A creation request named '../x', with every other field a plain string. */
  const EscapingCreate: Value :=
    Obj([("name", Str("../x")), ("country", Str("FR")), ("city", Str("Lyon")),
         ("idNumber", Str("42")), ("type", Str("standard"))])

  /** '../x' sends the wallet file to `x.json`, which is not inside `data`. */
  lemma EscapedPath()
    ensures WalletPath("../x") == "x.json" && !InData("x.json")
  {
    WalletPathEscapes();
    assert "x.json"[..5] != "data/" by { assert "x.json"[0] != "data/"[0]; }
  }

  /**
   * As written, the creation request named '../x' is accepted and its wallet
   * file goes to `x.json`, outside `data`; the corrected handler answers 400.
   */
  lemma CreateAsWrittenEscapes(p: Platform, privateKey: string, created: string)
    ensures var a := PrepareCreateAsWritten(p, EscapingCreate, privateKey, created);
            a.Accepted? && a.name == "../x" && a.path == "x.json" && !InData(a.path)
    ensures PrepareCreate(p, EscapingCreate, privateKey, created) == Refused(InvalidName)
  {
    var body := EscapingCreate;
    EscapingCreateFields();
    assert HasCreateFields(body);
    var w := NewWalletData(p, Str("FR"), Str("Lyon"), Str("42"), Str("standard"), privateKey, created);
    assert w.Some?;
    assert PrepareCreateAsWritten(p, body, privateKey, created) == Accepted("../x", WalletPath("../x"), w.value);
    EscapedPath();
    assert !SafeName("../x") by { assert "../x"[2] == '/'; }
  }

  /** The fields of `EscapingCreate`: all five truthy strings. */
  lemma EscapingCreateFields()
    ensures var body := EscapingCreate;
            && Field(body, "name") == Str("../x") && Field(body, "country") == Str("FR")
            && Field(body, "city") == Str("Lyon") && Field(body, "idNumber") == Str("42")
            && Field(body, "type") == Str("standard")
  {
    var r := EscapingCreate.fields;
    assert Get(r, "country") == Str("FR") by { assert r[0].0 != "country"; }
    assert Get(r, "city") == Str("Lyon") by { assert r[0].0 != "city" && r[1].0 != "city"; }
    assert Get(r, "idNumber") == Str("42") by {
      assert r[0].0 != "idNumber" && r[1].0 != "idNumber" && r[2].0 != "idNumber";
    }
    assert Get(r, "type") == Str("standard") by {
      assert r[0].0 != "type" && r[1].0 != "type" && r[2].0 != "type" && r[3].0 != "type";
    }
  }


  // ---------------------------------------------------------------------------
  // Listing
  // ---------------------------------------------------------------------------

  /** `walletData.name || file.replace('.json', '').replace(/_/g, ' ')`. */
  function ShownName(fields: Record, file: string): Value
  {
    if Truthy(Get(fields, "name")) then Get(fields, "name") else Str(DisplayName(file))
  }

  /** The record a listed wallet is shown as. */
  function ShownWallet(fields: Record, file: string, address: string): Record
  {
    Decorated(fields, ShownName(fields, file), address)
  }

  /** `{...fields, id: fields.created, name, address, balance}`. */
  function Decorated(fields: Record, name: Value, address: string): Record
  {
    Put(Put(Put(Put(fields, "id", Get(fields, "created")), "name", name), "address", Str(address)),
        "balance", ZeroBalance)
  }

  lemma DecoratedGet(fields: Record, name: Value, address: string, k: string)
    ensures Get(Decorated(fields, name, address), k) ==
      (if k == "balance" then ZeroBalance else if k == "address" then Str(address)
       else if k == "name" then name else if k == "id" then Get(fields, "created") else Get(fields, k))
  {
    var r1 := Put(fields, "id", Get(fields, "created"));
    var r2 := Put(r1, "name", name);
    var r3 := Put(r2, "address", Str(address));
    GetPut(fields, "id", Get(fields, "created"), k);
    GetPut(r1, "name", name, k);
    GetPut(r2, "address", Str(address), k);
    GetPut(r3, "balance", ZeroBalance, k);
  }

  lemma DecoratedKeys(fields: Record, name: Value, address: string)
    ensures KeysOf(Decorated(fields, name, address)) == KeysOf(fields) + {"id", "name", "address", "balance"}
  {
    var r1 := Put(fields, "id", Get(fields, "created"));
    var r2 := Put(r1, "name", name);
    var r3 := Put(r2, "address", Str(address));
    KeysOfPut(fields, "id", Get(fields, "created"));
    KeysOfPut(r1, "name", name);
    KeysOfPut(r2, "address", Str(address));
    KeysOfPut(r3, "balance", ZeroBalance);
  }

  /**
   * The four added fields override the record's own; every other field is
   * shown as stored.
   */
  lemma ShownWalletFields(fields: Record, file: string, address: string, k: string)
    ensures var r := ShownWallet(fields, file, address);
            && Get(r, "id") == Get(fields, "created")
            && Get(r, "name") == (if Truthy(Get(fields, "name")) then Get(fields, "name") else Str(DisplayName(file)))
            && Get(r, "address") == Str(address)
            && Get(r, "balance") == ZeroBalance
            && (k !in {"id", "name", "address", "balance"} ==> Get(r, k) == Get(fields, k))
            && KeysOf(r) == KeysOf(fields) + {"id", "name", "address", "balance"}
  {
    var name := ShownName(fields, file);
    DecoratedGet(fields, name, address, "id");
    DecoratedGet(fields, name, address, "name");
    DecoratedGet(fields, name, address, "address");
    DecoratedGet(fields, name, address, "balance");
    DecoratedGet(fields, name, address, k);
    DecoratedKeys(fields, name, address);
  }

  /**
   * One `.json` entry of `GET /wallets` in backend/index.js: read, parse, read
   * `privateKey`, derive the address.  None when any step throws, which
   * fails the whole listing.
   */
  function ListItem(p: Platform, files: map<string, string>, file: string): (item: Option<Record>)
    ensures PosixPath.Join("data", file) !in files ==> item.None?
    ensures item.Some? ==> Get(item.value, "address").Str? && Get(item.value, "balance") == ZeroBalance
  {
    var path := PosixPath.Join("data", file);
    if path !in files then None
    else
      match p.parse(files[path])
      case None => None
      case Some(w) =>
        // `.privateKey` of null throws; of any other non-object it is undefined, which Buffer.from refuses
        if !w.Obj? then None
        else
          var key := Get(w.fields, "privateKey");
          if key == Undefined || key == Null then None
          else
            match p.addressOf(key)
            case None => None
            case Some(address) =>
              ShownWalletFields(w.fields, file, address, "balance");
              Some(ShownWallet(w.fields, file, address))
  }

  /** `Promise.all(names.map(item))`: every result in order, or None when one of them fails. */
  function Collect(item: string -> Option<Record>, names: seq<string>): Option<seq<Value>>
    decreases |names|
  {
    if names == [] then Some([])
    else
      match Collect(item, names[..|names| - 1])
      case None => None
      case Some(items) =>
        match item(names[|names| - 1])
        case None => None
        case Some(r) => Some(items + [Obj(r)])
  }

  /** One result per name, in order, or failure as a whole. */
  lemma {:induction false} CollectSpec(item: string -> Option<Record>, names: seq<string>)
    ensures Collect(item, names).Some? <==> forall i :: 0 <= i < |names| ==> item(names[i]).Some?
    ensures Collect(item, names).Some? ==>
              |Collect(item, names).value| == |names| &&
              forall i :: 0 <= i < |names| ==> Collect(item, names).value[i] == Obj(item(names[i]).value)
    decreases |names|
  {
    if names != [] {
      var n := |names| - 1;
      var front := names[..n];
      CollectSpec(item, front);
      assert forall i :: 0 <= i < n ==> front[i] == names[i];
      if Collect(item, front).None? {
        var i :| 0 <= i < n && item(front[i]).None?;
        assert item(names[i]).None?;
      }
    }
  }

  /** Collecting one more name extends the collected results, or fails. */
  lemma CollectSnoc(item: string -> Option<Record>, names: seq<string>, x: string)
    ensures Collect(item, names + [x]) ==
      match Collect(item, names)
      case None => None
      case Some(items) => (match item(x) case None => None case Some(r) => Some(items + [Obj(r)]))
  {
    assert (names + [x])[..|names|] == names;
  }

  /** The wallets shown for the listed files. */
  function ListItems(p: Platform, files: map<string, string>, names: seq<string>): (items: Option<seq<Value>>)
    ensures items.Some? ==> |items.value| == |names|
  {
    CollectSpec(file => ListItem(p, files, file), names);
    Collect(file => ListItem(p, files, file), names)
  }

  /** The listing holds one shown wallet per file, in order, or fails as a whole. */
  lemma ListItemsSpec(p: Platform, files: map<string, string>, names: seq<string>)
    ensures ListItems(p, files, names).Some? <==> forall i :: 0 <= i < |names| ==> ListItem(p, files, names[i]).Some?
    ensures ListItems(p, files, names).Some? ==>
              |ListItems(p, files, names).value| == |names| &&
              forall i :: 0 <= i < |names| ==> ListItems(p, files, names).value[i] == Obj(ListItem(p, files, names[i]).value)
  {
    CollectSpec(file => ListItem(p, files, file), names);
  }

  lemma ListItemsSnoc(p: Platform, files: map<string, string>, names: seq<string>, x: string)
    ensures ListItems(p, files, names + [x]) ==
      match ListItems(p, files, names)
      case None => None
      case Some(items) => (match ListItem(p, files, x) case None => None case Some(r) => Some(items + [Obj(r)]))
  {
    CollectSnoc(file => ListItem(p, files, file), names, x);
  }

  /** The listing of one more prefix entry: the shorter listing extended by that entry's item, or failure. */
  lemma ListItemsPrefix(p: Platform, files: map<string, string>, names: seq<string>, i: nat)
    requires i < |names|
    ensures ListItems(p, files, names[..i + 1]) ==
      match ListItems(p, files, names[..i])
      case None => None
      case Some(items) => (match ListItem(p, files, names[i]) case None => None case Some(r) => Some(items + [Obj(r)]))
  {
    assert names[..i + 1] == names[..i] + [names[i]];
    ListItemsSnoc(p, files, names[..i], names[i]);
  }

  /** One file that cannot be listed fails the whole listing. */
  lemma ListItemsFailAt(p: Platform, files: map<string, string>, names: seq<string>, i: nat)
    requires i < |names| && ListItem(p, files, names[i]).None?
    ensures ListItems(p, files, names).None?
  {
    CollectSpec(file => ListItem(p, files, file), names);
  }

  /** A stored plain wallet with a usable key is listed as its shown record. */
  lemma ListItemOfStored(p: Platform, files: map<string, string>, file: string, w: Record, address: string)
    requires Sound(p) && PlainRecord(w)
    requires PosixPath.Join("data", file) in files && files[PosixPath.Join("data", file)] == WalletText(p, w)
    requires Get(w, "privateKey") != Undefined && Get(w, "privateKey") != Null
    requires p.addressOf(Get(w, "privateKey")) == Some(address)
    ensures ListItem(p, files, file) == Some(ShownWallet(w, file, address))
  {
    assert p.parse(p.stringify(Obj(w))) == Some(Obj(w));
  }

  /**
   * A wallet written by an accepted creation is listed under its file name
   * with the fallback display name, since the stored record has no `name`.
   */
  lemma CreatedWalletListed(p: Platform, files: map<string, string>, body: Value, privateKey: string,
                            created: string, address: string)
    requires Sound(p) && Plain(body)
    requires PrepareCreate(p, body, privateKey, created).Accepted?
    requires var a := PrepareCreate(p, body, privateKey, created);
             a.path in files && files[a.path] == WalletText(p, a.wallet)
    requires p.addressOf(Str(privateKey)) == Some(address)
    ensures var a := PrepareCreate(p, body, privateKey, created);
            var item := ListItem(p, files, WalletFileName(a.name));
            && item.Some?
            && Get(item.value, "name") == Str(DisplayName(WalletFileName(a.name)))
            && Get(item.value, "address") == Str(address)
            && Get(item.value, "id") == Str(created)
  {
    var a := PrepareCreate(p, body, privateKey, created);
    AcceptedCreate(p, body, privateKey, created);
    var accountType := Field(body, "type");
    assert Plain(accountType) by {
      PlainField(body, "type");
    }
    var w := a.wallet;
    var country, city, hash := Trim(Field(body, "country").s), Trim(Field(body, "city").s),
                               p.sha256Hex(Trim(Field(body, "idNumber").s));
    assert w == WalletRecord(accountType, country, city, hash, privateKey, created);
    WalletRecordPlain(accountType, country, city, hash, privateKey, created);
    var file := WalletFileName(a.name);
    assert a.path == WalletPath(a.name);
    ListItemOfStored(p, files, file, w, address);
    GetAbsent(w, "name");
    ShownWalletFields(w, file, address, "name");
  }

  /** A field read from a plain value is plain or undefined. */
  lemma PlainField(v: Value, k: string)
    requires Plain(v) && v != Null
    requires Prop(v, k).value != Undefined
    ensures Plain(Prop(v, k).value)
  {
    if v.Obj? {
      PlainGet(v.fields, k);
    }
  }

  lemma {:induction false} PlainGet(r: Record, k: string)
    requires PlainRecord(r) && Get(r, k) != Undefined
    ensures Plain(Get(r, k))
  {
    if r[0].0 != k {
      assert PlainRecord(r[1..]);
      PlainGet(r[1..], k);
    }
  }

  // ---------------------------------------------------------------------------
  // Import
  // ---------------------------------------------------------------------------

  /**
   * `String(v)`, which `JSON.parse` applies to its argument: a string is
   * itself, an array is its items joined by ',' (null and undefined items
   * becoming empty), and any other value is the platform's conversion.
   */
  function JsString(p: Platform, v: Value): (t: string)
    ensures v.Str? ==> t == v.s
    ensures v.Arr? ==> t == JoinItems(p, v.items)
  {
    match v
    case Str(s) => s
    case Arr(items) => JoinItems(p, items)
    case _ => p.toText(v)
  }

  /** `items.join(',')`; an item that is not a string, null or undefined goes through `toText`. */
  function JoinItems(p: Platform, items: seq<Value>): (t: string)
    ensures |items| == 1 && items[0].Str? ==> t == items[0].s
    ensures |items| == 2 && items[0].Str? && items[1].Str? ==> t == items[0].s + "," + items[1].s
  {
    if |items| == 0 then ""
    else
      var first := match items[0]
        case Str(s) => s
        case Null => ""
        case Undefined => ""
        case _ => p.toText(items[0]);
      if |items| == 1 then first else first + "," + JoinItems(p, items[1..])
  }

  /**
   * What `fs.writeFile` of `fs/promises` stores for `data`: a string as
   * itself, and an array (an iterable) as its string items one after the
   * other, with no separator. None: every other value, and an array holding
   * an item that is not a string.
   */
  function StoredText(v: Value): (t: Option<string>)
    ensures v.Str? ==> t == Some(v.s)
    ensures t.Some? ==> v.Str? || v.Arr?
    ensures v.Arr? ==> (t.Some? <==> forall i :: 0 <= i < |v.items| ==> v.items[i].Str?)
  {
    match v
    case Str(s) => Some(s)
    case Arr(items) => ConcatItems(items)
    case _ => None
  }

  /** The string items one after the other, or None when one is not a string. */
  function ConcatItems(items: seq<Value>): (t: Option<string>)
    ensures t.Some? <==> forall i :: 0 <= i < |items| ==> items[i].Str?
    ensures |items| == 1 && items[0].Str? ==> t == Some(items[0].s)
    ensures |items| == 2 && items[0].Str? && items[1].Str? ==> t == Some(items[0].s + items[1].s)
  {
    if |items| == 0 then Some("")
    else if !items[0].Str? then None
    else match ConcatItems(items[1..])
      case None => None
      case Some(rest) =>
        assert |items| == 1 ==> items[1..] == [] && rest == "" && items[0].s + rest == items[0].s;
        Some(items[0].s + rest)
  }

  /**
   * `POST /wallets/import` as written, identical in both servers: 400 when
   * walletData or name is falsy; `String(walletData)` is parsed; a parse
   * failure or a parsed null throws; 400 when the parsed wallet lacks a
   * truthy version or privateKey; then walletData itself is handed to
   * `writeFile` at the name's wallet path, which stores a string verbatim
   * and an array of strings as its items concatenated, and throws on any
   * other value.
   */
  function ImportWalletAsWritten(p: Platform, body: Value): (o: Outcome)
    ensures o.write.Some? <==> o.response == Imported
    ensures o.write.Some? ==>
              && body != Null && body != Undefined
              && Field(body, "name").Str? && StoredText(Field(body, "walletData")).Some?
              && o.write.value == (WalletPath(Field(body, "name").s), StoredText(Field(body, "walletData")).value)
              && var checked := p.parse(JsString(p, Field(body, "walletData")));
                 && checked.Some? && checked.value != Null && checked.value != Undefined
                 && Truthy(Prop(checked.value, "version").value)
                 && Truthy(Prop(checked.value, "privateKey").value)
    ensures o.response in {Imported, MissingFields, InvalidWalletFile, ImportFailed}
  {
    if body == Null || body == Undefined then Outcome(ImportFailed, None)
    else
      var walletData := Field(body, "walletData");
      var name := Field(body, "name");
      if !Truthy(walletData) || !Truthy(name) then Outcome(MissingFields, None)
      else
        match p.parse(JsString(p, walletData))
        case None => Outcome(ImportFailed, None)
        case Some(parsed) =>
          if parsed == Null || parsed == Undefined then Outcome(ImportFailed, None)
          else if !Truthy(Prop(parsed, "version").value) || !Truthy(Prop(parsed, "privateKey").value) then
            Outcome(InvalidWalletFile, None)
          else if !name.Str? then Outcome(ImportFailed, None)
          else match StoredText(walletData)
            case None => Outcome(ImportFailed, None)
            case Some(stored) => Outcome(Imported, Some((WalletPath(name.s), stored)))
  }

  /**
   * The corrected import: as written, except that a write whose name holds
   * '/' is answered 400 instead.
   */
  function ImportWallet(p: Platform, body: Value): (o: Outcome)
    ensures o.write.Some? ==>
              o == ImportWalletAsWritten(p, body) && body != Null && body != Undefined &&
              SafeName(Field(body, "name").s)
    ensures o != ImportWalletAsWritten(p, body) ==>
              o == Outcome(InvalidName, None) && ImportWalletAsWritten(p, body).write.Some?
  {
    var o := ImportWalletAsWritten(p, body);
    if o.write.Some? && !SafeName(Field(body, "name").s) then Outcome(InvalidName, None) else o
  }

  /**
   * Import succeeds exactly when it writes, and then it writes what
   * `writeFile` stores for walletData below `data` (a string verbatim), and
   * `String(walletData)` parses to a wallet with a truthy version and
   * privateKey.
   */
  lemma ImportWritesVerbatim(p: Platform, body: Value)
    ensures ImportWallet(p, body).response.status == 200 <==> ImportWallet(p, body).write.Some?
    ensures ImportWallet(p, body).write.Some? ==>
              && body != Null && body != Undefined
              && StoredText(Field(body, "walletData")).Some? && Field(body, "name").Str?
              && var (path, text) := ImportWallet(p, body).write.value;
                 && text == StoredText(Field(body, "walletData")).value
                 && (Field(body, "walletData").Str? ==> text == Field(body, "walletData").s)
                 && path == "data/" + WalletFileName(Field(body, "name").s)
                 && var checked := p.parse(JsString(p, Field(body, "walletData")));
                    && checked.Some? && checked.value != Null && checked.value != Undefined
                    && Truthy(Prop(checked.value, "version").value)
                    && Truthy(Prop(checked.value, "privateKey").value)
  {
  }

  /**
   * The converse: a non-empty walletData text that parses to a wallet with a
   * truthy version and privateKey, imported under a non-empty name without
   * '/', is answered 200 and written verbatim to `data/` followed by the
   * name's file name.
   */
  lemma ImportAccepted(p: Platform, body: Value, parsed: Value)
    requires body != Null && body != Undefined
    requires Field(body, "walletData").Str? && Field(body, "walletData").s != ""
    requires Field(body, "name").Str? && Field(body, "name").s != "" && SafeName(Field(body, "name").s)
    requires p.parse(Field(body, "walletData").s) == Some(parsed) && parsed != Null && parsed != Undefined
    requires Truthy(Prop(parsed, "version").value) && Truthy(Prop(parsed, "privateKey").value)
    ensures ImportWallet(p, body) ==
              Outcome(Imported, Some(("data/" + WalletFileName(Field(body, "name").s), Field(body, "walletData").s)))
  {
  }

  /**
   * An array of strings as walletData: `String` of the array is what is
   * checked, and when it parses to a wallet the items are written one after
   * the other, with a 200.
   */
  lemma ArrayImportAccepted(p: Platform, body: Value, parsed: Value)
    requires body != Null && body != Undefined
    requires Field(body, "walletData").Arr?
    requires forall i :: 0 <= i < |Field(body, "walletData").items| ==> Field(body, "walletData").items[i].Str?
    requires Field(body, "name").Str? && Field(body, "name").s != "" && SafeName(Field(body, "name").s)
    requires p.parse(JoinItems(p, Field(body, "walletData").items)) == Some(parsed)
    requires parsed != Null && parsed != Undefined
    requires Truthy(Prop(parsed, "version").value) && Truthy(Prop(parsed, "privateKey").value)
    ensures ImportWallet(p, body) ==
              Outcome(Imported, Some(("data/" + WalletFileName(Field(body, "name").s),
                                      ConcatItems(Field(body, "walletData").items).value)))
  {
  }

  /** An import request for the walletData `data` under the name `w`. */
  function ImportOf(data: Value): Value
  {
    Obj([("walletData", data), ("name", Str("w"))])
  }

  lemma ImportOfFields(data: Value)
    ensures Field(ImportOf(data), "walletData") == data && Field(ImportOf(data), "name") == Str("w")
  {
    var r: Record := [("walletData", data), ("name", Str("w"))];
    assert ImportOf(data).fields == r;
    assert UniqueKeys(r) by { assert "walletData"[0] != "name"[0]; }
    GetAt(r, 1);
  }

  /**
   * With walletData the two strings `a` and `b`, the text checked is
   * `a,b` but the text stored is `ab`: the wallet file can hold a text that
   * was never validated.
   */
  lemma ArrayImportStoresUncheckedText(p: Platform, a: string, b: string, parsed: Value)
    requires p.parse(a + "," + b) == Some(parsed) && parsed.Obj?
    requires Truthy(Get(parsed.fields, "version")) && Truthy(Get(parsed.fields, "privateKey"))
    ensures ImportWallet(p, ImportOf(Arr([Str(a), Str(b)]))) ==
              Outcome(Imported, Some(("data/w.json", a + b)))
    ensures JsString(p, Arr([Str(a), Str(b)])) == a + "," + b != a + b
  {
    var data := Arr([Str(a), Str(b)]);
    ImportOfFields(data);
    assert JsString(p, data) == a + "," + b;
    assert StoredText(data) == Some(a + b);
    assert Prop(parsed, "version").value == Get(parsed.fields, "version");
    assert Prop(parsed, "privateKey").value == Get(parsed.fields, "privateKey");
    assert WalletFileName("w") == "w.json";
    JoinFileName("w");
    assert SafeName("w");
    assert ImportWalletAsWritten(p, ImportOf(data)) == Outcome(Imported, Some((WalletPath("w"), a + b)));
    assert WalletPath("w") == "data/w.json";
    assert ImportWallet(p, ImportOf(data)) == ImportWalletAsWritten(p, ImportOf(data));
    assert |a + "," + b| != |a + b|;
  }

  /** An import request naming '../x' for the text `text`. */
  function EscapingImport(text: string): Value
  {
    Obj([("walletData", Str(text)), ("name", Str("../x"))])
  }

  /**
   * As written, importing a valid wallet text under the name '../x' writes
   * it verbatim to `x.json`, outside `data`; the corrected handler answers 400.
   */
  lemma ImportAsWrittenEscapes(p: Platform, text: string, parsed: Value)
    requires text != "" && p.parse(text) == Some(parsed) && parsed.Obj?
    requires Truthy(Get(parsed.fields, "version")) && Truthy(Get(parsed.fields, "privateKey"))
    ensures ImportWalletAsWritten(p, EscapingImport(text)).write == Some(("x.json", text)) && !InData("x.json")
    ensures ImportWallet(p, EscapingImport(text)) == Outcome(InvalidName, None)
  {
    var body := EscapingImport(text);
    assert Field(body, "walletData") == Str(text);
    assert Field(body, "name") == Str("../x") by {
      var r: Record := [("walletData", Str(text)), ("name", Str("../x"))];
      assert body.fields == r;
      assert UniqueKeys(r) by { assert "walletData"[0] != "name"[0]; }
      GetAt(r, 1);
    }
    assert Prop(parsed, "version").value == Get(parsed.fields, "version");
    assert Prop(parsed, "privateKey").value == Get(parsed.fields, "privateKey");
    assert ImportWalletAsWritten(p, body) == Outcome(Imported, Some((WalletPath("../x"), text)));
    EscapedPath();
    assert !SafeName("../x") by { assert "../x"[2] == '/'; }
  }

  /**
   * Two imports under names that share a wallet file: the second's text
   * replaces the first's, and no other file changes.
   */
  lemma SecondImportOverwrites(p: Platform, files: map<string, string>, body1: Value, body2: Value)
    requires ImportWallet(p, body1).write.Some? && ImportWallet(p, body2).write.Some?
    requires var a, b := Field(body1, "name").s, Field(body2, "name").s;
             |a| == |b| && forall i :: 0 <= i < |a| ==> a[i] == b[i] || (Blank(a[i]) && Blank(b[i]))
    ensures var first, second := ImportWallet(p, body1).write, ImportWallet(p, body2).write;
            var path := first.value.0;
            var after := Written(Written(files, first), second);
            && second.value.0 == path
            && after[path] == StoredText(Field(body2, "walletData")).value
            && (Field(body2, "walletData").Str? ==> after[path] == Field(body2, "walletData").s)
            && after.Keys == files.Keys + {path}
            && forall q :: q in files && q != path ==> after[q] == files[q]
  {
    FileNamesCollide(Field(body1, "name").s, Field(body2, "name").s);
  }

  /** A falsy walletData or name answers 400 without parsing anything. */
  lemma ImportRequiresFields(p: Platform, body: Value)
    requires body != Null && body != Undefined
    requires !Truthy(Field(body, "walletData")) || !Truthy(Field(body, "name"))
    ensures ImportWallet(p, body) == Outcome(MissingFields, None)
  {
  }

  /** A parsed wallet without a truthy version or privateKey answers 400 and writes nothing. */
  lemma ImportRejectsIncompleteWallet(p: Platform, body: Value, parsed: Value)
    requires body != Null && body != Undefined
    requires Truthy(Field(body, "walletData")) && Truthy(Field(body, "name"))
    requires p.parse(JsString(p, Field(body, "walletData"))) == Some(parsed)
    requires parsed != Null && parsed != Undefined
    requires !Truthy(Prop(parsed, "version").value) || !Truthy(Prop(parsed, "privateKey").value)
    ensures ImportWallet(p, body) == Outcome(InvalidWalletFile, None)
  {
  }

  // ---------------------------------------------------------------------------
  // Where files are written
  // ---------------------------------------------------------------------------

  /** A path naming a `.json` file directly inside `data`. */
  predicate InData(path: string)
  {
    |path| > 5 && path[..5] == "data/" && '/' !in path[5..] && EndsWith(path, ".json")
  }

  lemma InDataOf(f: string)
    requires '/' !in f && EndsWith(f, ".json")
    ensures InData("data/" + f)
  {
    var path := "data/" + f;
    assert path[5..] == f;
    assert path[|path| - 5..] == f[|f| - 5..];
  }

  lemma WalletPathInData(name: string)
    requires SafeName(name)
    ensures InData(WalletPath(name))
  {
    FileNameHasNoSlash(name);
    InDataOf(WalletFileName(name));
  }

  /** Every wallet file that creation writes lands directly inside `data`, named `.json`. */
  lemma CreateStaysInData(p: Platform, body: Value, privateKey: string, created: string)
    ensures PrepareCreate(p, body, privateKey, created).Accepted? ==> InData(PrepareCreate(p, body, privateKey, created).path)
  {
    if PrepareCreate(p, body, privateKey, created).Accepted? {
      WalletPathInData(PrepareCreate(p, body, privateKey, created).name);
    }
  }

  /** Every wallet file that import writes lands directly inside `data`, named `.json`. */
  lemma ImportStaysInData(p: Platform, body: Value)
    ensures ImportWallet(p, body).write.Some? ==> InData(ImportWallet(p, body).write.value.0)
  {
    if ImportWallet(p, body).write.Some? {
      WalletPathInData(Field(body, "name").s);
    }
  }

  /** The files after an outcome's write, if it made one. */
  function Written(files: map<string, string>, write: Option<(string, string)>): (after: map<string, string>)
    ensures write.None? ==> after == files
    ensures write.Some? ==> after.Keys == files.Keys + {write.value.0} && after[write.value.0] == write.value.1
    ensures write.Some? ==> forall path :: path in files && path != write.value.0 ==> after[path] == files[path]
  {
    match write
    case None => files
    case Some((path, text)) => files[path := text]
  }
}
