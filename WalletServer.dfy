/**
 * The standalone wallet server of backend/server.js.  It validates and
 * stores wallets exactly as backend/index.js does, but answers a creation
 * with the request's name, the clock reading as `id` and a placeholder
 * address, and lists the raw directory entries.
 */
module WalletServer {
  import opened Json
  import opened WalletRules
  import WalletApi

  const PlaceholderAddress := "...generating..."

  /** The creation response: it echoes the name and holds no key material. */
  function NewWalletResponse(name: string, now: int): (r: Record)
    ensures UniqueKeys(r) && "privateKey" !in KeysOf(r)
  {
    var r := [("id", Num(now)), ("name", Str(name)), ("address", Str(PlaceholderAddress)), ("balance", ZeroBalance)];
    assert forall i :: 0 <= i < |r| ==> r[i].0[0] in {'i', 'n', 'a', 'b'};
    assert "privateKey"[0] == 'p';
    r
  }

  /** `POST /wallets`; `now` is the reading of `Date.now()`. */
  function CreateOutcome(p: Platform, body: Value, privateKey: string, created: string, now: int): (o: Outcome)
    ensures o.response.status in {201, 400, 500}
    ensures o.write.Some? ==> InData(o.write.value.0)
  {
    CreateStaysInData(p, body, privateKey, created);
    Answer(p, PrepareCreate(p, body, privateKey, created), now)
  }

  /** After `createWallet`: nothing more can fail. */
  function Answer(p: Platform, prepared: Prepared, now: int): (o: Outcome)
    ensures o.write.Some? <==> prepared.Accepted?
    ensures prepared.Accepted? ==> o.response.status == 201
    ensures prepared.Refused? ==> o.response == prepared.response
  {
    match prepared
    case Refused(r) => Outcome(r, None)
    case Accepted(name, path, w) => Outcome(Response(201, Obj(NewWalletResponse(name, now))), Some((path, WalletText(p, w))))
  }

  /** The answer to an accepted request: the name, the clock reading, the placeholder; no key. */
  lemma NewWalletResponseFields(name: string, now: int)
    ensures var r := NewWalletResponse(name, now);
            && Get(r, "name") == Str(name) && Get(r, "id") == Num(now)
            && Get(r, "address") == Str(PlaceholderAddress) && Get(r, "balance") == ZeroBalance
            && KeysOf(r) == {"id", "name", "address", "balance"}
  {
    var r := NewWalletResponse(name, now);
    assert UniqueKeys(r);
    GetAt(r, 0);
    GetAt(r, 1);
    GetAt(r, 2);
    GetAt(r, 3);
    assert KeysOf(r) == {"id", "name", "address", "balance"} by {
      assert r[0].0 == "id" && r[1].0 == "name" && r[2].0 == "address" && r[3].0 == "balance";
    }
  }

  /** An accepted request is answered 201 after its write; a refused one writes nothing. */
  lemma AnswerSpec(p: Platform, prepared: Prepared, now: int)
    ensures Answer(p, prepared, now).write.Some? <==> prepared.Accepted?
    ensures prepared.Refused? ==> Answer(p, prepared, now).response == prepared.response
    ensures prepared.Accepted? ==>
              && Answer(p, prepared, now).write == Some((prepared.path, WalletText(p, prepared.wallet)))
              && Answer(p, prepared, now).response == Response(201, Obj(NewWalletResponse(prepared.name, now)))
  {
  }

  /** A creation that is not refused always answers 201, after writing the wallet below `data`. */
  lemma CreateWritesInData(p: Platform, body: Value, privateKey: string, created: string, now: int)
    ensures var o := CreateOutcome(p, body, privateKey, created, now);
            o.response.status == 201 <==> o.write.Some?
    ensures var o := CreateOutcome(p, body, privateKey, created, now);
            o.write.Some? ==> InData(o.write.value.0)
  {
    var prepared := PrepareCreate(p, body, privateKey, created);
    AnswerSpec(p, prepared, now);
    CreateStaysInData(p, body, privateKey, created);
  }

  /** The answer to an accepted request holds its name, the clock reading, the placeholder and no key. */
  lemma AnswerFields(p: Platform, prepared: Prepared, now: int)
    requires prepared.Accepted?
    ensures var r := Answer(p, prepared, now).response;
            && r.status == 201 && r.body.Obj?
            && Get(r.body.fields, "name") == Str(prepared.name)
            && Get(r.body.fields, "id") == Num(now)
            && Get(r.body.fields, "address") == Str(PlaceholderAddress)
            && Get(r.body.fields, "balance") == ZeroBalance
            && "privateKey" !in KeysOf(r.body.fields)
  {
    NewWalletResponseFields(prepared.name, now);
  }

  /** The 201 echoes the request's name, carries the clock reading and the placeholder address, and no `privateKey`. */
  lemma CreateEchoesName(p: Platform, body: Value, privateKey: string, created: string, now: int)
    ensures var o := CreateOutcome(p, body, privateKey, created, now);
            o.response.status == 201 ==>
              && body != Null && body != Undefined && o.response.body.Obj?
              && Get(o.response.body.fields, "name") == Field(body, "name")
              && Get(o.response.body.fields, "id") == Num(now)
              && Get(o.response.body.fields, "address") == Str(PlaceholderAddress)
              && Get(o.response.body.fields, "balance") == ZeroBalance
              && "privateKey" !in KeysOf(o.response.body.fields)
  {
    var prepared := PrepareCreate(p, body, privateKey, created);
    assert CreateOutcome(p, body, privateKey, created, now) == Answer(p, prepared, now);
    AnswerSpec(p, prepared, now);
    if prepared.Accepted? {
      AnswerFields(p, prepared, now);
    }
  }

  /** A request that passes every check is answered 201 after writing its record to `data/` followed by its file name. */
  lemma CreateSucceeds(p: Platform, body: Value, privateKey: string, created: string, now: int)
    requires body != Null && body != Undefined && HasCreateFields(body)
    requires Field(body, "name").Str? && SafeName(Field(body, "name").s)
    requires Field(body, "country").Str? && Field(body, "city").Str? && Field(body, "idNumber").Str?
    ensures var o := CreateOutcome(p, body, privateKey, created, now);
            && o.response.status == 201
            && o.write == Some(("data/" + WalletFileName(Field(body, "name").s),
                                WalletText(p, PrepareCreate(p, body, privateKey, created).wallet)))
  {
    CreateAccepted(p, body, privateKey, created);
  }

  /** As written, the creation request named '../x' is answered 201 once `x.json`, outside `data`, is written. */
  lemma CreateAsWrittenEscapes(p: Platform, privateKey: string, created: string, now: int)
    ensures var o := Answer(p, PrepareCreateAsWritten(p, EscapingCreate, privateKey, created), now);
            o.response.status == 201 && o.write.Some? && o.write.value.0 == "x.json" && !InData(o.write.value.0)
  {
    WalletRules.CreateAsWrittenEscapes(p, privateKey, created);
  }

  /** `GET /wallets`: every directory entry's name, `.json` or not, or a 500 when the directory cannot be read. */
  function ListOutcome(entries: Option<seq<string>>): (r: Response)
    ensures entries.None? <==> r == ListFailed
    ensures entries.Some? ==>
              && r.status == 200 && r.body.Arr? && |r.body.items| == |entries.value|
              && forall i :: 0 <= i < |entries.value| ==> r.body.items[i] == Str(entries.value[i])
  {
    match entries
    case None => ListFailed
    case Some(names) => Response(200, Arr(seq(|names|, i requires 0 <= i < |names| => Str(names[i]))))
  }

  /** The server of backend/server.js, as far as its wallet files go. */
  class Server {
    const p: Platform
    /** The files on disk, by the path `path.join` gives. */
    var files: map<string, string>

    constructor(p: Platform, files: map<string, string>)
      ensures this.p == p && this.files == files
    {
      this.p := p;
      this.files := files;
    }

    method CreateWallet(body: Value, privateKey: string, created: string, now: int) returns (r: Response)
      modifies this
      ensures r == CreateOutcome(p, body, privateKey, created, now).response
      ensures files == Written(old(files), CreateOutcome(p, body, privateKey, created, now).write)
    {
      var prepared := PrepareCreate(p, body, privateKey, created);
      if prepared.Refused? {
        return prepared.response;
      }
      files := files[prepared.path := WalletText(p, prepared.wallet)];
      r := Response(201, Obj(NewWalletResponse(prepared.name, now)));
    }

    method ImportWallet(body: Value) returns (r: Response)
      modifies this
      ensures r == WalletRules.ImportWallet(p, body).response
      ensures files == Written(old(files), WalletRules.ImportWallet(p, body).write)
    {
      var outcome := WalletRules.ImportWallet(p, body);
      if outcome.write.Some? {
        files := files[outcome.write.value.0 := outcome.write.value.1];
      }
      r := outcome.response;
    }
  }

  /**
   * Both servers store the same wallet file for the same request; only
   * their answers differ.
   */
  lemma ServersWriteAlike(p: Platform, body: Value, privateKey: string, created: string, now: int)
    ensures CreateOutcome(p, body, privateKey, created, now).write == WalletApi.CreateOutcome(p, body, privateKey, created).write
  {
    WalletApi.FinishSpec(p, PrepareCreate(p, body, privateKey, created), privateKey);
  }
}
