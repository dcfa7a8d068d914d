/**
 * The wallet routes of backend/index.js: `POST /wallets`, `GET /wallets` and
 * `POST /wallets/import`, over a store of files keyed by path.  The
 * generated key, the clock and the directory listing are parameters.
 */
module WalletApi {
  import opened Json
  import opened WalletRules

  /**
   * `{...newWallet, id: newWallet.created, address, balance}` where newWallet
   * is `{privateKey, ...walletData}`.  The key object is overwritten in
   * place by the record's own `privateKey` text, so its value plays no part.
   */
  function CreateResponse(w: Record, address: string): Record
  {
    var newWallet := Merge([("privateKey", Undefined)], w);
    Put(Put(Put(newWallet, "id", Get(w, "created")), "address", Str(address)), "balance", ZeroBalance)
  }

  /** `{privateKey, ...walletData}`: the record's fields, the key's slot filled by the record's own text. */
  lemma NewWalletFields(w: Record, k: string)
    requires UniqueKeys(w) && "privateKey" in KeysOf(w)
    ensures KeysOf(Merge([("privateKey", Undefined)], w)) == KeysOf(w)
    ensures Get(Merge([("privateKey", Undefined)], w), k) == Get(w, k)
  {
    var key: Record := [("privateKey", Undefined)];
    assert KeysOf(key) == {"privateKey"} by { assert key[0].0 == "privateKey"; }
    KeysOfMerge(key, w);
    GetMerge(key, w, k);
    if k !in KeysOf(w) {
      GetAbsent(w, k);
      GetAbsent(key, k);
    }
  }

  /**
   * The creation response holds every stored field, the stored key text
   * included, plus `id` (the creation time), `address` and a zero balance.
   */
  lemma CreateResponseFields(w: Record, address: string, k: string)
    requires UniqueKeys(w) && "privateKey" in KeysOf(w)
    ensures var r := CreateResponse(w, address);
            && KeysOf(r) == KeysOf(w) + {"id", "address", "balance"}
            && Get(r, "id") == Get(w, "created")
            && Get(r, "address") == Str(address)
            && Get(r, "balance") == ZeroBalance
            && (k !in {"id", "address", "balance"} ==> Get(r, k) == Get(w, k))
  {
    var r0 := Merge([("privateKey", Undefined)], w);
    var r1 := Put(r0, "id", Get(w, "created"));
    var r2 := Put(r1, "address", Str(address));
    NewWalletFields(w, k);
    KeysOfPut(r0, "id", Get(w, "created"));
    KeysOfPut(r1, "address", Str(address));
    KeysOfPut(r2, "balance", ZeroBalance);
    forall k' | k' in {"id", "address", "balance", k} ensures Get(CreateResponse(w, address), k') ==
      (if k' == "balance" then ZeroBalance else if k' == "address" then Str(address)
       else if k' == "id" then Get(w, "created") else Get(r0, k'))
    {
      GetPut(r0, "id", Get(w, "created"), k');
      GetPut(r1, "address", Str(address), k');
      GetPut(r2, "balance", ZeroBalance, k');
    }
  }

  /** `POST /wallets`: the response, and the wallet file written before it. */
  function CreateOutcome(p: Platform, body: Value, privateKey: string, created: string): (o: Outcome)
    ensures o.response.status in {201, 400, 500}
    ensures o.write.Some? ==> InData(o.write.value.0)
  {
    CreateStaysInData(p, body, privateKey, created);
    Finish(p, PrepareCreate(p, body, privateKey, created), privateKey)
  }

  /** After `createWallet`: the response's address comes from the stored key text. */
  function Finish(p: Platform, prepared: Prepared, privateKey: string): (o: Outcome)
    ensures o.write.Some? <==> prepared.Accepted?
    ensures prepared.Refused? ==> o.response == prepared.response
    ensures prepared.Accepted? ==> o.response.status in {201, 500}
  {
    match prepared
    case Refused(r) => Outcome(r, None)
    case Accepted(_, path, w) =>
      var write := Some((path, WalletText(p, w)));
      match p.addressOf(Str(privateKey))
      case None => Outcome(CreateFailed, write)
      case Some(address) => Outcome(Response(201, Obj(CreateResponse(w, address))), write)
  }

  /**
   * After an accepted request the wallet is written below `data` even when
   * deriving the address then fails with a 500; a 201 carries the response
   * record of `CreateResponse`.
   */
  lemma FinishSpec(p: Platform, prepared: Prepared, privateKey: string)
    ensures prepared.Accepted? ==> Finish(p, prepared, privateKey).write == Some((prepared.path, WalletText(p, prepared.wallet)))
    ensures prepared.Accepted? ==>
              (Finish(p, prepared, privateKey).response.status == 201 <==> p.addressOf(Str(privateKey)).Some?)
    ensures prepared.Accepted? && Finish(p, prepared, privateKey).response.status == 201 ==>
              Finish(p, prepared, privateKey).response.body ==
                Obj(CreateResponse(prepared.wallet, p.addressOf(Str(privateKey)).value))
  {
    assert CreateFailed.status != 201;
  }

  /** A refused request writes nothing; an accepted one writes a file directly below `data`. */
  lemma CreateWritesInData(p: Platform, body: Value, privateKey: string, created: string)
    ensures CreateOutcome(p, body, privateKey, created).write.Some? <==> PrepareCreate(p, body, privateKey, created).Accepted?
    ensures CreateOutcome(p, body, privateKey, created).write.Some? ==> InData(CreateOutcome(p, body, privateKey, created).write.value.0)
  {
    var prepared := PrepareCreate(p, body, privateKey, created);
    FinishSpec(p, prepared, privateKey);
    CreateStaysInData(p, body, privateKey, created);
  }

  /**
   * A request that passes every check, with a key whose address can be
   * derived, is answered 201 after writing its record to `data/` followed by
   * its file name.
   */
  lemma CreateSucceeds(p: Platform, body: Value, privateKey: string, created: string)
    requires body != Null && body != Undefined && HasCreateFields(body)
    requires Field(body, "name").Str? && SafeName(Field(body, "name").s)
    requires Field(body, "country").Str? && Field(body, "city").Str? && Field(body, "idNumber").Str?
    requires p.addressOf(Str(privateKey)).Some?
    ensures var o := CreateOutcome(p, body, privateKey, created);
            && o.response.status == 201
            && o.write == Some(("data/" + WalletFileName(Field(body, "name").s),
                                WalletText(p, PrepareCreate(p, body, privateKey, created).wallet)))
  {
    CreateAccepted(p, body, privateKey, created);
  }

  /**
   * As written, the creation request named '../x' is answered 201 once its
   * wallet file has been written to `x.json`, outside `data`.
   */
  lemma CreateAsWrittenEscapes(p: Platform, privateKey: string, created: string)
    requires p.addressOf(Str(privateKey)).Some?
    ensures var o := Finish(p, PrepareCreateAsWritten(p, EscapingCreate, privateKey, created), privateKey);
            o.response.status == 201 && o.write.Some? && o.write.value.0 == "x.json" && !InData(o.write.value.0)
  {
    WalletRules.CreateAsWrittenEscapes(p, privateKey, created);
  }

  /**
   * Names that differ only in whitespace against '_' share one wallet file:
   * the second of two accepted creations overwrites the first's record,
   * private key included, and no other file changes.
   */
  lemma SecondCreateOverwrites(p: Platform, files: map<string, string>, body1: Value, body2: Value,
                               key1: string, key2: string, created1: string, created2: string)
    requires PrepareCreate(p, body1, key1, created1).Accepted? && PrepareCreate(p, body2, key2, created2).Accepted?
    requires var a, b := PrepareCreate(p, body1, key1, created1).name, PrepareCreate(p, body2, key2, created2).name;
             |a| == |b| && forall i :: 0 <= i < |a| ==> a[i] == b[i] || (Blank(a[i]) && Blank(b[i]))
    ensures var first, second := CreateOutcome(p, body1, key1, created1), CreateOutcome(p, body2, key2, created2);
            var path := first.write.value.0;
            var after := Written(Written(files, first.write), second.write);
            && second.write.value.0 == path
            && after[path] == WalletText(p, PrepareCreate(p, body2, key2, created2).wallet)
            && after.Keys == files.Keys + {path}
            && forall q :: q in files && q != path ==> after[q] == files[q]
  {
    var a1, a2 := PrepareCreate(p, body1, key1, created1), PrepareCreate(p, body2, key2, created2);
    FileNamesCollide(a1.name, a2.name);
    FinishSpec(p, a1, key1);
    FinishSpec(p, a2, key2);
  }

  /** The creation response of a stored record with the stored key text and creation time. */
  lemma ResponseOfRecord(w: Record, address: string, privateKey: string, created: string)
    requires UniqueKeys(w) && "privateKey" in KeysOf(w) && "name" !in KeysOf(w)
    requires Get(w, "privateKey") == Str(privateKey) && Get(w, "created") == Str(created)
    ensures var r := CreateResponse(w, address);
            && Get(r, "privateKey") == Str(privateKey)
            && Get(r, "id") == Str(created)
            && Get(r, "balance") == ZeroBalance
            && "name" !in KeysOf(r)
  {
    CreateResponseFields(w, address, "privateKey");
    assert "name" !in {"id", "address", "balance"} by {
      assert "name"[0] != "id"[0] && "name"[0] != "address"[0] && "name"[0] != "balance"[0];
    }
  }

  /** A 201 carries the stored key text, the creation time as `id`, a zero balance, and no `name`. */
  lemma CreatedResponse(p: Platform, body: Value, privateKey: string, created: string)
    ensures var o := CreateOutcome(p, body, privateKey, created);
            o.response.status == 201 ==>
              && o.write.Some? && o.response.body.Obj?
              && Get(o.response.body.fields, "privateKey") == Str(privateKey)
              && Get(o.response.body.fields, "id") == Str(created)
              && Get(o.response.body.fields, "balance") == ZeroBalance
              && "name" !in KeysOf(o.response.body.fields)
  {
    var prepared := PrepareCreate(p, body, privateKey, created);
    var o := CreateOutcome(p, body, privateKey, created);
    assert o == Finish(p, prepared, privateKey);
    FinishSpec(p, prepared, privateKey);
    if prepared.Accepted? && p.addressOf(Str(privateKey)).Some? {
      AcceptedCreate(p, body, privateKey, created);
      ResponseOfRecord(prepared.wallet, p.addressOf(Str(privateKey)).value, privateKey, created);
    }
  }

  /** `GET /wallets`: the shown wallets of the `.json` entries, or a 500 when reading the directory or a file fails. */
  function ListOutcome(p: Platform, files: map<string, string>, entries: Option<seq<string>>): (r: Response)
    ensures r.status in {200, 500}
    ensures r.status == 200 ==> entries.Some? && r.body.Arr? && |r.body.items| == |FilterJson(entries.value)|
  {
    match entries
    case None => ListFailed
    case Some(names) =>
      match ListItems(p, files, FilterJson(names))
      case None => ListFailed
      case Some(wallets) => Response(200, Arr(wallets))
  }

  /** A successful listing shows exactly the `.json` entries, in directory order, one wallet each. */
  lemma ListOutcomeSpec(p: Platform, files: map<string, string>, names: seq<string>)
    ensures ListOutcome(p, files, Some(names)).status == 200 ==>
              forall i :: 0 <= i < |FilterJson(names)| ==> ListItem(p, files, FilterJson(names)[i]).Some?
    ensures (forall i :: 0 <= i < |FilterJson(names)| ==> ListItem(p, files, FilterJson(names)[i]).Some?) ==>
              ListOutcome(p, files, Some(names)).status == 200
    ensures var r, kept := ListOutcome(p, files, Some(names)), FilterJson(names);
            r.status == 200 ==>
              && r.body.Arr? && |r.body.items| == |kept|
              && forall i :: 0 <= i < |kept| ==> r.body.items[i] == Obj(ListItem(p, files, kept[i]).value)
  {
    ListItemsSpec(p, files, FilterJson(names));
    assert ListFailed.status != 200;
  }

  /** The server of backend/index.js, as far as its wallet files go. */
  class Server {
    const p: Platform
    /** The files on disk, by the path `path.join` gives. */
    var files: map<string, string>

    constructor(p: Platform, files: map<string, string>)
      ensures this.p == p && this.files == files
    {
      this.p := p;
      this.files := files;
    }

    method CreateWallet(body: Value, privateKey: string, created: string) returns (r: Response)
      modifies this
      ensures r == CreateOutcome(p, body, privateKey, created).response
      ensures files == Written(old(files), CreateOutcome(p, body, privateKey, created).write)
    {
      var prepared := PrepareCreate(p, body, privateKey, created);
      FinishSpec(p, prepared, privateKey);
      if prepared.Refused? {
        return prepared.response;
      }
      files := files[prepared.path := WalletText(p, prepared.wallet)];
      var address := p.addressOf(Str(privateKey));
      if address.None? {
        return CreateFailed;
      }
      r := Response(201, Obj(CreateResponse(prepared.wallet, address.value)));
    }

    /** Read each `.json` entry in turn; the first failure answers 500. */
    method ListWallets(entries: Option<seq<string>>) returns (r: Response)
      ensures r == ListOutcome(p, files, entries)
    {
      if entries.None? {
        return ListFailed;
      }
      var jsonFiles := FilterJson(entries.value);
      var wallets: seq<Value> := [];
      for i := 0 to |jsonFiles|
        invariant ListItems(p, files, jsonFiles[..i]) == Some(wallets)
      {
        var wallet := ListItem(p, files, jsonFiles[i]);
        if wallet.None? {
          ListItemsFailAt(p, files, jsonFiles, i);
          return ListFailed;
        }
        ListItemsPrefix(p, files, jsonFiles, i);
        wallets := wallets + [Obj(wallet.value)];
      }
      assert jsonFiles[..|jsonFiles|] == jsonFiles;
      r := Response(200, Arr(wallets));
    }

    method ImportWallet(body: Value) returns (r: Response)
      modifies this
      ensures r == WalletRules.ImportWallet(p, body).response
      ensures files == Written(old(files), WalletRules.ImportWallet(p, body).write)
    {
      var outcome := WalletRules.ImportWallet(p, body);
      if outcome.write.Some? {
        files := files[outcome.write.value.0 := outcome.write.value.1];
      }
      r := outcome.response;
    }
  }

  /** A wallet created through this server is listed with its fallback display name. */
  lemma CreateThenList(p: Platform, files: map<string, string>, body: Value, privateKey: string, created: string,
                       address: string)
    requires Sound(p) && Plain(body)
    requires CreateOutcome(p, body, privateKey, created).response.status == 201
    requires p.addressOf(Str(privateKey)) == Some(address)
    ensures var a := PrepareCreate(p, body, privateKey, created);
            var after := Written(files, CreateOutcome(p, body, privateKey, created).write);
            && a.Accepted?
            && ListItem(p, after, WalletFileName(a.name)).Some?
            && Get(ListItem(p, after, WalletFileName(a.name)).value, "name") == Str(DisplayName(WalletFileName(a.name)))
  {
    var a := PrepareCreate(p, body, privateKey, created);
    var after := Written(files, CreateOutcome(p, body, privateKey, created).write);
    CreatedWalletListed(p, after, body, privateKey, created, address);
  }
}
