/**
 * The command-line ledger node of index.js: the handler for messages arriving
 * on the transactions topic, and the prompt loop that builds, signs and
 * publishes transactions.  The network, the terminal, the clock and
 * Math.random are parameters; the transaction builders imported from modules
 * that are not part of this model, `updateRates` and `publish` are opaque.
 * Calls to `updateRates` and to `publish` are recorded as ghost traces.
 */
module LedgerNode {
  import opened Json
  import opened Transaction

  /** The GossipSub topic of transactions. */
  const Topic: string := "/invectis/transactions/1.0"

  /** What an opaque transaction builder hands back: a transaction, a falsy value, or an exception. */
  datatype Built = Tx(tx: Record) | Falsy | Threw

  /** The opaque collaborators of the node. */
  datatype Collaborators = Collaborators(
    prims: Primitives,
    peerIdFromString: string -> Option<PeerId>,                   // None: it throws
    createVectorTransaction: (string, string, map<string, int>) -> Built,
    createSetRateRatioTransaction: (string, map<string, real>) -> Built,
    createSetDailyBonusTransaction: (string, real, real) -> Built,
    walletSigns: Bytes -> bool)                                   // wallet.sign resolves for these bytes; false: it rejects

  // ---------------------------------------------------------------------------
  // Receiving
  // ---------------------------------------------------------------------------

  /** How far an inbound message on the topic gets before the `switch`. */
  datatype Screening =
    | Unreadable            // JSON.parse, `message.from` or peerIdFromString threw
    | Unverified            // verifyTransaction answered false
    | Verified(message: Record)

  /** The peer id that the `from` field of a message names, if it names one. */
  function ClaimedAuthor(c: Collaborators, message: Record): (author: Option<PeerId>)
    ensures author.Some? ==> Get(message, "from").Str? && c.peerIdFromString(Get(message, "from").s) == author
    ensures !Get(message, "from").Str? ==> author.None?
  {
    match Get(message, "from")
    case Str(s) => c.peerIdFromString(s)
    case _ => None
  }

  /** Decode, resolve the claimed author, verify against that author's key. */
  function Screen(c: Collaborators, data: Bytes): (s: Screening)
    ensures s.Verified? ==>
              c.prims.decode(data) == Some(Obj(s.message)) &&
              ClaimedAuthor(c, s.message).Some? &&
              VerifyTransaction(c.prims, s.message, ClaimedAuthor(c, s.message).value)
    ensures s.Unverified? ==>
              c.prims.decode(data).Some? && c.prims.decode(data).value.Obj? &&
              ClaimedAuthor(c, c.prims.decode(data).value.fields).Some? &&
              !VerifyTransaction(c.prims, c.prims.decode(data).value.fields,
                                 ClaimedAuthor(c, c.prims.decode(data).value.fields).value)
  {
    match c.prims.decode(data)
    case None => Unreadable
    case Some(v) =>
      if !v.Obj? then Unreadable   // null throws on `.from`; other values have no `from`
      else
        match ClaimedAuthor(c, v.fields)
        case None => Unreadable
        case Some(author) => if VerifyTransaction(c.prims, v.fields, author) then Verified(v.fields) else Unverified
  }

  /** What the handler does with one message; each outcome is one log line, and one also updates the rates. */
  datatype Disposition =
    | OffTopic
    | Failed                     // 'Erreur de traitement du message'
    | Rejected                   // 'Transaction reçue mais invalide!'
    | PaymentShown
    | RatesApplied(rates: Value) // updateRates(message.payload.rates)
    | VectorShown
    | BonusShown
    | UnknownType

  /** The `switch (message.type)` over a verified message. */
  function Act(message: Record): (d: Disposition)
    ensures d != OffTopic && d != Rejected
    ensures d == UnknownType <==>
              Get(message, "type") !in {Str("PAYMENT"), Str("SETRATERATIO"), Str("VECTOR_TRANSACTION"), Str("SETDAILYBONUS")}
    ensures d == Failed ==> Get(message, "payload") == Null || Get(message, "payload") == Undefined
  {
    var payload := Get(message, "payload");
    var kind := Get(message, "type");
    if kind == Str("PAYMENT") then
      if Prop(payload, "amount").None? then Failed else PaymentShown
    else if kind == Str("SETRATERATIO") then
      match Prop(payload, "rates")
      case None => Failed
      case Some(rates) => RatesApplied(rates)
    else if kind == Str("VECTOR_TRANSACTION") then
      if Prop(payload, "vectors").None? then Failed else VectorShown
    else if kind == Str("SETDAILYBONUS") then
      if Prop(payload, "bonus").None? then Failed else BonusShown
    else UnknownType
  }

  /** The handler as a function of the message's topic and bytes. */
  function Receive(c: Collaborators, topic: string, data: Bytes): (d: Disposition)
    ensures d == OffTopic <==> topic != Topic
    ensures d == Rejected <==> topic == Topic && Screen(c, data).Unverified?
    ensures d == Failed <==> topic == Topic && (Screen(c, data).Unreadable? || (Screen(c, data).Verified? && Act(Screen(c, data).message) == Failed))
  {
    if topic != Topic then OffTopic
    else
      match Screen(c, data)
      case Unreadable => Failed
      case Unverified => Rejected
      case Verified(message) => Act(message)
  }

  /** Messages on any other topic are ignored. */
  lemma OtherTopicsIgnored(c: Collaborators, topic: string, data: Bytes)
    requires topic != Topic
    ensures Receive(c, topic, data) == OffTopic
  {
  }

  /**
   * A message is acted on only when it verifies against the identity its own
   * `from` field names; a failed verification, an unknown type and every
   * exception leave the rates alone.
   */
  lemma ActedOnlyIfVerified(c: Collaborators, topic: string, data: Bytes)
    ensures Receive(c, topic, data) !in {OffTopic, Failed, Rejected} ==>
              topic == Topic && Screen(c, data).Verified?
    ensures Screen(c, data).Unverified? || Screen(c, data).Unreadable? ==>
              !Receive(c, topic, data).RatesApplied?
  {
  }

  /** Only a verified SETRATERATIO updates the rates, and with exactly its `payload.rates`. */
  lemma RatesOnlyFromSetRateRatio(c: Collaborators, topic: string, data: Bytes)
    ensures Receive(c, topic, data).RatesApplied? <==>
              topic == Topic && Screen(c, data).Verified? &&
              Get(Screen(c, data).message, "type") == Str("SETRATERATIO") &&
              Prop(Get(Screen(c, data).message, "payload"), "rates").Some?
    ensures Receive(c, topic, data).RatesApplied? ==>
              Some(Receive(c, topic, data).rates) == Prop(Get(Screen(c, data).message, "payload"), "rates")
  {
  }

  /**
   * End to end: a plain SETRATERATIO, signed with the key of the identity its
   * `from` field names and published encoded, is applied by a receiver with
   * its `payload.rates`.
   */
  lemma SignedRateUpdateApplied(c: Collaborators, sk: SecretKey, tx: Record, id: string, author: PeerId)
    requires Sound(c.prims) && PlainRecord(tx) && SignatureKey !in KeysOf(tx)
    requires Get(tx, "type") == Str("SETRATERATIO")
    requires Get(tx, "from") == Str(id) && c.peerIdFromString(id) == Some(author)
    requires author.publicKey == Some(c.prims.publicOf(sk))
    requires Prop(Get(tx, "payload"), "rates").Some?
    ensures Receive(c, Topic, c.prims.encode(SignTransaction(c.prims, sk, tx)))
         == RatesApplied(Prop(Get(tx, "payload"), "rates").value)
  {
    ReceiveSigned(c, sk, tx, id, author);
  }

  /**
   * A plain transaction signed with the key of the identity its `from` field
   * names is received as verified, and acted on with its own type and payload.
   */
  lemma ReceiveSigned(c: Collaborators, sk: SecretKey, tx: Record, id: string, author: PeerId)
    requires Sound(c.prims) && PlainRecord(tx) && SignatureKey !in KeysOf(tx)
    requires Get(tx, "from") == Str(id) && c.peerIdFromString(id) == Some(author)
    requires author.publicKey == Some(c.prims.publicOf(sk))
    ensures var signed := SignTransaction(c.prims, sk, tx);
            && Receive(c, Topic, c.prims.encode(signed)) == Act(signed)
            && Get(signed, "type") == Get(tx, "type") && Get(signed, "payload") == Get(tx, "payload")
  {
    var sig := Str(SignatureOf(c.prims, sk, tx));
    var signed := SignTransaction(c.prims, sk, tx);
    assert !LooksLikeIndex(SignatureKey) by { assert !IsDigit('s'); }
    PlainPut(tx, SignatureKey, sig);
    assert c.prims.decode(c.prims.encode(signed)) == Some(Obj(signed));
    GetPut(tx, SignatureKey, sig, "from");
    GetPut(tx, SignatureKey, sig, "type");
    GetPut(tx, SignatureKey, sig, "payload");
    SignThenVerify(c.prims, sk, tx, author);
    assert ClaimedAuthor(c, signed) == Some(author);
    assert Screen(c, c.prims.encode(signed)) == Verified(signed);
  }

  // ---------------------------------------------------------------------------
  // Filling the random vector values and rates
  // ---------------------------------------------------------------------------

  /** `for (const name of names) o[name] = vals[i]`: later entries overwrite earlier ones of the same name. */
  function Assign<T>(names: seq<string>, vals: seq<T>): map<string, T>
    requires |vals| >= |names|
    decreases |names|
  {
    if names == [] then map[]
    else Assign(names[..|names| - 1], vals)[names[|names| - 1] := vals[|names| - 1]]
  }

  /** Index i is the last occurrence of its name. */
  predicate LastOccurrence(names: seq<string>, i: nat)
    requires i < |names|
  {
    forall j :: i < j < |names| ==> names[j] != names[i]
  }

  /** The names that get a value are exactly the listed ones. */
  lemma {:induction false} AssignKeys<T>(names: seq<string>, vals: seq<T>)
    requires |vals| >= |names|
    ensures forall k :: k in Assign(names, vals) <==> k in names
  {
    if names != [] {
      var n := |names| - 1;
      AssignKeys(names[..n], vals);
      assert names == names[..n] + [names[n]];
    }
  }

  /** Each value was drawn for its own name. */
  lemma {:induction false} AssignFrom<T>(names: seq<string>, vals: seq<T>, k: string)
    requires |vals| >= |names| && k in Assign(names, vals)
    ensures exists i :: 0 <= i < |names| && names[i] == k && Assign(names, vals)[k] == vals[i]
  {
    var n := |names| - 1;
    if k != names[n] {
      AssignFrom(names[..n], vals, k);
      var i :| 0 <= i < n && names[..n][i] == k && Assign(names[..n], vals)[k] == vals[i];
      assert names[i] == k;
    }
  }

  /** The last occurrence of a name decides its value. */
  lemma {:induction false} AssignLast<T>(names: seq<string>, vals: seq<T>, i: nat)
    requires |vals| >= |names| && i < |names| && LastOccurrence(names, i)
    ensures names[i] in Assign(names, vals) && Assign(names, vals)[names[i]] == vals[i]
  {
    var n := |names| - 1;
    if i < n {
      assert names[n] != names[i];
      assert LastOccurrence(names[..n], i);
      AssignLast(names[..n], vals, i);
      assert names[..n][i] == names[i];
    }
  }

  /** choice 2: `Math.floor(Math.random() * 10)` for each vector, draw i for vector i. */
  function VectorValues(names: seq<string>, draws: seq<real>): map<string, int>
    requires |draws| >= |names|
  {
    Assign(names, seq(|names|, i requires 0 <= i < |names| => (draws[i] * 10.0).Floor))
  }

  /** choice 3: `Math.random() * 2` for each vector. */
  function RateValues(names: seq<string>, draws: seq<real>): map<string, real>
    requires |draws| >= |names|
  {
    Assign(names, seq(|names|, i requires 0 <= i < |names| => draws[i] * 2.0))
  }

  predicate UnitDraws(draws: seq<real>)
  {
    forall i :: 0 <= i < |draws| ==> 0.0 <= draws[i] < 1.0
  }

  /** Every vector gets a value, each an integer from 0 to 9, the last draw for a name winning. */
  lemma VectorValuesSpec(names: seq<string>, draws: seq<real>)
    requires |draws| >= |names| && UnitDraws(draws)
    ensures forall k :: k in VectorValues(names, draws) <==> k in names
    ensures forall k :: k in VectorValues(names, draws) ==> 0 <= VectorValues(names, draws)[k] <= 9
    ensures forall i :: 0 <= i < |names| && LastOccurrence(names, i) ==>
              VectorValues(names, draws)[names[i]] == (draws[i] * 10.0).Floor
  {
    var vals := seq(|names|, i requires 0 <= i < |names| => (draws[i] * 10.0).Floor);
    AssignKeys(names, vals);
    forall k | k in VectorValues(names, draws) ensures 0 <= VectorValues(names, draws)[k] <= 9 {
      AssignFrom(names, vals, k);
      var i :| 0 <= i < |names| && names[i] == k && Assign(names, vals)[k] == vals[i];
      assert 0.0 <= draws[i] * 10.0 < 10.0;
    }
    forall i | 0 <= i < |names| && LastOccurrence(names, i)
      ensures VectorValues(names, draws)[names[i]] == (draws[i] * 10.0).Floor
    {
      AssignLast(names, vals, i);
    }
  }

  /** Every vector gets a rate, each in [0, 2). */
  lemma RateValuesSpec(names: seq<string>, draws: seq<real>)
    requires |draws| >= |names| && UnitDraws(draws)
    ensures forall k :: k in RateValues(names, draws) <==> k in names
    ensures forall k :: k in RateValues(names, draws) ==> 0.0 <= RateValues(names, draws)[k] < 2.0
    ensures forall i :: 0 <= i < |names| && LastOccurrence(names, i) ==>
              RateValues(names, draws)[names[i]] == draws[i] * 2.0
  {
    var vals := seq(|names|, i requires 0 <= i < |names| => draws[i] * 2.0);
    AssignKeys(names, vals);
    forall k | k in RateValues(names, draws) ensures 0.0 <= RateValues(names, draws)[k] < 2.0 {
      AssignFrom(names, vals, k);
      var i :| 0 <= i < |names| && names[i] == k && Assign(names, vals)[k] == vals[i];
    }
    forall i | 0 <= i < |names| && LastOccurrence(names, i)
      ensures RateValues(names, draws)[names[i]] == draws[i] * 2.0
    {
      AssignLast(names, vals, i);
    }
  }

  /** The `for (const vector of VECTORS)` loop of choice 2. */
  method DrawVectorValues(names: seq<string>, draws: seq<real>) returns (values: map<string, int>)
    requires |draws| >= |names|
    ensures values == VectorValues(names, draws)
  {
    ghost var vals := seq(|names|, i requires 0 <= i < |names| => (draws[i] * 10.0).Floor);
    values := map[];
    for i := 0 to |names|
      invariant values == Assign(names[..i], vals)
    {
      values := values[names[i] := (draws[i] * 10.0).Floor];
      assert names[..i + 1][..i] == names[..i];
    }
    assert names[..|names|] == names;
  }

  /** The `for (const vector of VECTORS)` loop of choice 3. */
  method DrawRates(names: seq<string>, draws: seq<real>) returns (rates: map<string, real>)
    requires |draws| >= |names|
    ensures rates == RateValues(names, draws)
  {
    ghost var vals := seq(|names|, i requires 0 <= i < |names| => draws[i] * 2.0);
    rates := map[];
    for i := 0 to |names|
      invariant rates == Assign(names[..i], vals)
    {
      rates := rates[names[i] := draws[i] * 2.0];
      assert names[..i + 1][..i] == names[..i];
    }
    assert names[..|names|] == names;
  }

  // ---------------------------------------------------------------------------
  // Sending
  // ---------------------------------------------------------------------------

  /** One answer at the prompt, with the random draws and the clock reading it consumes. */
  datatype Attempt = Attempt(choice: string, draws: seq<real>, now: int)

  datatype SendResult = Sent | NothingToSend | InvalidChoice | SendFailed

  class Node {
    const c: Collaborators
    const wallet: SecretKey
    const self: string          // wallet.peerId.toString()
    const recipient: string     // the peer id of the address given on the command line
    const vectors: seq<string>  // the name of each VECTORS entry

    /** Every call of `updateRates`, with its argument. */
    ghost var appliedRates: seq<Value>
    /** Every call of `publish`, with its topic and bytes. */
    ghost var published: seq<(string, Bytes)>
    /** How many times the question was put. */
    ghost var prompts: nat

    /** Subscribed, and the first question put (the call at the end of the send path's setup). */
    constructor(c: Collaborators, wallet: SecretKey, self: string, recipient: string, vectors: seq<string>)
      ensures this.c == c && this.wallet == wallet && this.self == self
      ensures this.recipient == recipient && this.vectors == vectors
      ensures appliedRates == [] && published == [] && prompts == 1
    {
      this.c := c;
      this.wallet := wallet;
      this.self := self;
      this.recipient := recipient;
      this.vectors := vectors;
      appliedRates := [];
      published := [];
      prompts := 1;
    }

    /** The `message` event handler. */
    method OnMessage(topic: string, data: Bytes) returns (d: Disposition)
      modifies this
      ensures d == Receive(c, topic, data)
      ensures appliedRates == old(appliedRates) + (if d.RatesApplied? then [d.rates] else [])
      ensures published == old(published) && prompts == old(prompts)
    {
      if topic != Topic {
        return OffTopic;
      }
      var decoded := c.prims.decode(data);
      if decoded.None? || !decoded.value.Obj? {
        return Failed;
      }
      var message := decoded.value.fields;
      var author := ClaimedAuthor(c, message);
      if author.None? {
        return Failed;
      }
      var isValid := VerifyTransaction(c.prims, message, author.value);
      if !isValid {
        return Rejected;
      }
      d := Act(message);
      if d.RatesApplied? {
        appliedRates := appliedRates + [d.rates];
      }
    }

    /** The attempt comes with enough draws in [0, 1) and a clock reading in range. */
    predicate Ready(a: Attempt)
    {
      0 <= a.now <= MaxSafeInteger && |a.draws| >= |vectors| && |a.draws| >= 2 && UnitDraws(a.draws)
    }

    /** What the `switch (choice)` builds; None for a choice other than 1 to 4. */
    function BuildFor(a: Attempt): (b: Option<Built>)
      requires Ready(a)
      ensures b.None? <==> a.choice !in {"1", "2", "3", "4"}
      ensures a.choice == "1" ==>
                b.Some? && b.value.Tx? && Get(b.value.tx, "type") == Str("PAYMENT") &&
                Get(b.value.tx, "from") == Str(self) && Get(b.value.tx, "to") == Str(recipient)
    {
      if a.choice == "1" then Some(Tx(CreatePaymentTransaction(self, recipient, a.now, a.draws[0])))
      else if a.choice == "2" then Some(c.createVectorTransaction(self, recipient, VectorValues(vectors, a.draws)))
      else if a.choice == "3" then Some(c.createSetRateRatioTransaction(self, RateValues(vectors, a.draws)))
      else if a.choice == "4" then Some(c.createSetDailyBonusTransaction(self, a.draws[0] * 20.0, a.draws[1] * 20.0 - 10.0))
      else None
    }

    /**
     * The publish calls one attempt makes: one signed transaction when a
     * transaction was built and the wallet signed it, otherwise none.
     */
    function Outgoing(a: Attempt): (out: seq<(string, Bytes)>)
      requires Ready(a)
      ensures |out| <= 1
      ensures out != [] <==>
                BuildFor(a).Some? && BuildFor(a).value.Tx? && c.walletSigns(c.prims.encode(BuildFor(a).value.tx))
      ensures out != [] ==>
                out[0] == (Topic, c.prims.encode(SignTransaction(c.prims, wallet, BuildFor(a).value.tx)))
    {
      match BuildFor(a)
      case Some(Tx(tx)) =>
        if c.walletSigns(c.prims.encode(tx)) then [(Topic, c.prims.encode(SignTransaction(c.prims, wallet, tx)))]
        else []
      case _ => []
    }

    /** The outcome the log reports for one attempt. */
    function Result(a: Attempt): (r: SendResult)
      requires Ready(a)
      ensures r == InvalidChoice <==> a.choice !in {"1", "2", "3", "4"}
      ensures r == NothingToSend <==> BuildFor(a) == Some(Falsy)
      ensures r == SendFailed ==> BuildFor(a) == Some(Threw) || !c.walletSigns(c.prims.encode(BuildFor(a).value.tx))
    {
      match BuildFor(a)
      case None => InvalidChoice
      case Some(Tx(tx)) => if c.walletSigns(c.prims.encode(tx)) then Sent else SendFailed
      case Some(Falsy) => NothingToSend
      case Some(Threw) => SendFailed
    }

    /** The `switch (choice)`: the transaction the chosen builder hands back; None for an invalid choice. */
    method Build(a: Attempt) returns (built: Option<Built>)
      requires Ready(a)
      ensures built == BuildFor(a)
    {
      if a.choice == "1" {
        built := Some(Tx(CreatePaymentTransaction(self, recipient, a.now, a.draws[0])));
      } else if a.choice == "2" {
        var vectorValues := DrawVectorValues(vectors, a.draws);
        built := Some(c.createVectorTransaction(self, recipient, vectorValues));
      } else if a.choice == "3" {
        var newRates := DrawRates(vectors, a.draws);
        built := Some(c.createSetRateRatioTransaction(self, newRates));
      } else if a.choice == "4" {
        var walletBalance := a.draws[0] * 20.0;
        var dailyTransactionSum := a.draws[1] * 20.0 - 10.0;
        built := Some(c.createSetDailyBonusTransaction(self, walletBalance, dailyTransactionSum));
      } else {
        built := None;
      }
    }

    /** One answer handled: build, sign and publish when something was built, then ask again. */
    method SendOnce(a: Attempt) returns (r: SendResult)
      requires Ready(a)
      modifies this
      ensures r == Result(a)
      ensures published == old(published) + Outgoing(a)
      ensures appliedRates == old(appliedRates)
      ensures prompts == old(prompts) + 1
    {
      var built := Build(a);
      match built {
        case None =>
          r := InvalidChoice;
        case Some(Tx(tx)) =>
          if c.walletSigns(c.prims.encode(tx)) {
            var signedTransaction := SignTransaction(c.prims, wallet, tx);
            var messageBytes := c.prims.encode(signedTransaction);
            published := published + [(Topic, messageBytes)];
            r := Sent;
          } else {
            r := SendFailed;   // signTransaction rejects; the catch logs it
          }
        case Some(Falsy) =>
          r := NothingToSend;
        case Some(Threw) =>
          r := SendFailed;
      }
      prompts := prompts + 1;
    }

    predicate AllReady(attempts: seq<Attempt>)
    {
      forall i :: 0 <= i < |attempts| ==> Ready(attempts[i])
    }

    lemma AllReadyPrefix(attempts: seq<Attempt>, n: nat)
      requires AllReady(attempts) && n <= |attempts|
      ensures AllReady(attempts[..n])
    {
      forall i | 0 <= i < n ensures Ready(attempts[..n][i]) {
        assert attempts[..n][i] == attempts[i];
      }
    }

    /** The publish calls of a run of attempts, in order. */
    function AllOutgoing(attempts: seq<Attempt>): seq<(string, Bytes)>
      requires AllReady(attempts)
      decreases |attempts|
    {
      if attempts == [] then []
      else
        AllReadyPrefix(attempts, |attempts| - 1);
        AllOutgoing(attempts[..|attempts| - 1]) + Outgoing(attempts[|attempts| - 1])
    }

    lemma AllOutgoingSnoc(attempts: seq<Attempt>, n: nat)
      requires AllReady(attempts) && n < |attempts|
      ensures AllReady(attempts[..n]) && AllReady(attempts[..n + 1])
      ensures AllOutgoing(attempts[..n + 1]) == AllOutgoing(attempts[..n]) + Outgoing(attempts[n])
    {
      AllReadyPrefix(attempts, n);
      AllReadyPrefix(attempts, n + 1);
      var t := attempts[..n + 1];
      assert t[..|t| - 1] == attempts[..n];
      assert t[|t| - 1] == attempts[n];
    }

    /** The prompt answered again and again; after every attempt the question is put again. */
    method Run(attempts: seq<Attempt>)
      requires AllReady(attempts)
      modifies this
      ensures published == old(published) + AllOutgoing(attempts)
      ensures appliedRates == old(appliedRates)
      ensures prompts == old(prompts) + |attempts|
    {
      assert attempts[..0] == [];
      for i := 0 to |attempts|
        invariant AllReady(attempts[..i])
        invariant published == old(published) + AllOutgoing(attempts[..i])
        invariant appliedRates == old(appliedRates)
        invariant prompts == old(prompts) + i
      {
        var _ := SendOnce(attempts[i]);
        AllOutgoingSnoc(attempts, i);
      }
      assert attempts[..|attempts|] == attempts;
    }

    /** A falsy build result, an exception, a rejected signature or an invalid choice publishes nothing. */
    lemma NothingBuiltNothingSent(a: Attempt)
      requires Ready(a)
      ensures Result(a) != Sent <==> Outgoing(a) == []
    {
    }

    /**
     * A payment this node publishes is shown by a receiver that resolves the
     * node's own peer id text to the node's public key.
     */
    lemma OwnPaymentAccepted(a: Attempt)
      requires Ready(a) && a.choice == "1" && Sound(c.prims)
      requires c.peerIdFromString(self) == Some(PeerId(self, Some(c.prims.publicOf(wallet))))
      requires c.walletSigns(c.prims.encode(CreatePaymentTransaction(self, recipient, a.now, a.draws[0])))
      ensures Outgoing(a) != [] && Receive(c, Outgoing(a)[0].0, Outgoing(a)[0].1) == PaymentShown
    {
      var tx := CreatePaymentTransaction(self, recipient, a.now, a.draws[0]);
      ReceiveSigned(c, wallet, tx, self, PeerId(self, Some(c.prims.publicOf(wallet))));
    }
  }
}
