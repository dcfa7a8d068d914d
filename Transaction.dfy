/**
 * The transaction envelope of transaction.js.  A transaction is a JS object;
 * signing encodes the whole object as JSON text in UTF-8, signs those bytes
 * and appends a `signature` field holding the signature in base64
 * (section 4 of RFC 4648).  Verification removes `signature`, re-encodes the
 * rest in the same field order and checks the decoded signature against the
 * caller's public key; every failure on the way is the answer `false`.
 *
 * JSON text, base64 and the Ed25519 key pair are not modelled bit by bit.
 * They are the fields of a `Primitives` value, and `Sound` states the laws
 * the envelope relies on.
 */
module Transaction {
  import opened Json

  newtype Byte = x: int | 0 <= x < 256
  type Bytes = seq<Byte>
  type SecretKey = Bytes
  type PublicKey = Bytes

  /** What `publicKey.verify` does: resolve to true, resolve to false, or throw. */
  datatype Verdict = Valid | Invalid | Raised

  /** A peer id: its text and, when the id embeds one, its public key. */
  datatype PeerId = PeerId(text: string, publicKey: Option<PublicKey>)

  datatype Primitives = Primitives(
    encode: Record -> Bytes,             // TextEncoder.encode(JSON.stringify(o))
    decode: Bytes -> Option<Value>,      // JSON.parse(TextDecoder.decode(b)); None on a SyntaxError
    sign: (SecretKey, Bytes) -> Bytes,   // the wallet's signing function
    publicOf: SecretKey -> PublicKey,
    verify: (PublicKey, Bytes, Bytes) -> Verdict,
    toBase64: Bytes -> string,           // Buffer.from(b).toString('base64')
    fromBase64: string -> Bytes,         // Buffer.from(s, 'base64'), which accepts any string
    bytesOf: Value -> Option<Bytes>)     // Buffer.from(v) for an array or an object; None when it throws

  /**
   * The laws assumed of the primitives: JSON text round-trips plain objects,
   * a signature verifies under the signer's public key, it verifies for no
   * other message (an idealised unforgeable signer), and base64 round-trips.
   */
  ghost predicate Sound(p: Primitives)
  {
    && (forall r :: PlainRecord(r) ==> p.decode(p.encode(r)) == Some(Obj(r)))
    && (forall sk, m :: p.verify(p.publicOf(sk), m, p.sign(sk, m)) == Valid)
    && (forall sk, m, m' :: p.verify(p.publicOf(sk), m', p.sign(sk, m)) == Valid ==> m' == m)
    && (forall b :: p.fromBase64(p.toBase64(b)) == b)
  }

  const SignatureKey: string := "signature"

  /** Under sound primitives the encoding is injective on plain objects. */
  lemma EncodeInjective(p: Primitives, a: Record, b: Record)
    requires Sound(p) && PlainRecord(a) && PlainRecord(b)
    requires p.encode(a) == p.encode(b)
    ensures a == b
  {
    assert Some(Obj(a)) == p.decode(p.encode(a)) == p.decode(p.encode(b)) == Some(Obj(b));
  }

  // ---------------------------------------------------------------------------
  // createPaymentTransaction
  // ---------------------------------------------------------------------------

  /** `Math.floor(Math.random() * 100) + 1`, the draw taken as a parameter. */
  function PaymentAmount(draw: real): (amount: int)
    requires 0.0 <= draw < 1.0
    ensures 1 <= amount <= 100
  {
    (draw * 100.0).Floor + 1
  }

  /** The payment's payload object: `{amount, currency: 'TOKEN'}`. */
  function PaymentPayload(amount: int): (payload: Record)
    requires 1 <= amount <= 100
    ensures PlainRecord(payload)
    ensures Get(payload, "amount") == Num(amount) && Get(payload, "currency") == Str("TOKEN")
  {
    var payload := [("amount", Num(amount)), ("currency", Str("TOKEN"))];
    assert !LooksLikeIndex("amount") by { assert !IsDigit('a'); }
    assert !LooksLikeIndex("currency") by { assert !IsDigit('c'); }
    assert UniqueKeys(payload) by { assert "amount"[0] != "currency"[0]; }
    assert Plain(Num(amount)) && Plain(Str("TOKEN"));
    assert forall i :: 0 <= i < |payload| ==> !LooksLikeIndex(payload[i].0) && Plain(payload[i].1);
    payload
  }

  /**
   * An unsigned payment from `author` to `recipient`; `now` stands for
   * Date.now() and `draw` for Math.random().
   */
  function CreatePaymentTransaction(author: string, recipient: string, now: int, draw: real): (tx: Record)
    requires 0 <= now <= MaxSafeInteger
    requires 0.0 <= draw < 1.0
    ensures PlainRecord(tx) && SignatureKey !in KeysOf(tx)
    ensures Get(tx, "type") == Str("PAYMENT")
    ensures Get(tx, "from") == Str(author) && Get(tx, "to") == Str(recipient)
    ensures Get(tx, "timestamp") == Num(now)
    ensures Get(tx, "payload").Obj? && Get(Get(tx, "payload").fields, "currency") == Str("TOKEN")
    ensures Get(Get(tx, "payload").fields, "amount").Num?
    ensures 1 <= Get(Get(tx, "payload").fields, "amount").n <= 100
  {
    var payload := PaymentPayload(PaymentAmount(draw));
    var tx := [("type", Str("PAYMENT")), ("from", Str(author)), ("to", Str(recipient)),
               ("timestamp", Num(now)), ("payload", Obj(payload))];
    PaymentFieldsPlain(tx);
    tx
  }

  /** The five field names of a payment: distinct, none an array index, none `signature`. */
  lemma PaymentNames(tx: Record)
    requires |tx| == 5
    requires tx[0].0 == "type" && tx[1].0 == "from" && tx[2].0 == "to"
    requires tx[3].0 == "timestamp" && tx[4].0 == "payload"
    ensures UniqueKeys(tx) && SignatureKey !in KeysOf(tx)
    ensures forall i :: 0 <= i < 5 ==> !LooksLikeIndex(tx[i].0)
  {
    assert !LooksLikeIndex("type") by { assert !IsDigit('t'); }
    assert !LooksLikeIndex("from") by { assert !IsDigit('f'); }
    assert !LooksLikeIndex("to") by { assert !IsDigit('t'); }
    assert !LooksLikeIndex("timestamp") by { assert !IsDigit('t'); }
    assert !LooksLikeIndex("payload") by { assert !IsDigit('p'); }
    assert UniqueKeys(tx) by {
      assert "type"[1] != "to"[1] && "type"[1] != "timestamp"[1] && "to"[1] != "timestamp"[1];
    }
    assert SignatureKey !in KeysOf(tx) by {
      assert SignatureKey[0] == 's';
      forall i | 0 <= i < 5 ensures tx[i].0 != SignatureKey { assert tx[i].0[0] != 's'; }
    }
  }

  lemma PaymentFieldsPlain(tx: Record)
    requires |tx| == 5
    requires tx[0].0 == "type" && tx[1].0 == "from" && tx[2].0 == "to"
    requires tx[3].0 == "timestamp" && tx[4].0 == "payload"
    requires forall i :: 0 <= i < 5 ==> Plain(tx[i].1)
    ensures PlainRecord(tx) && SignatureKey !in KeysOf(tx)
    ensures forall i :: 0 <= i < 5 ==> Get(tx, tx[i].0) == tx[i].1
  {
    PaymentNames(tx);
    forall i | 0 <= i < 5 ensures Get(tx, tx[i].0) == tx[i].1 { GetAt(tx, i); }
  }

  // ---------------------------------------------------------------------------
  // signTransaction and verifyTransaction
  // ---------------------------------------------------------------------------

  /** The base64 text of the signer's output over the encoding of `tx`. */
  function SignatureOf(p: Primitives, sk: SecretKey, tx: Record): string
  {
    p.toBase64(p.sign(sk, p.encode(tx)))
  }

  /** `{...transaction, signature: base64(sign(encode(transaction)))}`. */
  function SignTransaction(p: Primitives, sk: SecretKey, tx: Record): (signed: Record)
    ensures Get(signed, SignatureKey) == Str(SignatureOf(p, sk, tx))
    ensures Without(signed, SignatureKey) == Without(tx, SignatureKey)
    ensures KeysOf(signed) == KeysOf(tx) + {SignatureKey}
  {
    var sig := Str(SignatureOf(p, sk, tx));
    GetPut(tx, SignatureKey, sig, SignatureKey);
    WithoutPut(tx, SignatureKey, sig);
    KeysOfPut(tx, SignatureKey, sig);
    Put(tx, SignatureKey, sig)
  }

  /**
   * `Buffer.from(signature, 'base64')`: a string is decoded as base64; an
   * array, an array-like object or a serialised Buffer is converted by
   * `bytesOf`; undefined, null, a number or a boolean makes Buffer.from throw.
   */
  function SignatureBytes(p: Primitives, v: Value): (b: Option<Bytes>)
    ensures v.Str? ==> b == Some(p.fromBase64(v.s))
    ensures (v.Undefined? || v.Null? || v.Num? || v.Bool?) ==> b == None
  {
    match v
    case Str(s) => Some(p.fromBase64(s))
    case Arr(_) => p.bytesOf(v)
    case Obj(_) => p.bytesOf(v)
    case _ => None
  }

  /**
   * verifyTransaction: true exactly when the `signature` field converts to
   * bytes that the author's inline public key accepts for the encoding of the
   * other fields.  A missing or unconvertible signature, a peer id without an
   * inline key and a throwing verifier all give false.
   */
  function VerifyTransaction(p: Primitives, tx: Record, author: PeerId): (ok: bool)
    ensures ok ==> author.publicKey.Some? && SignatureBytes(p, Get(tx, SignatureKey)).Some?
    ensures Get(tx, SignatureKey) == Undefined ==> !ok
  {
    match SignatureBytes(p, Get(tx, SignatureKey))
    case Some(sig) =>
      author.publicKey.Some? &&
      p.verify(author.publicKey.value, p.encode(Without(tx, SignatureKey)), sig) == Valid
    case None => false
  }

  /** Signing keeps every field in place and appends the one signature field. */
  lemma SignAppendsSignature(p: Primitives, sk: SecretKey, tx: Record)
    requires SignatureKey !in KeysOf(tx)
    ensures SignTransaction(p, sk, tx) == tx + [(SignatureKey, Str(SignatureOf(p, sk, tx)))]
  {
    PutAbsent(tx, SignatureKey, Str(SignatureOf(p, sk, tx)));
  }

  /** Round trip: a transaction without a signature field, once signed, verifies under the signer's key. */
  lemma SignThenVerify(p: Primitives, sk: SecretKey, tx: Record, author: PeerId)
    requires Sound(p)
    requires SignatureKey !in KeysOf(tx)
    requires author.publicKey == Some(p.publicOf(sk))
    ensures VerifyTransaction(p, SignTransaction(p, sk, tx), author)
  {
    WithoutAbsent(tx, SignatureKey);
    var m := p.encode(tx);
    assert p.fromBase64(p.toBase64(p.sign(sk, m))) == p.sign(sk, m);
  }

  /**
   * Both directions: a signed plain transaction verifies under the signer's
   * key exactly when it had no signature field before signing.  Re-signing a
   * signed transaction overwrites the old signature in place and yields one
   * that does not verify.
   */
  lemma SignedVerifiesIff(p: Primitives, sk: SecretKey, tx: Record, author: PeerId)
    requires Sound(p) && PlainRecord(tx)
    requires author.publicKey == Some(p.publicOf(sk))
    ensures VerifyTransaction(p, SignTransaction(p, sk, tx), author) <==> SignatureKey !in KeysOf(tx)
  {
    if SignatureKey !in KeysOf(tx) {
      SignThenVerify(p, sk, tx, author);
    } else if VerifyTransaction(p, SignTransaction(p, sk, tx), author) {
      var m := p.encode(tx);
      var rest := Without(tx, SignatureKey);
      assert p.fromBase64(p.toBase64(p.sign(sk, m))) == p.sign(sk, m);
      assert p.verify(p.publicOf(sk), p.encode(rest), p.sign(sk, m)) == Valid;
      PlainWithout(tx, SignatureKey);
      EncodeInjective(p, rest, tx);
      KeysOfWithout(tx, SignatureKey);
      assert false;
    }
  }

  /**
   * Tamper detection: a plain record that carries the signature of `tx` but
   * whose other fields are not exactly those of `tx`, in that order, does
   * not verify under the signer's key.
   */
  lemma TamperingIsDetected(p: Primitives, sk: SecretKey, tx: Record, received: Record, author: PeerId)
    requires Sound(p) && PlainRecord(tx) && PlainRecord(received)
    requires author.publicKey == Some(p.publicOf(sk))
    requires Get(received, SignatureKey) == Str(SignatureOf(p, sk, tx))
    requires Without(received, SignatureKey) != tx
    ensures !VerifyTransaction(p, received, author)
  {
    if VerifyTransaction(p, received, author) {
      var m := p.encode(tx);
      var rest := Without(received, SignatureKey);
      assert p.fromBase64(p.toBase64(p.sign(sk, m))) == p.sign(sk, m);
      assert p.verify(p.publicOf(sk), p.encode(rest), p.sign(sk, m)) == Valid;
      PlainWithout(received, SignatureKey);
      EncodeInjective(p, rest, tx);
      assert false;
    }
  }

  /** Changing the value of any one non-signature field of a signed transaction breaks its signature. */
  lemma ChangingAFieldIsDetected(p: Primitives, sk: SecretKey, tx: Record, k: string, v: Value, author: PeerId)
    requires Sound(p) && PlainRecord(tx) && SignatureKey !in KeysOf(tx)
    requires author.publicKey == Some(p.publicOf(sk))
    requires k != SignatureKey && !LooksLikeIndex(k) && Plain(v) && Get(tx, k) != v
    ensures !VerifyTransaction(p, Put(SignTransaction(p, sk, tx), k, v), author)
  {
    var signed := SignTransaction(p, sk, tx);
    var sig := Str(SignatureOf(p, sk, tx));
    var received := Put(signed, k, v);
    assert !LooksLikeIndex(SignatureKey) by { assert !IsDigit('s'); }
    PlainPut(tx, SignatureKey, sig);
    PlainPut(signed, k, v);
    GetPut(signed, k, v, SignatureKey);
    GetPut(signed, k, v, k);
    GetWithout(received, SignatureKey, k);
    TamperingIsDetected(p, sk, tx, received, author);
  }

  /**
   * What verify checks is the encoding of the transaction with only its
   * signature field taken out, the other fields staying in their order.
   */
  lemma VerifyChecksStrippedEncoding(p: Primitives, before: Record, s: string, after: Record, author: PeerId)
    requires SignatureKey !in KeysOf(before) && SignatureKey !in KeysOf(after)
    ensures VerifyTransaction(p, before + [(SignatureKey, Str(s))] + after, author)
        <==> author.publicKey.Some? &&
             p.verify(author.publicKey.value, p.encode(before + after), p.fromBase64(s)) == Valid
  {
    var mid: Record := [(SignatureKey, Str(s))];
    var tx := before + mid + after;
    assert tx == before + (mid + after);
    GetSkip(before, mid + after, SignatureKey);
    WithoutConcat(before, mid + after, SignatureKey);
    WithoutConcat(mid, after, SignatureKey);
    WithoutAbsent(before, SignatureKey);
    WithoutAbsent(after, SignatureKey);
    assert Without(mid, SignatureKey) == [];
  }

  /** Verification never throws: each failure path is the value false. */
  lemma VerifyFailuresAreFalse(p: Primitives, tx: Record, author: PeerId)
    ensures SignatureBytes(p, Get(tx, SignatureKey)).None? ==> !VerifyTransaction(p, tx, author)
    ensures author.publicKey.None? ==> !VerifyTransaction(p, tx, author)
    ensures SignatureBytes(p, Get(tx, SignatureKey)).Some? && author.publicKey.Some? &&
            p.verify(author.publicKey.value, p.encode(Without(tx, SignatureKey)),
                     SignatureBytes(p, Get(tx, SignatureKey)).value) != Valid
            ==> !VerifyTransaction(p, tx, author)
  {
  }

  /**
   * A signature need not be a string: one supplied as an array whose bytes
   * are the signer's output over the other fields verifies as well.
   */
  lemma ArraySignatureVerifies(p: Primitives, sk: SecretKey, tx: Record, sig: Value, author: PeerId)
    requires Sound(p) && SignatureKey !in KeysOf(tx)
    requires author.publicKey == Some(p.publicOf(sk))
    requires sig.Arr? && p.bytesOf(sig) == Some(p.sign(sk, p.encode(tx)))
    ensures VerifyTransaction(p, Put(tx, SignatureKey, sig), author)
  {
    GetPut(tx, SignatureKey, sig, SignatureKey);
    WithoutPut(tx, SignatureKey, sig);
    WithoutAbsent(tx, SignatureKey);
  }

  /**
   * Only the caller's key takes part: the peer id's text, and so the
   * transaction's own `from` field, do not change the outcome.
   */
  lemma VerifyUsesOnlyTheKey(p: Primitives, tx: Record, a: PeerId, b: PeerId)
    requires a.publicKey == b.publicKey
    ensures VerifyTransaction(p, tx, a) == VerifyTransaction(p, tx, b)
  {
  }

  /** A signed payment verifies under its signer's key, whatever its `from` field names. */
  lemma PaymentRoundTrip(p: Primitives, sk: SecretKey, author: string, recipient: string,
                         now: int, draw: real, signer: PeerId)
    requires Sound(p)
    requires 0 <= now <= MaxSafeInteger && 0.0 <= draw < 1.0
    requires signer.publicKey == Some(p.publicOf(sk))
    ensures VerifyTransaction(p, SignTransaction(p, sk, CreatePaymentTransaction(author, recipient, now, draw)), signer)
  {
    SignThenVerify(p, sk, CreatePaymentTransaction(author, recipient, now, draw), signer);
  }
}
