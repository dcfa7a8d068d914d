# Invectis ledger core in Dafny

This project models the core of the Invectis peer-to-peer ledger:

- **The transaction envelope** (`transaction.js`). A transaction is an ordered JS object.
  - `createPaymentTransaction` builds an unsigned payment.
  - `signTransaction` signs the JSON encoding of the whole object and appends a base64 `signature` field.
  - `verifyTransaction` removes that field, re-encodes the rest and checks it against the caller's key. Every failure on the way is `false`.
- **The rights table** (`rights.js`). A fixed map from account type to the transaction kinds that type may originate, with a lookup that finds nothing for an unknown type.
- **Display flattening** (`backend/api.js`). `formatTransactionForFrontend` lays the payload over five metadata fields.
- **The command-line node** (`index.js`). It has two parts:
  - the pubsub `message` handler: topic filter, decode, verify against the author its own `from` names, then the `switch` on the type;
  - the `askForTransaction` prompt loop: build, sign and publish, then ask again.
- **The wallet HTTP routes** of `backend/index.js` and `backend/server.js`. The routes are `POST /wallets`, `GET /wallets` and `POST /wallets/import`. Both apply the same rules:
  - the same required-field checks;
  - the same file name rule: whitespace becomes `_`, then `.json` is appended, joined below `data` with `path.join`;
  - the same import checks.
  They differ in what they answer. The record they store is `createWallet`'s (`backend/wallet.js`).

## How the model is organised

The modules follow the source files:

- `Json`: JS values and objects as ordered field lists, with spread (`Put`, `Merge`), rest destructuring (`Without`) and property reads (`Get`, `Prop`).
- `Transaction` (`transaction.js`).
- `Rights` (`rights.js`).
- `Api` (`backend/api.js`).
- `LedgerNode` (`index.js`). Class `Node` holds ghost traces of every `updateRates` and `publish` call, and a count of the prompts put.
- `PosixPath`: `path.join` and `path.normalize` of Node's posix path module.
- `WalletRules`: the rules both wallet servers share, and `createWallet`'s record. The creation and import handlers come in two forms. The `AsWritten` ones follow the source. The corrected ones also refuse a name holding `/`, so that no file is written outside `data`.
- `WalletApi` (`backend/index.js`) and `WalletServer` (`backend/server.js`): their `Server` classes keep the files on disk as a `map` from path to text.

Several things are not computed; they enter the model as function-valued fields of a capabilities value:

- JSON text, UTF-8, base64, the Ed25519 signer and verifier;
- peer-id parsing, SHA-256, and the derivation of an address from a stored key;
- the transaction builders that `index.js` imports.

The laws the proofs use are ghost predicates named `Sound`, required where needed:

- JSON text round-trips plain objects;
- a signature verifies under the signer's key, and for no other message;
- base64 round-trips.

`Math.random`, `Date.now`, the generated key, the directory listing and the terminal's answers are parameters.

## Model

| member | source | states |
|---|---|---|
| `Transaction.PaymentAmount` | transaction.js:16 | The drawn amount is an integer from 1 to 100. |
| `Transaction.PaymentPayload` | transaction.js:15-18 | The payload is plain, with `amount` as drawn and currency `TOKEN`. |
| `Transaction.CreatePaymentTransaction` | transaction.js:9-19 | The payment is a plain object with no `signature` field. It has type `PAYMENT`, `from` and `to` as given, the clock reading, currency `TOKEN` and an amount in 1..100. |
| `Transaction.SignTransaction` | transaction.js:54-68 | The signed object's `signature` is the base64 of the signer's output over the encoding of the input. Without `signature` it equals the input without `signature`. Its keys are the input's plus `signature`. |
| `Transaction.SignAppendsSignature` | transaction.js:63-67 | On an object without `signature`, signing keeps every field in order and appends exactly one `signature` field. |
| `Transaction.SignThenVerify` | transaction.js:28-68 | Round trip: a signed object that had no `signature` verifies under the signer's public key. |
| `Transaction.SignedVerifiesIff` | transaction.js:54-68 | A signed plain object verifies under the signer's key exactly when it had no `signature` before. Re-signing overwrites the old signature in place and yields one that fails. |
| `Transaction.TamperingIsDetected` | transaction.js:31-41 | A plain object that carries the signature of `tx` but whose other fields differ from `tx` (values or order) does not verify. |
| `Transaction.ChangingAFieldIsDetected` | transaction.js:28-45 | Changing any non-signature field of a signed transaction to a different plain value makes verification fail. |
| `Transaction.VerifyChecksStrippedEncoding` | transaction.js:31-38 | Verify checks the encoding of exactly the fields before and after `signature`, in their order, against the decoded signature. |
| `Transaction.SignatureBytes` | transaction.js:34 | A string signature is decoded as base64. A missing, null, numeric or boolean signature converts to nothing, as `Buffer.from` throws on it. |
| `Transaction.VerifyTransaction` | transaction.js:28-45 | A verified transaction has a signature that converts to bytes, and its author has an inline public key. A transaction without a signature never verifies. |
| `Transaction.VerifyFailuresAreFalse` | transaction.js:29-45 | Each case yields `false`: a signature that does not convert to bytes, a peer id without a key, a verifier that rejects or throws. A signature fails to convert when it is missing, null, a number or a boolean, or an array or object that `Buffer.from` refuses. |
| `Transaction.ArraySignatureVerifies` | transaction.js:31-41 | A signature given as an array, whose bytes are the signer's output over the other fields, verifies as well as its base64 text would. |
| `Transaction.VerifyUsesOnlyTheKey` | transaction.js:28-41 | Two peer ids with the same public key give the same verdict. Neither the id text nor the object's `from` takes part. |
| `Transaction.PaymentRoundTrip` | transaction.js:9-68 | A signed payment verifies under its signer's key. |
| `Rights.ParseKindName` | rights.js:3-20 | Every kind name parses back to its kind. |
| `Rights.AllowedKinds` | rights.js:1-22 | An allow-list exists exactly for the four listed account types. |
| `Rights.StandardRights` | rights.js:2-7 | `standard` allows exactly VECTOR_TRANSACTION, SETDAILYBONUS, GETRATERATIO and ASK_VALIDATION_ACCOUNT. |
| `Rights.EnterpriseRights` | rights.js:8-11 | `enterprise` allows exactly VECTOR_TRANSACTION and ASK_VALIDATION_ACCOUNT, and not SETRATERATIO. |
| `Rights.InstitutionRights` | rights.js:12-16 | `institution` allows exactly VECTOR_TRANSACTION, ASK_VALIDATION_ACCOUNT and INFORMATION. |
| `Rights.AdministrationRights` | rights.js:17-21 | `administration` allows exactly INFORMATION, POLL_QUESTION and SETRATERATIO, and not VECTOR_TRANSACTION. |
| `Rights.AdministrationOnly` | rights.js:1-22 | A type allows SETRATERATIO, and likewise POLL_QUESTION, if and only if it is `administration`. |
| `Rights.InformationHolders` | rights.js:1-22 | A type allows INFORMATION if and only if it is `institution` or `administration`. |
| `Rights.ExemptKindsUnlisted` | rights.js:1-22 | No account type, listed or not, allows PAYMENT, POLL_ANSWER or ACCOUNT_VALIDATION. |
| `Rights.UnknownTypeAllowsNothing` | rights.js:1-22 | An unlisted type has no allow-list and allows no kind. |
| `Api.FormatTransactionForFrontend` | backend/api.js:13-25 | The output keys are the five metadata names plus the payload's spread keys. Every payload key has the payload's value. `cid` is the id's text, and the other four metadata fields come from the node, unless the payload overrides them. |
| `Api.PayloadFieldsShown` | backend/api.js:21 | Each field of an object payload is shown with its own value. |
| `Api.OtherFieldsDropped` | backend/api.js:15-22 | A node field outside the five metadata names, `signature` for one, is shown only if the payload has a field of that name. |
| `Api.StringPayloadSpreadsCharacters` | backend/api.js:21 | A string payload is shown as one field per character, keyed by the index's decimal text. |
| `Api.ScalarPayloadAddsNothing` | backend/api.js:21 | A null, undefined, number or boolean payload adds no field. |
| `LedgerNode.Screen` | index.js:160-167 | When a message is verified, it decoded to that object and verifies against the peer id its `from` names. When it is unverified, it decoded to an object whose named author rejects it. |
| `LedgerNode.ClaimedAuthor` | index.js:164 | There is an author only when `from` is a string that `peerIdFromString` resolves, and it is the resolved peer id. A `from` that is not a string names no author. |
| `LedgerNode.Act` | index.js:172-192 | A verified message is never ignored or rejected. Its type is unknown exactly when it is none of the four handled types. Handling fails only when the payload is null or undefined. |
| `LedgerNode.Receive` | index.js:150-198 | A message is ignored exactly when it is on another topic. It is rejected exactly when it is on the topic and its verification fails. It fails exactly when it is unreadable or its payload read throws. |
| `LedgerNode.OtherTopicsIgnored` | index.js:151 | A message on any other topic is ignored. |
| `LedgerNode.ActedOnlyIfVerified` | index.js:160-198 | The handler acts only on a message on the ledger topic that verified. An unverified or unreadable message never updates the rates. |
| `LedgerNode.RatesOnlyFromSetRateRatio` | index.js:172-181 | The rates are updated exactly for a verified SETRATERATIO with readable `payload.rates`, and with that value. |
| `LedgerNode.ReceiveSigned` | index.js:160-172 | A plain transaction signed with the key of the peer its `from` names is received as verified and dispatched on its own type and payload. |
| `LedgerNode.SignedRateUpdateApplied` | index.js:177-179 | End to end: a signed SETRATERATIO from its named author is applied with its `payload.rates`. |
| `LedgerNode.VectorValuesSpec` | index.js:215-218 | Choice 2: every VECTORS entry gets a value, an integer 0..9, and the last entry of a name decides it. |
| `LedgerNode.RateValuesSpec` | index.js:223-226 | Choice 3: every VECTORS entry gets a rate in [0, 2), and the last entry of a name decides it. The rate is the draw times 2. |
| `LedgerNode.DrawVectorValues` | index.js:215-218 | The `for` loop fills exactly the values of `VectorValues`. |
| `LedgerNode.DrawRates` | index.js:223-226 | The `for` loop fills exactly the rates of `RateValues`. |
| `LedgerNode.Node.constructor` | index.js:255 | A node starts with no rate updates, nothing published, and one question put. |
| `LedgerNode.Node.OnMessage` | index.js:150-199 | The handler's disposition is `Receive`'s. `updateRates` is called once with the rates on a `RatesApplied` disposition and never otherwise. Nothing is published. |
| `LedgerNode.Node.BuildFor` | index.js:209-238 | Nothing is built exactly for a choice other than 1 to 4. Choice 1 builds a PAYMENT from this node to the recipient. |
| `LedgerNode.Node.Result` | index.js:236-251 | The choice is invalid exactly when it is not 1 to 4, and there is nothing to send exactly when the builder returned a falsy value. A failure means the builder threw or the wallet refused to sign. |
| `LedgerNode.Node.Outgoing` | index.js:242-247 | An attempt publishes at most once. It publishes exactly when the builder returned a transaction and the wallet's signer resolved for its encoding. It publishes the encoding of that transaction signed with the wallet's key, on the ledger topic. |
| `LedgerNode.Node.Build` | index.js:210-240 | The `switch (choice)` hands back the chosen builder's result, or nothing for a choice other than 1 to 4. |
| `LedgerNode.Node.SendOnce` | index.js:207-253 | One answer publishes `Outgoing`, applies no rates, and puts the question again. |
| `LedgerNode.Node.Run` | index.js:206-255 | A run of answers publishes the attempts' `Outgoing` in order. It applies no rates and puts the question once per answer. |
| `LedgerNode.Node.NothingBuiltNothingSent` | index.js:236-251 | An invalid choice, a falsy build result, a builder exception or a rejected signature publishes nothing. Every attempt reported as sent published its transaction. |
| `LedgerNode.Node.OwnPaymentAccepted` | index.js:211-245 | When the wallet signs, a payment this node publishes is shown as a payment by a receiver that resolves the node's own id to its key. |
| `PosixPath.Normalize` | backend/index.js:132 | The normalised path is never empty. An absolute path stays absolute, and a trailing `/` is kept. |
| `PosixPath.Join` | backend/index.js:132 | The joined path is never empty. It is absolute when the first part is, and keeps a trailing `/` of the second. |
| `PosixPath.JoinPlainSegment` | backend/index.js:132 | Joining a plain slash-free file name below `data` gives `data/` followed by that name. |
| `PosixPath.JoinClimb` | backend/index.js:132 | Joining `../f` below a directory climbs out of it to `f`. |
| `WalletRules.WalletFileName` | backend/index.js:131 | The file name is the name with each whitespace character replaced by `_`, followed by `.json`. It is five characters longer than the name and holds no whitespace. |
| `WalletRules.FileNamesCollide` | backend/index.js:131 | Two names share one wallet file exactly when they have the same length and agree at every position, whitespace and `_` counting as the same character. |
| `WalletRules.IndexOfSpec` | backend/index.js:174 | The search finds the first occurrence of `.json`, and finds nothing only when there is none. |
| `WalletRules.DisplayNameOfWalletFile` | backend/index.js:174 | For a name without `.`, the fallback display name of its file is the name with every whitespace character and `_` shown as a space. |
| `WalletRules.DisplayName` | backend/index.js:174 | The fallback display name holds no `_` and is no longer than the file name. It is as long as the file name when that has no `.json`. |
| `WalletRules.TrimStart` | backend/wallet.js:82-92 | Trimming the start removes exactly a prefix of whitespace: the rest is a suffix of the text and does not start with whitespace. |
| `WalletRules.TrimEnd` | backend/wallet.js:82-92 | Trimming the end removes exactly a suffix of whitespace: the rest is a prefix of the text and does not end with whitespace. |
| `WalletRules.Trim` | backend/wallet.js:82-92 | A trimmed text is never longer, starts and ends with non-whitespace, and is unchanged when the text holds no whitespace. |
| `WalletRules.TrimSpec` | backend/wallet.js:82-92 | Trimming again changes nothing. |
| `WalletRules.FilterJsonKeeps` | backend/index.js:164 | The listing filter keeps exactly the entries ending in `.json`. |
| `WalletRules.FilterJsonConcat` | backend/index.js:164 | The filter keeps directory order: it distributes over concatenation. |
| `WalletRules.FilterJson` | backend/index.js:164 | The filter keeps no more entries than it is given, and every entry it keeps ends in `.json`. |
| `WalletRules.WalletPathEscapes` | backend/index.js:131-132 | As written, the name `../x` is stored at `x.json`, outside `data`. |
| `WalletRules.WalletPath` | backend/index.js:131-132 | A name without `/` is stored at `data/` followed by its file name. |
| `WalletRules.WalletRecordFacts` | backend/wallet.js:87-96 | The stored record has exactly eight distinct keys and no `name`, and holds the values it was given. |
| `WalletRules.WalletRecordPlain` | backend/wallet.js:87-98 | With a plain account type the stored record is plain, so it survives its JSON round trip. |
| `WalletRules.NewWalletData` | backend/wallet.js:81-96 | `createWallet` builds a record exactly when country, city and national id are strings. The country and city are stored trimmed, the id only as the SHA-256 of its trimmed text. |
| `WalletRules.ZeroBalanceShape` | backend/index.js:150 | The balance shown is plain, with `main` 0 and nine zero vector entries. |
| `WalletRules.PrepareCreateAsWritten` | backend/index.js:124-140 | As written: an accepted request's name is the request's `name` text, and its path is that name's wallet path, whatever the name holds. A refused request answers the missing-fields 400 or the 500. |
| `WalletRules.PrepareCreate` | backend/index.js:124-140 | Corrected: an accepted request has a name without `/` and is accepted as written. It differs from the as-written handler only in answering 400 "Invalid wallet name" for a name with `/`. A refused request answers 400 or 500. |
| `WalletRules.CreateAccepted` | backend/index.js:126-140 | A request with every field truthy, a name without `/`, and string country, city and national id is accepted. It writes the record built from them to `data/` followed by its file name. |
| `WalletRules.CreateAsWrittenEscapes` | backend/index.js:131-134 | As written, a request named `../x` with the other fields plain strings is accepted, and its file is `x.json`, outside `data`. The corrected handler answers 400. |
| `WalletRules.CreateRequiresFields` | backend/index.js:126-129 | Creation answers the missing-fields 400 if and only if one of name, country, city, idNumber or type is falsy. |
| `WalletRules.AcceptedCreate` | backend/index.js:126-140 | An accepted creation had every field. It writes `data/` + its file name. The record has the request's account type, the trimmed country and city, the key and the creation time, and no `name`. |
| `WalletRules.ShownWalletFields` | backend/index.js:171-177 | A listed wallet shows the stored fields. `id`, `name`, `address` and `balance` override them: `id` is `created`, and `name` is the stored one when truthy, else the file's fallback. |
| `WalletRules.ListItem` | backend/index.js:165-177 | A file that is not on disk fails its entry. A listed entry has a string address and the zero balance. |
| `WalletRules.CollectSpec` | backend/index.js:163-178 | `Promise.all` gives one result per entry in order, or fails as a whole when any entry fails. |
| `WalletRules.ListItemsSpec` | backend/index.js:163-178 | The listing holds one shown wallet per file in order, and succeeds exactly when every file is readable. |
| `WalletRules.ListItems` | backend/index.js:163-178 | A successful listing has one shown wallet per file. |
| `WalletRules.ListItemOfStored` | backend/index.js:166-177 | A stored plain wallet with a usable key is listed as its shown record. |
| `WalletRules.CreatedWalletListed` | backend/index.js:124-178 | A wallet created through the API is listed with its address, its creation time as `id`, and the fallback display name. |
| `WalletRules.JsString` | backend/index.js:193 | `String(walletData)`, the text `JSON.parse` reads: a string is itself, and an array is its items joined by `,`. |
| `WalletRules.JoinItems` | backend/index.js:193 | `Array.prototype.join(',')`: one string item gives that string, and two give them with a `,` between. |
| `WalletRules.StoredText` | backend/index.js:201 | What `writeFile` of `fs/promises` stores: a string as itself, and an array exactly when every item is a string. Every other value makes it throw. |
| `WalletRules.ConcatItems` | backend/index.js:201 | An iterable's string items written one after another, with no separator. It is defined exactly when every item is a string. |
| `WalletRules.ImportWalletAsWritten` | backend/index.js:186-207 | As written, import writes exactly when it answers 200. It then writes what `writeFile` stores for `walletData` to the name's wallet path, whatever the name holds. `String(walletData)` parsed to a wallet with a truthy version and privateKey. Every other answer is the missing-fields 400, the invalid-file 400 or the 500. |
| `WalletRules.ImportWallet` | backend/index.js:186-207 | Corrected: a write has a name without `/` and is the write as written. It differs from the as-written handler only in answering 400 "Invalid wallet name" instead of writing under a name with `/`. |
| `WalletRules.ImportWritesVerbatim` | backend/index.js:188-203 | Import answers 200 exactly when it writes. It then writes what `writeFile` stores for walletData at `data/` + the file name, a string unchanged. `String(walletData)` parses to a wallet with a truthy version and privateKey. |
| `WalletRules.ImportAccepted` | backend/index.js:188-203 | The converse: a non-empty text that parses to a wallet with truthy version and privateKey, imported under a non-empty name without `/`, is answered 200. It is written verbatim to `data/` followed by the name's file name. |
| `WalletRules.ArrayImportAccepted` | backend/index.js:188-203 | A walletData array of strings whose `,`-joined text parses to a wallet is answered 200. Under a non-empty name without `/`, its items go one after another into the wallet file. |
| `WalletRules.ArrayImportStoresUncheckedText` | backend/index.js:193-201 | With walletData `[a, b]`, the text `a,b` is checked but `ab` is stored with a 200. The file can hold text that was never validated. |
| `WalletRules.ImportAsWrittenEscapes` | backend/index.js:198-201 | As written, a valid wallet text imported under the name `../x` is written verbatim to `x.json`, outside `data`. The corrected handler answers 400. |
| `WalletRules.SecondImportOverwrites` | backend/index.js:198-201 | Two imports under names that share a wallet file leave only the second stored text in it, and change no other file. |
| `WalletRules.ImportRequiresFields` | backend/index.js:188-191 | A falsy walletData or name answers 400 and writes nothing. |
| `WalletRules.ImportRejectsIncompleteWallet` | backend/index.js:193-196 | A parsed wallet without a truthy version or privateKey answers 400 and writes nothing. |
| `WalletRules.CreateStaysInData` | backend/index.js:131-134 | Every file a creation writes is a `.json` file directly inside `data`. |
| `WalletRules.ImportStaysInData` | backend/index.js:198-201 | Every file an import writes is a `.json` file directly inside `data`. |
| `WalletApi.NewWalletFields` | backend/wallet.js:110-113 | `{privateKey, ...walletData}` has the record's keys and values. The key object's slot is taken by the stored key text. |
| `WalletApi.CreateResponseFields` | backend/index.js:146-151 | The creation response has the record's keys plus `id`, `address` and `balance`. `id` is `created`, the address is the derived one and the balance is zero; every other field is as stored. |
| `WalletApi.FinishSpec` | backend/index.js:134-156 | After `createWallet` the file is written even when deriving the address then fails with a 500. A 201 carries exactly the creation response. |
| `WalletApi.Finish` | backend/index.js:134-156 | After `createWallet` a file is written exactly when the request was accepted. A refused request keeps its answer, and an accepted one answers 201 or 500. |
| `WalletApi.CreateOutcome` | backend/index.js:124-158 | A creation answers 201, 400 or 500, and any file it writes is directly inside `data`. |
| `WalletApi.CreateSucceeds` | backend/index.js:124-153 | A request that passes every check, with a key whose address can be derived, is answered 201. It writes its record to `data/` followed by its file name. |
| `WalletApi.CreateAsWrittenEscapes` | backend/index.js:131-153 | As written, the request named `../x` is answered 201 after writing `x.json`, outside `data`. |
| `WalletApi.SecondCreateOverwrites` | backend/index.js:131-134 | Two accepted creations under names that share a wallet file leave only the second record, private key included, and change no other file. |
| `WalletApi.CreateWritesInData` | backend/index.js:124-158 | A creation writes exactly when it is accepted, and then directly inside `data`. |
| `WalletApi.ResponseOfRecord` | backend/index.js:146-151 | The response of a stored record carries its key text, its creation time as `id`, a zero balance, and no `name`. |
| `WalletApi.CreatedResponse` | backend/index.js:143-153 | A 201 follows a write and carries the stored key text, the creation time as `id`, a zero balance and no `name`. |
| `WalletApi.ListOutcomeSpec` | backend/index.js:160-184 | A listing answers 200 exactly when every `.json` entry is readable, with one shown wallet per entry in order. |
| `WalletApi.ListOutcome` | backend/index.js:160-184 | A listing answers 200 or 500. A 200 holds one entry per `.json` file. |
| `WalletApi.Server.CreateWallet` | backend/index.js:124-158 | The handler answers `CreateOutcome`'s response and changes the files by exactly its write. |
| `WalletApi.Server.ListWallets` | backend/index.js:160-184 | Reading the `.json` entries one by one, stopping at the first failure, answers the same as `ListOutcome`. |
| `WalletApi.Server.ImportWallet` | backend/index.js:186-208 | The handler answers the import's response and changes the files by exactly its write. |
| `WalletApi.CreateThenList` | backend/index.js:124-178 | After a 201 creation, the new file is listed under the fallback display name of its file. |
| `WalletServer.NewWalletResponse` | backend/server.js:31-36 | The creation response has distinct keys and no `privateKey`. |
| `WalletServer.NewWalletResponseFields` | backend/server.js:31-36 | The creation response holds the name, the clock reading as `id`, the placeholder address and a zero balance, and nothing else. |
| `WalletServer.AnswerSpec` | backend/server.js:24-38 | After `createWallet` an accepted request writes its record and answers 201. A refused one writes nothing. |
| `WalletServer.Answer` | backend/server.js:24-38 | A file is written exactly when the request was accepted. An accepted one answers 201, and a refused one keeps its answer. |
| `WalletServer.CreateOutcome` | backend/server.js:14-43 | A creation answers 201, 400 or 500, and any file it writes is directly inside `data`. |
| `WalletServer.CreateSucceeds` | backend/server.js:14-38 | A request that passes every check is answered 201. It writes its record to `data/` followed by its file name. |
| `WalletServer.CreateAsWrittenEscapes` | backend/server.js:21-38 | As written, the request named `../x` is answered 201 after writing `x.json`, outside `data`. |
| `WalletServer.AnswerFields` | backend/server.js:31-38 | The 201 carries the accepted name, the clock reading, the placeholder address, a zero balance and no key. |
| `WalletServer.CreateWritesInData` | backend/server.js:14-43 | A creation answers 201 exactly when it writes, and it writes directly inside `data`. |
| `WalletServer.CreateEchoesName` | backend/server.js:16-38 | A 201 echoes the request's `name`, carries the clock reading, the placeholder address and a zero balance, and holds no `privateKey`. |
| `WalletServer.ListOutcome` | backend/server.js:45-53 | The listing is every directory entry, `.json` or not, in order, or a 500 exactly when the directory cannot be read. |
| `WalletServer.Server.CreateWallet` | backend/server.js:14-43 | The handler answers `CreateOutcome`'s response and changes the files by exactly its write. |
| `WalletServer.Server.ImportWallet` | backend/server.js:55-78 | The handler answers the shared import's response and changes the files by exactly its write. |
| `WalletServer.ServersWriteAlike` | backend/server.js:21-29 | Both servers write the same file with the same text for the same request. |

## Left out

- Real cryptography, JSON text, UTF-8, base64, SHA-256 and key unmarshalling are abstract functions. The model states their laws (`Sound`) and does not compute them.
- JSON encoding is assumed to round-trip only plain objects: unique keys, no `undefined`, no array-index-like keys. Encoding is never assumed injective beyond that.
- `createVectorTransaction`, `createSetRateRatioTransaction`, `createSetDailyBonusTransaction`, `updateRates` and `VECTORS` are opaque. `index.js` imports them from `transaction.js`, which does not define them; their modules are not part of this model. `updateRates` is recorded as a trace and its effect is not modelled.
- Vector values and rates use exact reals: the model does not round as floating point does. The daily-bonus arguments are passed through as reals.
- `peerIdFromString` and the derivation of an address from a key are abstract. A failure is `None`, and the handler or route treats it as the exception it is.
- The node's start-up, DAG, peer discovery, clipboard, logging and SIGINT handling in `index.js` are not modelled. Neither are the routes of `backend/index.js` other than the three wallet routes, nor `initializeWallet`.
- Asynchrony: each handler runs to completion. A model path never interleaves with another handler at an `await`.
- The terminal is a sequence of `Attempt`s. `askForTransaction`'s self-call is the loop of `Node.Run`, and an attempt carries its own random draws and clock reading.
- A failing `writeFile` is not modelled: every write succeeds, so the read-back check in `createWallet` (backend/wallet.js:101-106) always passes. When listing, a wallet path missing from the files is the only read failure modelled. The directory listing is a parameter, and `None` stands for a failing `readdir`.
- JSON numbers are integers (`Num(n: int)`). Fractional numbers cannot be represented as values: a SETRATERATIO's rates and a request body's numeric fields are integers in the model. The node's own draws, rates and bonus arguments are reals outside `Value`.
- Which arrays and objects `Buffer.from` accepts as a signature, and the bytes it makes of them, are the abstract `bytesOf`.
- Transaction.SignTransaction models a signer that resolves. A rejecting `wallet.sign` is modelled on the send path by `walletSigns`, where it reports a failure and publishes nothing.
- LedgerNode.Node.Result: a `publish` that rejects, for example because no peer is subscribed, is still reported as sent. Its call is recorded in `published` either way.
- String lengths and indices count code points, not UTF-16 code units.
- The `Server` classes use the corrected handlers `PrepareCreate` and `ImportWallet`, which answer an extra 400 ("Invalid wallet name") for a name holding `/`. The source has no such check; the handlers as written are `PrepareCreateAsWritten` and `ImportWalletAsWritten`; see Findings.
- WalletRules.ImportWalletAsWritten: an array walletData holding an item that is not a string is answered 500 with no write. Node has already truncated the wallet file by then and written the string items before that item. It also turns a byte array or array-like item into bytes instead of throwing. File contents are text in the model.
- `String(v)` of a number, boolean or object, and of an array item that is one of these, is the abstract `toText`.
- `path.join` follows posix semantics only.
- `formatTransactionForFrontend` is a pure map-valued function. Not modifying the input node holds by construction.

## Findings

| source | as written | input that shows it | evidently intended | confidence | as-written member | corrected member |
|---|---|---|---|---|---|---|
| backend/index.js:131-132 | The wallet file name is joined below `data` with `path.join`, which normalises `..`. The same code is at backend/server.js:21-22. | A creation with name `../x` and the other fields plain strings is accepted and writes `x.json`, outside `data`. | Wallet files are written directly inside `data`. | not executed | `WalletRules.CreateAsWrittenEscapes` | `WalletRules.CreateStaysInData` |
| backend/index.js:198-199 | The import route joins the wallet file name below `data` the same way. The same code is at backend/server.js:68-69. | An import of a valid wallet text with name `../x` writes `x.json`, outside `data`. | Wallet files are written directly inside `data`. | not executed | `WalletRules.ImportAsWrittenEscapes` | `WalletRules.ImportStaysInData` |
