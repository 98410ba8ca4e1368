# Token and pool transaction assembly, modelled in Dafny

This project models the transaction-assembly core of a Solana token launchpad. The rest of the
application is presentation.

- **Pool creation.** `POST` of `app/api/pool/route.ts`:
  - it checks the request fields;
  - it scales the two human-entered deposit amounts to integer base units with `scaleToBN`;
  - it derives the pool's addresses and the caller's three associated token accounts;
  - it builds one Raydium constant-product (CPMM) create-pool instruction;
  - it returns that instruction packaged in one unsigned transaction.
- **Token creation.** The form component of `components/TokenForm.tsx`:
  - `handleInputChange` edits the form record;
  - `handleSubmit` guards against a missing wallet or image URL and uploads the token metadata;
  - it sizes and funds a Token-2022 mint that carries its own metadata;
  - it sends three transactions in order: create and initialize the mint, create the wallet's associated token account, mint `totalSupply × 10^decimals` to it;
  - it keeps the `isLoading` / `submitError` / `txSignature` state consistent on every exit.

Files and modules:

- `digits.dfy` (`Digits`): decimal digit strings, their values, powers of ten, and printing of whole numbers.
- `js.dfy` (`Js`): the JavaScript behaviour the code relies on:
  - JSON request values and their truthiness;
  - `String.prototype.split` and `join`;
  - `Number(...)` and `String(...)` of decimal text;
  - `BigInt(text)`;
  - bn.js's `new BN(text)`.
- `ledger.dfy` (`Ledger`): the Solana library surface:
  - symbolic addresses;
  - the pool's address derivations;
  - associated token addresses;
  - the instructions the code builds;
  - the `Transaction` class, which is filled in place (`add`, `feePayer`, `recentBlockhash`, `partialSign`, `serialize`).
- `pool_route.dfy` (`PoolRoute`): `scaleToBN` and its arithmetic, the request guard, and the `Post` method.
- `token_form.dfy` (`TokenCreation`): the form record and its updates, and the account sizes.
  - The supply computation.
  - The three transactions.
  - The submit pipeline as a function of the collaborators' replies.
  - The `TokenForm` class, whose `HandleSubmit` is proved to follow that function.

How the model is built:

- **Addresses and instructions are terms.** A derived address records what it was derived from. An instruction records the builder's arguments in call order. So the positional contract of each call is stated exactly. Hashing and byte layouts are not modelled.
- **Collaborators are inputs.** The wallet, the metadata upload, the RPC connection, keypair generation and the clock are given as inputs:
  - `Env` is the script of replies one submit meets: a value, or a thrown value, per call;
  - `nowMs`, `latestBlockhash` and `codec` (how a key's text decodes and whether a key is a curve point) for the pool route.
- **The output is an ordered trace.** The submit handler returns the list of calls it makes on the collaborators, in order. Each transaction appears with the exact state it is sent in.

## Model

| member | source | states |
|---|---|---|
| PoolRoute.Post | app/api/pool/route.ts:17-133 | The response status is 200, 400 or 500, and any non-200 status carries `success: false` with an error. A body that does not parse (or is `null`) gives 500 with the parser's message. Status 400 with the fixed message is returned exactly when the guard fails. Past the guard, the response is 500 with the message of the first step that throws (`Rejection`), and 200 exactly when none does. On 200: one transaction holding exactly one instruction, with the positional create-pool contract below (`IsCreatePool`); the wallet is fee payer, the blockhash is the fetched one, and there are no signatures. The returned `poolId` and `poolAddress` are both the derived pool id, `network` is "devnet", and `explorerUrl` is the Solscan link to the pool id on devnet. |
| PoolRoute.Rejection | app/api/pool/route.ts:52-112 | The steps after the guard run in order: the owner key, mint A, mint B, the two amounts, the owner's associated accounts, and the blockhash request. The handler gets past them all exactly when every key decodes, both amounts scale, the owner is on the curve and the blockhash arrives. |
| PoolRoute.OffCurveOwnerRejected | app/api/pool/route.ts:78-80 | A wallet key off the curve, with good keys and amounts, is refused with the token library's off-curve error. |
| PoolRoute.MissingRequiredFields | app/api/pool/route.ts:29-38 | The guard: the wallet and both mints must be truthy, and the four numeric fields must not be `undefined`. |
| PoolRoute.CoinAmount | app/api/pool/route.ts:75 | `coinAmount` is token A's amount scaled by token A's decimals. |
| PoolRoute.PcAmount | app/api/pool/route.ts:76 | `pcAmount` is token B's amount scaled by token B's decimals. |
| PoolRoute.IsCreatePool | app/api/pool/route.ts:84-105 | The positional contract of the create-pool instruction, listed below the table. |
| PoolRoute.IntegerPart | app/api/pool/route.ts:71 | `i` is the text before the first point, and holds no point. |
| PoolRoute.FractionPart | app/api/pool/route.ts:71 | `f` is the text after the first point (up to any second one), or "" when there is none, and holds no point. |
| PoolRoute.ZeroFieldsPassGuard | app/api/pool/route.ts:29-38 | Decimals and amounts given as 0, `null` or "" pass the guard, because only `undefined` is tested. Such an amount scales to 0. |
| PoolRoute.PublicKeyOf | app/api/pool/route.ts:52-54 | Text is a key exactly when it decodes as base58 of 32 bytes, and the key is on the curve exactly when those bytes are a curve point. A number is a key exactly when its magnitude is below 2^53. `undefined`, `null` and `true` throw. Every key is a caller-given key. |
| PoolRoute.ScaleToBN | app/api/pool/route.ts:69-74 | A negative decimals count makes `repeat` throw. |
| PoolRoute.PaddedFraction | app/api/pool/route.ts:72 | The padded-and-sliced fraction has exactly `decimals` digits. |
| PoolRoute.PaddedFractionValue | app/api/pool/route.ts:72 | The padded fraction's value is `f · 10^d / 10^|f|`, cut off and not rounded. |
| PoolRoute.SplitDecimal | app/api/pool/route.ts:71 | Splitting `i.f` on "." binds exactly `i` and `f`. |
| PoolRoute.SplitDigits | app/api/pool/route.ts:71 | A string without a point binds itself and `f = ""`. |
| PoolRoute.ScaleDecimal | app/api/pool/route.ts:69-74 | `scaleToBN("i.f", d)` is `int(i) · 10^d + ⌊int(f) · 10^d / 10^|f|⌋`, i.e. the first d fraction digits, padded with zeros. |
| PoolRoute.ScaleWhole | app/api/pool/route.ts:69-74 | An amount without a point scales to `int(i) · 10^d`. |
| PoolRoute.ScaleIntText | app/api/pool/route.ts:69-74 | Every whole amount, negative ones included, written as `String` writes it, scales to itself times `10^d`. |
| PoolRoute.ScaleTruncates | app/api/pool/route.ts:69-74 | `scaleToBN("i.f", d)` is `⌊int(i f) · 10^d / 10^|f|⌋`: extra fraction digits are truncated, never rounded. When `|f| ≤ d` it is exactly `int(i f) · 10^(d-|f|)`. |
| PoolRoute.ScaleNegativeTruncates | app/api/pool/route.ts:69-74 | `scaleToBN("-i.f", d)` succeeds with minus the truncated value of `ScaleTruncates`, and is exact when `|f| ≤ d`. |
| PoolRoute.DecimalRead | app/api/pool/route.ts:71-73 | `i.f` scales to the value bn.js reads from `i` followed by the padded fraction. |
| PoolRoute.NegativeDecimalRead | app/api/pool/route.ts:71-73 | `-i.f` scales to minus that value. |
| PoolRoute.PaddedDigitsFloor | app/api/pool/route.ts:72-73 | The digits bn.js reads are `⌊int(i f) · 10^d / 10^|f|⌋`, and exactly `int(i f) · 10^(d-|f|)` when `|f| ≤ d`. |
| PoolRoute.TruncatedShift | app/api/pool/route.ts:72-73 | Scaling the integer and fraction parts separately and truncating equals dividing the scaled whole. The result brackets the exact product from below: `r·q ≤ v·p < (r+1)·q`. |
| PoolRoute.ScaleExampleNine | app/api/pool/route.ts:69-74 | "1.5" at 9 decimals is 1500000000. |
| PoolRoute.ScaleExampleSix | app/api/pool/route.ts:69-74 | "100" at 6 decimals is 100000000. |
| PoolRoute.ScaleExamplePadded | app/api/pool/route.ts:69-74 | "1.23" at 4 decimals is 12300. |
| PoolRoute.ScaleExampleSmallest | app/api/pool/route.ts:69-74 | "0.000001" at 6 decimals is 1. |
| PoolRoute.ScaleExampleCut | app/api/pool/route.ts:69-74 | "1.999" at 0 decimals is 1, not 2. |
| PoolRoute.PoolAmountsExample | app/api/pool/route.ts:75-76 | A request with "1.5" of a 9-decimal token A and "100" of a 6-decimal token B passes the guard. `coinAmount` is 1500000000, from A's fields, and `pcAmount` is 100000000, from B's fields. |
| Ledger.AmmConfigId | app/api/pool/route.ts:59 | The config account is a derived, off-curve address. |
| Ledger.CreatePoolKeys | app/api/pool/route.ts:62-67 | All six pool addresses are derived and off the curve. |
| Ledger.PoolKeysDependencies | app/api/pool/route.ts:62-67 | The authority is one per program. The pool id depends on the config and on which mint is A and which is B. The LP mint, vaults and observation account are determined by the pool id. |
| Ledger.PoolKeysDistinct | app/api/pool/route.ts:62-67 | The six pool addresses are pairwise distinct, except the two vaults, which coincide exactly when both mints are the same. |
| Ledger.AssociatedTokenAddress | app/api/pool/route.ts:78-80 | The call succeeds exactly when the owner is on the curve or an off-curve owner is allowed. Otherwise it throws the off-curve error. The associated account is derived from exactly (mint, owner, token program) and is off the curve. |
| Ledger.Transaction.constructor | app/api/pool/route.ts:107 | A new transaction is empty: no instructions, fee payer, blockhash or signatures. |
| Ledger.Transaction.Add | app/api/pool/route.ts:108 | `add` appends one instruction and changes nothing else. |
| Ledger.Transaction.SetFeePayer | app/api/pool/route.ts:109 | Sets the fee payer and nothing else. |
| Ledger.Transaction.SetRecentBlockhash | app/api/pool/route.ts:111-112 | Sets the blockhash and nothing else. |
| Ledger.Transaction.PartialSign | components/TokenForm.tsx:171 | Needs a blockhash and a fee payer. It attaches the signer once and changes nothing else. |
| Ledger.Transaction.SerializeUnsigned | app/api/pool/route.ts:115-118 | Serializing without requiring signatures succeeds exactly when a blockhash and a fee payer are known. The result carries the instructions, fee payer, blockhash and signatures. |
| Ledger.EffectiveFeePayer | app/api/pool/route.ts:109-118 | The fee payer a transaction compiles with: the one set on it, or else its first signer, or none. `SerializeUnsigned` and `PartialSign` need it. |
| Js.NumberText | app/api/pool/route.ts:70 | `String(Number(x))` is "NaN" whenever `Number(x)` is NaN. |
| Js.IntText | app/api/pool/route.ts:70 | `String(n)` for a whole number: a "-" before the digits of a negative number, and no leading zero. `Number`, bn.js and `BigInt` read it back as n (`NumberOfIntText`, `ParseBNIntText`, `ParseBigIntIntText`). |
| Js.ToIntegerOrInfinity | app/api/pool/route.ts:72 | The count conversion of `repeat` and `slice`: NaN is 0, and a fraction is truncated toward zero, so -0.5 counts as 0. |
| Js.NumberTextRoundTrip | app/api/pool/route.ts:70 | Whenever `Number(x)` is finite, `String(Number(x))` is a decimal numeral that `Number` reads as the same value. |
| Js.NumberOf | app/api/pool/route.ts:75-76 | `Number` of a JSON value: `undefined` is NaN, `null` is 0, booleans are 1 and 0, numbers are themselves, and text is read as a numeral. |
| Js.Truthy | app/api/pool/route.ts:30-32 | The truthiness the guard tests: `undefined`, `null`, `false`, 0 and "" are falsy. |
| Js.Split | app/api/pool/route.ts:71 | `split` returns at least one piece, and no piece holds the separator. |
| Js.ParseBN | app/api/pool/route.ts:73 | `new BN(t)` reads an optional "-" and then digits; any other character throws. |
| Js.NumberOfDigits | components/TokenForm.tsx:111 | `Number` reads a non-empty digit string as its value, with no fractional part. |
| Js.NumberOfDecimal | app/api/pool/route.ts:75-76 | `Number("i.f")` has whole part `i`, and is integral exactly when `f` is all zeros. |
| Js.NumberOfNegativeDecimal | app/api/pool/route.ts:75-76 | `Number("-i.f")` is the negation of `Number("i.f")`. |
| Js.NumberOfIntText | app/api/pool/route.ts:70 | `Number` reads back every whole number `String` writes. |
| Js.NumberOfString | components/TokenForm.tsx:111 | `Number` of a decimal numeral is finite. Its value for digits and for decimals is stated by `NumberOfDigits`, `NumberOfDecimal` and `NumberOfNegativeDecimal`. |
| Js.IsDecimalText | app/api/pool/route.ts:75-76 | The numerals `Number` reads as finite: an optional "-", digits, and an optional point followed by digits, with at least one digit in all. `NumberOfString` is finite on each. |
| Js.JoinSplit | app/api/pool/route.ts:71 | Joining what `split` returns gives back the string. |
| Js.SplitJoin | app/api/pool/route.ts:71 | Splitting a join of separator-free pieces gives back the pieces. |
| Js.ParseBNDigits | app/api/pool/route.ts:73 | bn.js reads a digit string as its value. |
| Js.ParseBNIntText | app/api/pool/route.ts:73 | bn.js reads back every whole number `String` writes. |
| Js.ParseBigInt | components/TokenForm.tsx:205 | `BigInt` reads a digit string as its value and throws on any text with a point. |
| Js.ParseBigIntIntText | components/TokenForm.tsx:205 | `BigInt` reads back every whole number `String` writes. |
| Digits.NatText | app/api/pool/route.ts:70 | The decimal text of a whole number reads back as that number and has no leading zero. |
| Digits.ValuePrefix | app/api/pool/route.ts:72 | Keeping the first k digits divides the value by `10^(n-k)`: truncation. |
| TokenCreation.Get | components/TokenForm.tsx:30-38 | Every field holds a value of its declared type. |
| TokenCreation.Set | components/TokenForm.tsx:60-65 | `{ ...form, [key]: value }` for a value of the key's declared type. |
| TokenCreation.SetGet | components/TokenForm.tsx:60-65 | Updating a key gives that key the new value and leaves every other field as it was. |
| TokenCreation.SetOwnValue | components/TokenForm.tsx:60-65 | Writing back a field's own value leaves the record unchanged. |
| TokenCreation.TokenForm.constructor | components/TokenForm.tsx:44-58 | The form starts with decimals "9" and the toggle on, not loading, with no signature and no error. |
| TokenCreation.TokenForm.HandleInputChange | components/TokenForm.tsx:60-65 | The record becomes the update of the one key, and the submit state is unchanged. |
| TokenCreation.TokenForm.HandleSubmit | components/TokenForm.tsx:67-227 | While loading, a submit makes no call and changes nothing. Otherwise the calls made, the signature and the error are exactly those of the submit pipeline `Submit`, and every exit ends not loading. The error is the catch block's message when something threw, and none otherwise. |
| TokenCreation.TokenForm.Attempt | components/TokenForm.tsx:85-107 | The upload is made first. A thrown upload or a non-ok response ends the attempt with that error. Otherwise the rest follows `Uploaded`. |
| TokenCreation.TokenForm.AttemptMint | components/TokenForm.tsx:109-173 | Calls are made in order: keypair, rent for `mintLen + metadataLen`, blockhash, then simulation of the first transaction. That transaction is built in place, given the blockhash and signed by the mint keypair. When `Number(decimals)` does not fit the decimals byte, the attempt stops after the rent request with the buffer's range error, before any blockhash is requested. Otherwise it stops at the first call that throws, and is otherwise `Uploaded`. |
| TokenCreation.TokenForm.AttemptSend | components/TokenForm.tsx:173-179 | After the simulation, the first transaction is sent with the mint keypair as extra signer, and the signature is recorded once it is sent. |
| TokenCreation.TokenForm.AttemptAccounts | components/TokenForm.tsx:181-217 | In order: send the associated-account transaction and confirm it, compute the supply (its error is thrown here), then send the mint-to transaction and confirm it. |
| TokenCreation.NewMintTransaction | components/TokenForm.tsx:127-169 | A fresh transaction holds the four mint instructions in order, with the wallet as fee payer and no blockhash or signature yet. |
| TokenCreation.MintTransaction | components/TokenForm.tsx:127-171 | The first transaction as simulated and sent: the four mint instructions, the wallet as fee payer, the fetched blockhash and the mint keypair's signature. |
| TokenCreation.AtaTransaction | components/TokenForm.tsx:190-198 | The second transaction: only the associated-account instruction, with no fee payer, blockhash or signature set before the wallet sends it. |
| TokenCreation.MintToTransaction | components/TokenForm.tsx:206-215 | The third transaction: only the mint-to instruction for the supply, with nothing else set before the wallet sends it. |
| TokenCreation.SignWithBlockhash | components/TokenForm.tsx:170-171 | Setting the blockhash and partially signing with the mint keypair leaves the transaction with exactly that blockhash and that one signer, and changes nothing else. |
| TokenCreation.Utf8Length | components/TokenForm.tsx:122 | A string's UTF-8 length is between one and four bytes per character. |
| TokenCreation.PackedLength | components/TokenForm.tsx:113-122 | `pack(metadata).length`: two 32-byte keys, then name, symbol and uri behind 4-byte lengths, then a 4-byte count of additional fields. |
| TokenCreation.MetadataLen | components/TokenForm.tsx:122 | `metadataLen` is the 4-byte TLV header plus the packed metadata. |
| TokenCreation.MetadataLenBounds | components/TokenForm.tsx:121-125 | The metadata entry takes between 84 + n and 84 + 4n bytes, for n characters of name, symbol and uri. |
| TokenCreation.MintInstructions | components/TokenForm.tsx:127-165 | The first transaction's four instructions, with the builders' arguments in call order. |
| TokenCreation.MintInstructionsShape | components/TokenForm.tsx:127-165 | The four instructions run in order: create account, metadata pointer, initialize mint, initialize metadata. All target the mint, and the metadata lives at the mint's own address. The account is funded with the given lamports and allocates `mintLen`. The wallet is mint, update and pointer authority. The toggle decides only the freeze authority: the wallet when on, none when off. |
| TokenCreation.WalletKey | components/TokenForm.tsx:182-187 | The connected wallet's key is on the curve, so its associated account can be derived. |
| TokenCreation.AtaInstruction | components/TokenForm.tsx:189-198 | The second transaction's instruction: the wallet pays for and owns the Token-2022 associated account of the mint. |
| TokenCreation.MintToInstruction | components/TokenForm.tsx:206-215 | The third transaction's instruction: mint the supply into that account, with the wallet as authority and no multisig signers. |
| TokenCreation.MintToTargetsCreatedAccount | components/TokenForm.tsx:182-215 | The mint-to destination is the Token-2022 associated account of (mint, wallet), the account the second transaction creates. |
| TokenCreation.BigIntOfNumber | components/TokenForm.tsx:204 | `BigInt(Number(decimals))` succeeds exactly on a whole number, and yields it. |
| TokenCreation.Supply | components/TokenForm.tsx:204-205 | The supply is `BigInt` of the total supply (an empty field read as "0") times ten to `BigInt(Number(decimals))`, or the error of the call that throws. |
| TokenCreation.SupplyOfWholeDecimals | components/TokenForm.tsx:204-205 | With whole decimals d, the supply is what `BigInt` reads from the total supply (empty meaning "0"), times `10^d`, or that call's error. |
| TokenCreation.SupplyDigits | components/TokenForm.tsx:204-205 | A digit-string supply (empty meaning 0) is minted as `value · 10^d`. |
| TokenCreation.SupplyRejects | components/TokenForm.tsx:204-205 | A supply with a point, a decimals field that is not a number, and a negative decimals field are each an error. |
| TokenCreation.SupplyExampleThousand | components/TokenForm.tsx:204-205 | "1000" at 6 decimals is 1000000000. |
| TokenCreation.SupplyExampleEmpty | components/TokenForm.tsx:204-205 | An empty supply mints 0. |
| TokenCreation.SupplyExampleFraction | components/TokenForm.tsx:204-205 | "1.5" makes `BigInt` throw. |
| TokenCreation.SupplyExampleText | components/TokenForm.tsx:204-205 | "abc" makes `BigInt` throw. |
| TokenCreation.CatchMessage | components/TokenForm.tsx:221-222 | The error shown for a thrown `Error` is its message. |
| TokenCreation.Submit | components/TokenForm.tsx:67-227 | The submit pipeline: the guards, then the upload and each later step, stopping at the first throw. |
| TokenCreation.PlannedCalls | components/TokenForm.tsx:85-216 | The ten calls of a submit whose every step succeeds, in order: upload, keypair, rent, blockhash, simulate, the three sends and two confirmations. |
| TokenCreation.SubmitGuards | components/TokenForm.tsx:74-83 | Without a wallet, or without an image URL, the submit only alerts. There is no upload, no error and no signature. |
| TokenCreation.UploadFailureStops | components/TokenForm.tsx:95-105 | A failed upload is the only call made, and its error reaches the catch block. No keypair, request or transaction follows. |
| TokenCreation.SubmitFollowsOrder | components/TokenForm.tsx:88-217 | Every submit past the guards makes a non-empty prefix of the ten planned calls, in order, so no step is skipped, repeated or reordered. It ends without error exactly when every reply succeeds, the decimals fit their byte and the supply is readable, and then it has made all ten calls. |
| TokenCreation.SignatureMeansMintSent | components/TokenForm.tsx:178-179 | The signature is shown exactly when the first transaction was sent, and it is that send's signature. |
| TokenCreation.DecimalsFitByte | components/TokenForm.tsx:111 | Whether `Number(decimals)` passes the range check of the unsigned byte `createInitializeMintInstruction` writes it into: NaN passes, and otherwise the value must lie in 0..255. |
| TokenCreation.DecimalsFitWhole | components/TokenForm.tsx:111 | A field of digits fits exactly when its value is at most 255, and a negative whole number never fits. |
| TokenCreation.DecimalsFitExamples | components/TokenForm.tsx:111 | The default "9" fits. |
| TokenCreation.DecimalsMisfitExamples | components/TokenForm.tsx:111 | "300" and "-1" do not fit. |
| TokenCreation.DecimalsRangeStops | components/TokenForm.tsx:125-170 | Decimals that do not fit their byte stop the submit after the keypair and the rent request, before the blockhash request. Nothing is sent, no signature is shown, and the error is the buffer's range error. |
| TokenCreation.SupplyErrorAfterAccounts | components/TokenForm.tsx:200-205 | A supply `BigInt` rejects is only found after the mint and its associated account were created and confirmed. The submit then shows the first signature and the `BigInt` error, and sends no mint-to. |
| TokenCreation.FullCallsShape | components/TokenForm.tsx:121-216 | Rent is requested for exactly `metadataLen` more bytes than the account allocates. The simulated transaction is the one sent. Only the first transaction is signed by the mint keypair and has the wallet as fee payer and a blockhash. The mint-to targets the created account. |
| TokenCreation.AfterUploadSteps | components/TokenForm.tsx:109-217 | After a good upload, the calls follow the plan from the keypair on, and end without error exactly when every later step succeeds. A signature exists exactly when more than five calls were made. |
| TokenCreation.AfterKeypairSteps | components/TokenForm.tsx:125-217 | From the rent request on, the calls follow the plan, and the run succeeds exactly when every later step does. |
| TokenCreation.AfterRentSteps | components/TokenForm.tsx:170-217 | From the blockhash on, the calls follow the plan, and the run succeeds exactly when every later step does. |
| TokenCreation.AfterSimulateSteps | components/TokenForm.tsx:173-217 | From the simulation on, the calls follow the plan, and the run succeeds exactly when every later step does. |
| TokenCreation.AfterMintSentSteps | components/TokenForm.tsx:178-217 | From the first send on, the calls follow the plan, and a signature exists exactly when the first send returned. |
| TokenCreation.AfterMintSteps | components/TokenForm.tsx:182-217 | From the associated account on, the calls follow the plan, and no signature is set there. |
| TokenCreation.AfterAtaSentSteps | components/TokenForm.tsx:200-217 | From the associated-account send on, the calls follow the plan. |
| TokenCreation.AfterAtaConfirmedSteps | components/TokenForm.tsx:201-217 | From the confirmation on, the calls follow the plan, and the run succeeds exactly when the supply is readable and the mint-to is sent and confirmed. |
| TokenCreation.AfterMintToSentSteps | components/TokenForm.tsx:216-217 | The mint-to send and its confirmation end the plan, and succeed exactly when both reply. |

`IsCreatePool` (used by `Post`) states the create-pool contract, app/api/pool/route.ts:59-105:

- The instruction has, in order: the CPMM program, the owner, the config at index 0, the pool authority, the pool id, mint A, mint B and the LP mint.
- The owner's associated accounts of (mint A), (mint B) and (LP mint) follow, all under the classic token program.
- Then come the two pool vaults, the pool-fee account, the token program twice and the observation account.
- The amounts are `coinAmount` and `pcAmount`, in that order.
- The opening time is `⌊nowMs / 1000⌋`.

## Left out

- The float round trip: `String(Number(amount))` is not modelled as floating point. JSON numbers are whole numbers, and a decimal numeral given as text is kept as written, which denotes the same value. The exponent notation and float artifacts that large or tiny amounts produce are not modelled.
- Number parsing: `Number(...)` recognises only `[-]digits[.digits]`. Whitespace, "+", hex, exponent and "Infinity" forms read as NaN.
- PoolRoute.Post: `explorerUrl` is modelled as what the link points at (`SolscanAccount(poolId, "devnet")`), not as its text, because addresses have no base58 text in the model.
- Base58 and the curve: whether a key's text is base58 of 32 bytes, and whether a key's bytes are a point of the ed25519 curve, are inputs (`KeyCodec`), not computed.
- PoolRoute.PublicKeyOf: a key given as a number and a key given as text are different terms even when they denote the same 32 bytes, and a negative number is read by its magnitude.
- Encodings: the byte layout of the instructions is not modelled. The u8 range check on the mint's decimals is modelled (`DecimalsFitByte`). The u64 encoding of the pool amounts and the mint-to amount, and its range check, are not, so amounts are unbounded integers.
- Js.Json: arrays and objects are not values of the model, so `PoolRoute.PublicKeyOf` and `Number` are not modelled on them. For example, `Number(["1.5"])` is 1.5, `Number({})` is NaN, and `new PublicKey([...])` reads an array as the key's bytes.
- Js.NumberOfString: reads a numeral exactly instead of rounding it to a double, and `TokenCreation.BigIntOfNumber` inherits this. So `"1.0000000000000000001"` is a non-whole number here, while `Number` rounds it to 1 and `BigInt` accepts it.
- PoolRoute.ScaleToBN: the `"0".repeat(count)` call has no length limit here. The engine throws a RangeError for a string longer than its limit (2^29 − 24 characters in V8), so `Post` answers 200 for, say, amount 0 with decimals 10^9, where the route answers 500.
- Addresses and wire format: address derivation (SHA-256, the off-curve search), instruction byte layouts and the base64 wire text are not modelled. Addresses and instructions are symbolic terms.
- Sizes: `getMintLen`, `TYPE_SIZE`, `LENGTH_SIZE` and `pack` are written out from the token-program layouts (165 + 1 + 2 + 2 + 64 bytes, 2, 2, and the Borsh layout of the metadata). They are not computed by the library.
- The metadata upload reply is its `ok` flag and the body's `uri`. A body that fails to parse as JSON or lacks `uri` is not modelled.
- Logging: `console.log` of errors and of simulation logs is not modelled. A simulation that returns an error inside its value without throwing is not distinguished from success, as in the source.
- Alerts are recorded as calls. Browser dialogs are not modelled.
- React state: updates are applied immediately and in order. React's batching and re-rendering are not modelled, and neither is the concurrency of two overlapping submits beyond the `isLoading` check.
- Error messages: those of `repeat`, `BigInt`, bn.js and `new PublicKey` approximate the engines' wording.
- `sendTransaction` of the wallet adapter fills in the fee payer and a blockhash for the second and third transactions. Those transactions are modelled as sent without them, as the code builds them.
- TokenCreation.TokenForm.HandleInputChange: requires the value to fit the key's declared type, although the handler accepts `unknown`. The record type only has fields of those types.
- TokenCreation.Numbers: `Number(decimals)`, its byte range check and the supply are read once per submit and passed along. All are pure, so this matches evaluating them where the source does. Each error is raised at the source's point: the range error after the rent request, and the supply's error after the associated account is confirmed.
- The pool program's requirement that mint A sort before mint B is not checked by the code and not modelled. The route passes the mints as given.
- The repository describes the form's toggle as keeping or revoking the mint authority. The code passes the wallet as mint authority always, and the toggle chooses the freeze authority. The model follows the code (`TokenCreation.MintInstructionsShape`).
- Other files: `components/LiquidityForm.tsx` is floating-point estimates and a timer stub, and `components/PoolForm.tsx` is a timer stub. `app/api/uploadMetaData/route.ts` is the metadata upload, which is an external service here. The pages and UI components are presentation. None of these is part of this model.
