/** The token-creation form (components/TokenForm.tsx): it edits a record of form fields and, on
    submit, uploads the token's metadata, creates a Token-2022 mint that carries its own metadata,
    creates the wallet's associated token account for it and mints the total supply there.

    The wallet, the metadata upload, the RPC connection and keypair generation are collaborators.
    Their replies are a script given to the submit handler (`Env`), and the handler returns the
    ordered list of calls it makes on them (`Call`), each transaction with the state it is sent in. */
module TokenCreation {
  import opened Digits
  import opened Js
  import opened Ledger

  // ---------------------------------------------------------------------------------------
  // The form record and handleInputChange

  datatype FormData = FormData(name: string, symbol: string, decimals: string, totalSupply: string,
                               mintAuthority: bool, description: string, imageUrl: string)

  /** The record the form starts with. */
  const InitialForm := FormData("", "", "9", "", true, "", "")

  datatype FormKey = Name | Symbol | Decimals | TotalSupply | MintAuthority | Description | ImageUrl

  datatype FieldValue = Text(text: string) | Flag(flag: bool)

  /** A value has the type the record declares for its field: a flag for `mintAuthority`, text otherwise. */
  predicate Fits(key: FormKey, value: FieldValue) {
    value.Flag? <==> key == MintAuthority
  }

  /** `form[key]` */
  function Get(form: FormData, key: FormKey): (v: FieldValue)
    ensures Fits(key, v)
  {
    match key
    case Name => Text(form.name)
    case Symbol => Text(form.symbol)
    case Decimals => Text(form.decimals)
    case TotalSupply => Text(form.totalSupply)
    case MintAuthority => Flag(form.mintAuthority)
    case Description => Text(form.description)
    case ImageUrl => Text(form.imageUrl)
  }

  /** `{ ...form, [key]: value }` */
  function Set(form: FormData, key: FormKey, value: FieldValue): FormData
    requires Fits(key, value)
  {
    match key
    case Name => form.(name := value.text)
    case Symbol => form.(symbol := value.text)
    case Decimals => form.(decimals := value.text)
    case TotalSupply => form.(totalSupply := value.text)
    case MintAuthority => form.(mintAuthority := value.flag)
    case Description => form.(description := value.text)
    case ImageUrl => form.(imageUrl := value.text)
  }

  /** An update changes the field it names to the value given, and no other field. */
  lemma SetGet(form: FormData, key: FormKey, value: FieldValue, other: FormKey)
    requires Fits(key, value)
    ensures Get(Set(form, key, value), key) == value
    ensures other != key ==> Get(Set(form, key, value), other) == Get(form, other)
  {
  }

  /** Writing back what a field holds leaves the record as it was. */
  lemma SetOwnValue(form: FormData, key: FormKey)
    ensures Set(form, key, Get(form, key)) == form
  {
  }

  // ---------------------------------------------------------------------------------------
  // Account sizes

  /** `getMintLen([ExtensionType.MetadataPointer])`: a 165-byte base account, one account-type
      byte, and a 2-byte type, 2-byte length and 64-byte metadata-pointer extension. */
  const MintLen: nat := 165 + 1 + 2 + 2 + 64

  /** `TYPE_SIZE` and `LENGTH_SIZE`: the type and length header of a TLV extension entry. */
  const TypeSize: nat := 2
  const LengthSize: nat := 2

  /** The number of bytes of the UTF-8 encoding of a string. */
  function Utf8Length(s: string): (n: nat)
    ensures |s| <= n <= 4 * |s|
  {
    if s == [] then 0
    else
      var c := s[0] as int;
      (if c < 0x80 then 1 else if c < 0x800 then 2 else if c < 0x10000 then 3 else 4) + Utf8Length(s[1..])
  }

  /** `pack(metadata).length` for metadata without additional fields: update authority and mint,
      32 bytes each, then name, symbol and uri, each behind a 4-byte length, then a 4-byte count
      of the (empty) additional metadata. */
  function PackedLength(name: string, symbol: string, uri: string): nat {
    32 + 32 + (4 + Utf8Length(name)) + (4 + Utf8Length(symbol)) + (4 + Utf8Length(uri)) + 4
  }

  /** `metadataLen`: the metadata entry the mint's account must hold once the metadata is
      initialized. */
  function MetadataLen(name: string, symbol: string, uri: string): nat {
    TypeSize + LengthSize + PackedLength(name, symbol, uri)
  }

  /** The metadata entry takes 84 bytes plus one to four bytes per character of its text. */
  lemma MetadataLenBounds(name: string, symbol: string, uri: string)
    ensures 84 + |name| + |symbol| + |uri| <= MetadataLen(name, symbol, uri)
    ensures MetadataLen(name, symbol, uri) <= 84 + 4 * (|name| + |symbol| + |uri|)
  {
  }

  // ---------------------------------------------------------------------------------------
  // Supply

  /** `BigInt(x)` for a number; the message renders x as `String(Number(text))` does. */
  function BigIntOfNumber(x: JsNumber, text: string): (r: Result<int>)
    ensures r.Ok? <==> x.Finite? && x.integral
    ensures r.Ok? ==> r.value == x.whole
  {
    if x.Finite? && x.integral then Ok(x.whole)
    else Err("The number " + text + " cannot be converted to a BigInt because it is not an integer")
  }

  /** `BigInt(10) ** BigInt(Number(decimalsText))`, then `BigInt(totalSupply || "0")` times that. */
  function Supply(totalSupply: string, decimalsText: string): Result<int> {
    var decimals := NumberOfString(decimalsText);
    match BigIntOfNumber(decimals, NumberText(Str(decimalsText)))
    case Err(m) => Err(m)
    case Ok(d) =>
      if d < 0 then Err("Exponent must be positive")
      else match ParseBigInt(if totalSupply != "" then totalSupply else "0")
        case Err(m) => Err(m)
        case Ok(amount) => Ok(amount * Pow10(d))
  }

  /** With a whole decimals field d, the supply is whatever `BigInt` reads from the total supply,
      times 10^d. */
  lemma SupplyOfWholeDecimals(totalSupply: string, decimalsText: string)
    requires AllDigits(decimalsText) && decimalsText != ""
    ensures var parsed := ParseBigInt(if totalSupply != "" then totalSupply else "0");
      Supply(totalSupply, decimalsText) ==
        if parsed.Ok? then Ok(parsed.value * Pow10(Value(decimalsText))) else Err(parsed.message)
  {
    DigitsExclude(decimalsText, '.');
    DigitsExclude(decimalsText, '-');
    assert decimalsText[0] != '-';
    SplitPiece(decimalsText, [], '.');
    assert IsDecimalText(decimalsText);
    assert NumberOfString(decimalsText) == Finite(Value(decimalsText), true);
  }

  /** A whole number of tokens (an empty field counting as none) is minted as that number times
      10^decimals base units. */
  lemma SupplyDigits(totalSupply: string, decimalsText: string, d: nat)
    requires AllDigits(totalSupply) && AllDigits(decimalsText) && decimalsText != "" && Value(decimalsText) == d
    ensures Supply(totalSupply, decimalsText) == Ok(Value(totalSupply) * Pow10(d))
  {
    SupplyOfWholeDecimals(totalSupply, decimalsText);
    if totalSupply == "" {
      assert Value("0") == 0 by { assert "0"[..0] == ""; }
    }
  }

  /** A total supply with a point or other non-digit text makes `BigInt` throw; so does a
      decimals field that is not a whole number, or a negative one. */
  lemma SupplyRejects(totalSupply: string, decimalsText: string)
    ensures '.' in totalSupply ==> Supply(totalSupply, decimalsText).Err?
    ensures NumberOfString(decimalsText).NaN? ==> Supply(totalSupply, decimalsText).Err?
    ensures NumberOfString(decimalsText).Finite? && NumberOfString(decimalsText).whole < 0 ==>
            Supply(totalSupply, decimalsText).Err?
  {
  }

  /** 1000 tokens of 6 decimals are 10^9 base units. */
  lemma SupplyExampleThousand()
    ensures Supply("1000", "6") == Ok(1000000000)
  {
    assert Value("6") == 6 by { assert "6"[..0] == ""; }
    assert Value("1000") == 1000 by {
      assert "1000"[..3] == "100" && "100"[..2] == "10" && "10"[..1] == "1" && "1"[..0] == "";
    }
    assert Pow10(6) == 1000000 by {
      assert Pow10(2) == 100;
      assert Pow10(4) == 10000;
    }
    SupplyDigits("1000", "6", 6);
  }

  /** An empty total supply mints nothing. */
  lemma SupplyExampleEmpty()
    ensures Supply("", "9") == Ok(0)
  {
    assert Value("9") == 9 by { assert "9"[..0] == ""; }
    SupplyDigits("", "9", 9);
  }

  /** "1.5" tokens make `BigInt` throw. */
  lemma SupplyExampleFraction()
    ensures Supply("1.5", "6") == Err("Cannot convert 1.5 to a BigInt")
  {
    assert ParseBigInt("1.5") == Err("Cannot convert 1.5 to a BigInt") by {
      assert !IsDigit("1.5"[1]);
    }
    SupplyOfWholeDecimals("1.5", "6");
  }

  /** "abc" tokens make `BigInt` throw. */
  lemma SupplyExampleText()
    ensures Supply("abc", "6") == Err("Cannot convert abc to a BigInt")
  {
    assert ParseBigInt("abc") == Err("Cannot convert abc to a BigInt") by {
      assert !IsDigit("abc"[0]);
    }
    SupplyOfWholeDecimals("abc", "6");
  }

  // ---------------------------------------------------------------------------------------
  // The decimals byte

  /** What the buffer throws when `createInitializeMintInstruction` writes a value outside 0..255
      into the decimals byte. */
  const DecimalsRangeMessage := "\"value\" argument is out of bounds"

  /** Whether `Number(text)` passes the range check of the unsigned byte the decimals are written
      into: it must lie in 0..255, and NaN is not checked. A value strictly between -1 and 1 is
      told apart by the sign of the text, since its whole part is 0 either way. */
  predicate DecimalsFitByte(text: string) {
    var x := NumberOfString(text);
    x.NaN? ||
    (0 <= x.whole <= 255 && !(x.whole == 0 && !x.integral && |text| > 0 && text[0] == '-') &&
     !(x.whole == 255 && !x.integral))
  }

  /** A whole decimals field fits exactly when it is at most 255; a negative one never fits. */
  lemma DecimalsFitWhole(digits: string)
    requires AllDigits(digits) && digits != ""
    ensures DecimalsFitByte(digits) <==> Value(digits) <= 255
    ensures Value(digits) > 0 ==> !DecimalsFitByte("-" + digits)
  {
    NumberOfDigits(digits);
    DigitsExclude(digits, '.');
    SplitPiece(digits, [], '.');
    assert ("-" + digits)[1..] == digits;
  }

  /** The form's default "9" fits. */
  lemma DecimalsFitExamples()
    ensures DecimalsFitByte("9")
  {
    assert Value("9") == 9 by { assert "9"[..0] == ""; }
    DecimalsFitWhole("9");
  }

  /** "300" and "-1" do not fit. */
  lemma DecimalsMisfitExamples()
    ensures !DecimalsFitByte("300") && !DecimalsFitByte("-1")
  {
    assert Value("300") == 300 by { assert "300"[..2] == "30" && "30"[..1] == "3" && "3"[..0] == ""; }
    DecimalsFitWhole("300");
    assert Value("1") == 1 by { assert "1"[..0] == ""; }
    assert "-1" == "-" + "1";
    DecimalsFitWhole("1");
  }

  // ---------------------------------------------------------------------------------------
  // The instructions

  const Token2022 := Program(Token2022Program)

  /** The four instructions of the first transaction, in order: create the mint's account,
      point its metadata at itself, initialize the mint, initialize the metadata. */
  function MintInstructions(payer: Address, mint: Address, lamports: nat, decimals: JsNumber,
                            freezeToggle: bool, name: string, symbol: string, uri: string): seq<Instruction>
  {
    [CreateAccount(payer, mint, MintLen, lamports, Token2022),
     InitializeMetadataPointer(mint, Some(payer), Some(mint), Token2022),
     InitializeMint(mint, decimals, payer, if freezeToggle then Some(payer) else None, Token2022),
     InitializeTokenMetadata(Token2022, mint, payer, mint, payer, name, symbol, uri)]
  }

  /** The first transaction creates and initializes one Token-2022 mint: every instruction targets
      it, its metadata lives at the mint's own address, the wallet is mint authority, update
      authority and pointer authority, and the form's toggle only decides the freeze authority. */
  lemma MintInstructionsShape(payer: Address, mint: Address, lamports: nat, decimals: JsNumber,
                              freezeToggle: bool, name: string, symbol: string, uri: string)
    ensures var ixs := MintInstructions(payer, mint, lamports, decimals, freezeToggle, name, symbol, uri);
      |ixs| == 4 &&
      ixs[0].CreateAccount? && ixs[1].InitializeMetadataPointer? && ixs[2].InitializeMint? &&
      ixs[3].InitializeTokenMetadata? &&
      ixs[0].newAccount == ixs[1].mint == ixs[2].mint == ixs[3].mint == mint &&
      ixs[1].metadataAddress == Some(mint) && ixs[3].metadata == mint &&
      ixs[0].owner == ixs[1].program == ixs[2].program == ixs[3].program == Token2022 &&
      ixs[0].from == payer && ixs[0].space == MintLen && ixs[0].lamports == lamports &&
      ixs[2].decimals == decimals && ixs[2].mintAuthority == payer &&
      (ixs[2].freezeAuthority == Some(payer) <==> freezeToggle) &&
      (ixs[2].freezeAuthority == None <==> !freezeToggle) &&
      ixs[3].mintAuthority == payer && ixs[3].updateAuthority == payer
  {
  }

  /** The connected wallet's public key. A wallet holds a keypair, so its key is on the curve. */
  function WalletKey(wallet: string): (k: Address)
    ensures OnCurve(k)
  {
    Key(Base58(wallet), true)
  }

  /** The second transaction: the wallet's Token-2022 associated account for the mint. */
  function AtaInstruction(payer: Address, mint: Address): Instruction
    requires OnCurve(payer)
  {
    CreateAssociatedTokenAccount(payer, AssociatedTokenAddress(mint, payer, false, Token2022).value, payer, mint,
                                 Token2022, Program(AssociatedTokenProgram))
  }

  /** The third transaction: mint the supply into that associated account. */
  function MintToInstruction(payer: Address, mint: Address, supply: int): Instruction
    requires OnCurve(payer)
  {
    MintTo(mint, AssociatedTokenAddress(mint, payer, false, Token2022).value, payer, supply, [], Token2022)
  }

  /** The supply is minted into exactly the account the second transaction creates. */
  lemma MintToTargetsCreatedAccount(payer: Address, mint: Address, supply: int)
    requires OnCurve(payer)
    ensures var create, mintTo := AtaInstruction(payer, mint), MintToInstruction(payer, mint, supply);
      mintTo.destination == create.associatedToken && mintTo.mint == create.mint == mint &&
      create.owner == payer && mintTo.mintToAuthority == payer &&
      create.associatedToken == AssociatedToken(mint, payer, Token2022) && mintTo.multiSigners == []
  {
  }

  // ---------------------------------------------------------------------------------------
  // Collaborators

  /** A value a collaborator can throw: an `Error` object, or anything else. */
  datatype Thrown = ErrorObject(message: string) | OtherValue

  /** What a collaborator call does: return a value or throw. */
  datatype Reply<T> = Returns(value: T) | Throws(thrown: Thrown)

  /** The reply of the metadata upload: the response's `ok` flag and the `uri` of its JSON body. */
  datatype UploadResponse = UploadResponse(ok: bool, uri: string)

  /** The script of collaborator replies one submit meets. `wallet` is the connected wallet's
      public key, as base58 text; `mintSeed` stands for the keypair `Keypair.generate` returns. */
  datatype Env = Env(wallet: Option<string>, upload: Reply<UploadResponse>, mintSeed: nat,
                     rent: Reply<nat>, blockhash: Reply<string>, simulate: Reply<()>,
                     sendMint: Reply<string>, sendAta: Reply<string>, confirmAta: Reply<()>,
                     sendMintTo: Reply<string>, confirmMintTo: Reply<()>)

  /** The calls a submit makes, in order. */
  datatype Call =
    | Alert(message: string)
    | UploadMetadata(name: string, symbol: string, description: string, image: string)
    | GenerateKeypair
    | RequestRent(size: nat)                       // getMinimumBalanceForRentExemption
    | RequestBlockhash                             // getLatestBlockhash
    | Simulate(tx: TxState)                        // simulateTransaction
    | Send(tx: TxState, signers: seq<Address>)     // the wallet's sendTransaction
    | Confirm(signature: string)                   // confirmTransaction

  const WalletMissingMessage := "Please connect your wallet."
  const ImageMissingMessage := "Please provide an image URL"
  const UploadFailedMessage := "Failed to upload metadata."
  const FallbackMessage := "Token creation failed"

  /** What the catch block shows for a thrown value. */
  function CatchMessage(t: Thrown): (m: string)
    ensures t.ErrorObject? ==> m == t.message
  {
    if t.ErrorObject? then t.message else FallbackMessage
  }

  // ---------------------------------------------------------------------------------------
  // The submit pipeline

  /** The end of one submit: the calls made, the value that reached the catch block if any,
      and the signature of the first transaction if it was sent. */
  datatype Run = Run(calls: seq<Call>, failure: Option<Thrown>, signature: Option<string>)

  function Then(calls: seq<Call>, rest: Run): Run {
    rest.(calls := calls + rest.calls)
  }

  function Fail(t: Thrown): Run {
    Run([], Some(t), None)
  }

  /** The first transaction as it is simulated and sent: the four instructions, the wallet as fee
      payer, the fetched blockhash and the mint keypair's signature. */
  function MintTransaction(form: FormData, decimals: JsNumber, payer: Address, mint: Address, uri: string,
                           lamports: nat, blockhash: string): TxState
  {
    TxState(MintInstructions(payer, mint, lamports, decimals, form.mintAuthority,
                             form.name, form.symbol, uri),
            Some(payer), Some(blockhash), [mint])
  }

  function AtaTransaction(payer: Address, mint: Address): TxState
    requires OnCurve(payer)
  {
    TxState([AtaInstruction(payer, mint)], None, None, [])
  }

  function MintToTransaction(payer: Address, mint: Address, supply: int): TxState
    requires OnCurve(payer)
  {
    TxState([MintToInstruction(payer, mint, supply)], None, None, [])
  }

  /** What the submit reads from the form's numbers: `Number(decimals)`, given to the mint,
      whether that number passes the range check of the byte it is written into, and the supply,
      `BigInt(totalSupply || "0")` times ten to those decimals. All are pure, so they are read here
      once; the submit looks at each only where the source computes it. */
  datatype FormNumbers = FormNumbers(decimals: JsNumber, decimalsFit: bool, supply: Result<int>)

  function Numbers(form: FormData): FormNumbers {
    FormNumbers(NumberOfString(form.decimals), DecimalsFitByte(form.decimals),
                Supply(form.totalSupply, form.decimals))
  }

  /** The calls of a submit whose every step succeeds, in order. On a path that stops early, the
      replies it never reaches are read as a default value. */
  function FullCalls(form: FormData, env: Env): (calls: seq<Call>)
    requires env.wallet.Some?
    ensures |calls| == 10
  {
    PlannedCalls(form, env, Numbers(form))
  }

  /** The full sequence with the form's numbers given. */
  function PlannedCalls(form: FormData, env: Env, n: FormNumbers): (calls: seq<Call>)
    requires env.wallet.Some?
    ensures |calls| == 10
  {
    var payer := WalletKey(env.wallet.value);
    var uri := if env.upload.Returns? then env.upload.value.uri else "";
    var mint := Generated(env.mintSeed);
    var supply := n.supply;
    var tx := MintTransaction(form, n.decimals, payer, mint, uri, ValueOr(env.rent, 0), ValueOr(env.blockhash, ""));
    [UploadMetadata(form.name, form.symbol, form.description, form.imageUrl),
     GenerateKeypair,
     RequestRent(MintLen + MetadataLen(form.name, form.symbol, uri)),
     RequestBlockhash,
     Simulate(tx),
     Send(tx, [mint]),
     Send(AtaTransaction(payer, mint), []),
     Confirm(ValueOr(env.sendAta, "")),
     Send(MintToTransaction(payer, mint, if supply.Ok? then supply.value else 0), []),
     Confirm(ValueOr(env.sendMintTo, ""))]
  }

  function ValueOr<T>(r: Reply<T>, default: T): T {
    if r.Returns? then r.value else default
  }

  predicate IsPrefix(a: seq<Call>, b: seq<Call>) {
    |a| <= |b| && a == b[..|a|]
  }

  /** Calls that match the whole from position k on, followed by a prefix of what comes after
      them, are a prefix of the whole from position k. */
  lemma PrefixThen(c: seq<Call>, r: seq<Call>, whole: seq<Call>, k: nat)
    requires k + |c| <= |whole| && c == whole[k..k + |c|] && IsPrefix(r, whole[k + |c|..])
    ensures IsPrefix(c + r, whole[k..])
  {
    assert c + r == whole[k..][..|c| + |r|];
  }

  /** `handleSubmit` from the wallet check on, for a submit that is not already loading. */
  function Submit(form: FormData, env: Env): Run {
    if env.wallet.None? then Run([Alert(WalletMissingMessage)], None, None)
    else if form.imageUrl == "" then Run([Alert(ImageMissingMessage)], None, None)
    else Then([UploadMetadata(form.name, form.symbol, form.description, form.imageUrl)],
              AfterUpload(form, env, Numbers(form)))
  }

  // Each step of the submit, from the upload on, as a function of the replies it meets.

  function AfterUpload(form: FormData, env: Env, n: FormNumbers): Run
    requires env.wallet.Some?
  {
    match env.upload
    case Throws(t) => Fail(t)
    case Returns(response) =>
      if !response.ok then Fail(ErrorObject(UploadFailedMessage)) else Uploaded(form, env, n)
  }

  function Uploaded(form: FormData, env: Env, n: FormNumbers): Run
    requires env.wallet.Some? && env.upload.Returns? && env.upload.value.ok
  {
    Then([GenerateKeypair, RequestRent(MintLen + MetadataLen(form.name, form.symbol, env.upload.value.uri))],
         AfterKeypair(form, env, n))
  }

  function AfterKeypair(form: FormData, env: Env, n: FormNumbers): Run
    requires env.wallet.Some? && env.upload.Returns? && env.upload.value.ok
  {
    match env.rent
    case Throws(t) => Fail(t)
    case Returns(_) =>
      // createInitializeMintInstruction throws while the first transaction is built
      if !n.decimalsFit then Fail(ErrorObject(DecimalsRangeMessage))
      else Then([RequestBlockhash], AfterRent(form, env, n))
  }

  function AfterRent(form: FormData, env: Env, n: FormNumbers): Run
    requires env.wallet.Some? && env.upload.Returns? && env.upload.value.ok && env.rent.Returns?
  {
    match env.blockhash
    case Throws(t) => Fail(t)
    case Returns(blockhash) =>
      var tx := MintTransaction(form, n.decimals, WalletKey(env.wallet.value), Generated(env.mintSeed), env.upload.value.uri,
                                env.rent.value, blockhash);
      Then([Simulate(tx)], AfterSimulate(form, env, n, tx))
  }

  function AfterSimulate(form: FormData, env: Env, n: FormNumbers, tx: TxState): Run
    requires env.wallet.Some?
  {
    match env.simulate
    case Throws(t) => Fail(t)
    case Returns(_) => Then([Send(tx, [Generated(env.mintSeed)])], AfterMintSent(form, env, n))
  }

  function AfterMintSent(form: FormData, env: Env, n: FormNumbers): Run
    requires env.wallet.Some?
  {
    match env.sendMint
    case Throws(t) => Fail(t)
    case Returns(signature) => AfterMint(form, env, n).(signature := Some(signature))
  }

  function AfterMint(form: FormData, env: Env, n: FormNumbers): Run
    requires env.wallet.Some?
  {
    Then([Send(AtaTransaction(WalletKey(env.wallet.value), Generated(env.mintSeed)), [])], AfterAtaSent(form, env, n))
  }

  function AfterAtaSent(form: FormData, env: Env, n: FormNumbers): Run
    requires env.wallet.Some?
  {
    match env.sendAta
    case Throws(t) => Fail(t)
    case Returns(signature) => Then([Confirm(signature)], AfterAtaConfirmed(form, env, n))
  }

  function AfterAtaConfirmed(form: FormData, env: Env, n: FormNumbers): Run
    requires env.wallet.Some?
  {
    match env.confirmAta
    case Throws(t) => Fail(t)
    case Returns(_) =>
      match n.supply
      case Err(m) => Fail(ErrorObject(m))
      case Ok(supply) =>
        Then([Send(MintToTransaction(WalletKey(env.wallet.value), Generated(env.mintSeed), supply), [])],
             AfterMintToSent(form, env, n))
  }

  function AfterMintToSent(form: FormData, env: Env, n: FormNumbers): Run
    requires env.wallet.Some?
  {
    match env.sendMintTo
    case Throws(t) => Fail(t)
    case Returns(signature) =>
      match env.confirmMintTo
      case Throws(t) => Run([Confirm(signature)], Some(t), None)
      case Returns(_) => Run([Confirm(signature)], None, None)
  }

  // ---------------------------------------------------------------------------------------
  // Each step follows the full sequence

  /** A run from step k on makes its calls in the order of the full sequence from position k, and
      a run that ends without an error has made all of them. */
  predicate FollowsFrom(r: Run, form: FormData, env: Env, n: FormNumbers, k: nat)
    requires env.wallet.Some? && k <= 10
  {
    IsPrefix(r.calls, PlannedCalls(form, env, n)[k..]) && (r.failure.None? ==> |r.calls| == 10 - k)
  }

  /** The signature of a run is the first transaction's, present exactly when more than n calls
      were made. */
  predicate SignatureAfter(r: Run, env: Env, n: nat) {
    (r.signature.Some? <==> |r.calls| > n) &&
    (r.signature.Some? ==> env.sendMint.Returns? && r.signature.value == env.sendMint.value)
  }

  lemma AfterMintToSentSteps(form: FormData, env: Env, n: FormNumbers)
    requires env.wallet.Some?
    ensures var r := AfterMintToSent(form, env, n);
      FollowsFrom(r, form, env, n, 9) && r.signature == None &&
      (r.failure.None? <==> env.sendMintTo.Returns? && env.confirmMintTo.Returns?)
  {
  }

  lemma AfterAtaConfirmedSteps(form: FormData, env: Env, n: FormNumbers)
    requires env.wallet.Some?
    ensures var r := AfterAtaConfirmed(form, env, n);
      FollowsFrom(r, form, env, n, 8) && r.signature == None &&
      (r.failure.None? <==> env.confirmAta.Returns? && n.supply.Ok? &&
                            env.sendMintTo.Returns? && env.confirmMintTo.Returns?)
  {
    AfterMintToSentSteps(form, env, n);
    if env.confirmAta.Returns? && n.supply.Ok? {
      var supply := n.supply.value;
      var tx := MintToTransaction(WalletKey(env.wallet.value), Generated(env.mintSeed), supply);
      PrefixThen([Send(tx, [])], AfterMintToSent(form, env, n).calls, PlannedCalls(form, env, n), 8);
    }
  }

  lemma AfterAtaSentSteps(form: FormData, env: Env, n: FormNumbers)
    requires env.wallet.Some?
    ensures var r := AfterAtaSent(form, env, n);
      FollowsFrom(r, form, env, n, 7) && r.signature == None &&
      (r.failure.None? <==> env.sendAta.Returns? && env.confirmAta.Returns? &&
                            n.supply.Ok? &&
                            env.sendMintTo.Returns? && env.confirmMintTo.Returns?)
  {
    AfterAtaConfirmedSteps(form, env, n);
    if env.sendAta.Returns? {
      PrefixThen([Confirm(env.sendAta.value)], AfterAtaConfirmed(form, env, n).calls, PlannedCalls(form, env, n), 7);
    }
  }

  lemma AfterMintSteps(form: FormData, env: Env, n: FormNumbers)
    requires env.wallet.Some?
    ensures var r := AfterMint(form, env, n);
      FollowsFrom(r, form, env, n, 6) && |r.calls| > 0 && r.signature == None &&
      (r.failure.None? <==> env.sendAta.Returns? && env.confirmAta.Returns? &&
                            n.supply.Ok? &&
                            env.sendMintTo.Returns? && env.confirmMintTo.Returns?)
  {
    AfterAtaSentSteps(form, env, n);
    var tx := AtaTransaction(WalletKey(env.wallet.value), Generated(env.mintSeed));
    PrefixThen([Send(tx, [])], AfterAtaSent(form, env, n).calls, PlannedCalls(form, env, n), 6);
  }

  lemma AfterMintSentSteps(form: FormData, env: Env, n: FormNumbers)
    requires env.wallet.Some?
    ensures var r := AfterMintSent(form, env, n);
      FollowsFrom(r, form, env, n, 6) && SignatureAfter(r, env, 0) &&
      (r.failure.None? <==> env.sendMint.Returns? && env.sendAta.Returns? && env.confirmAta.Returns? &&
                            n.supply.Ok? &&
                            env.sendMintTo.Returns? && env.confirmMintTo.Returns?)
  {
    AfterMintSteps(form, env, n);
  }

  lemma AfterSimulateSteps(form: FormData, env: Env, n: FormNumbers, tx: TxState)
    requires env.wallet.Some? && env.upload.Returns? && env.upload.value.ok && env.rent.Returns? &&
             n.decimalsFit && env.blockhash.Returns?
    requires tx == MintTransaction(form, n.decimals, WalletKey(env.wallet.value), Generated(env.mintSeed), env.upload.value.uri,
                                   env.rent.value, env.blockhash.value)
    ensures var r := AfterSimulate(form, env, n, tx);
      FollowsFrom(r, form, env, n, 5) && SignatureAfter(r, env, 1) && (r.failure.None? <==> Succeeds(env, n))
  {
    AfterMintSentSteps(form, env, n);
    if env.simulate.Returns? {
      assert PlannedCalls(form, env, n)[5] == Send(tx, [Generated(env.mintSeed)]);
      PrefixThen([Send(tx, [Generated(env.mintSeed)])], AfterMintSent(form, env, n).calls, PlannedCalls(form, env, n), 5);
    }
  }

  lemma AfterRentSteps(form: FormData, env: Env, n: FormNumbers)
    requires env.wallet.Some? && env.upload.Returns? && env.upload.value.ok && env.rent.Returns? && n.decimalsFit
    ensures var r := AfterRent(form, env, n);
      FollowsFrom(r, form, env, n, 4) && SignatureAfter(r, env, 2) && (r.failure.None? <==> Succeeds(env, n))
  {
    if env.blockhash.Returns? {
      var tx := MintTransaction(form, n.decimals, WalletKey(env.wallet.value), Generated(env.mintSeed), env.upload.value.uri,
                                env.rent.value, env.blockhash.value);
      AfterSimulateSteps(form, env, n, tx);
      PrefixThen([Simulate(tx)], AfterSimulate(form, env, n, tx).calls, PlannedCalls(form, env, n), 4);
    }
  }

  lemma AfterKeypairSteps(form: FormData, env: Env, n: FormNumbers)
    requires env.wallet.Some? && env.upload.Returns? && env.upload.value.ok
    ensures var r := AfterKeypair(form, env, n);
      FollowsFrom(r, form, env, n, 3) && SignatureAfter(r, env, 3) && (r.failure.None? <==> Succeeds(env, n))
  {
    if env.rent.Returns? && n.decimalsFit {
      AfterRentSteps(form, env, n);
      PrefixThen([RequestBlockhash], AfterRent(form, env, n).calls, PlannedCalls(form, env, n), 3);
    }
  }

  lemma AfterUploadSteps(form: FormData, env: Env, n: FormNumbers)
    requires env.wallet.Some?
    ensures var r := AfterUpload(form, env, n);
      FollowsFrom(r, form, env, n, 1) && SignatureAfter(r, env, 5) && (r.failure.None? <==> Succeeds(env, n))
  {
    if env.upload.Returns? && env.upload.value.ok {
      AfterKeypairSteps(form, env, n);
      var c := [GenerateKeypair, RequestRent(MintLen + MetadataLen(form.name, form.symbol, env.upload.value.uri))];
      PrefixThen(c, AfterKeypair(form, env, n).calls, PlannedCalls(form, env, n), 1);
    }
  }

  /** Every step of a submit replies, the decimals fit their byte, and the supply is readable. */
  predicate Succeeds(env: Env, n: FormNumbers) {
    env.upload.Returns? && env.upload.value.ok && env.rent.Returns? && n.decimalsFit && env.blockhash.Returns? &&
    env.simulate.Returns? && env.sendMint.Returns? && env.sendAta.Returns? && env.confirmAta.Returns? &&
    n.supply.Ok? && env.sendMintTo.Returns? && env.confirmMintTo.Returns?
  }

  /** Every step of a submit replies, and the decimals and supply fields are usable. */
  predicate AllSucceed(form: FormData, env: Env) {
    Succeeds(env, Numbers(form))
  }

  /** Without a wallet, or without an image URL, a submit only alerts: no upload, no error shown,
      no signature. */
  lemma SubmitGuards(form: FormData, env: Env)
    ensures env.wallet.None? ==> Submit(form, env) == Run([Alert(WalletMissingMessage)], None, None)
    ensures env.wallet.Some? && form.imageUrl == "" ==>
      Submit(form, env) == Run([Alert(ImageMissingMessage)], None, None)
  {
  }

  /** A failed upload stops the submit before any keypair, request or transaction: the upload is
      the only call, and what it threw, or the upload-failure error, reaches the catch block. */
  lemma UploadFailureStops(form: FormData, env: Env)
    requires env.wallet.Some? && form.imageUrl != ""
    requires env.upload.Throws? || !env.upload.value.ok
    ensures var run := Submit(form, env);
      run.calls == [UploadMetadata(form.name, form.symbol, form.description, form.imageUrl)] &&
      run.signature == None &&
      run.failure == Some(if env.upload.Throws? then env.upload.thrown else ErrorObject(UploadFailedMessage))
  {
  }

  /** Every submit that passes the guards makes its calls in the order of the full sequence and
      stops somewhere along it: no step is skipped, repeated or reordered on any path. It ends
      without an error exactly when every step succeeds, and then it has made all ten calls. */
  lemma SubmitFollowsOrder(form: FormData, env: Env)
    requires env.wallet.Some? && form.imageUrl != ""
    ensures var run := Submit(form, env);
      1 <= |run.calls| <= 10 && run.calls == FullCalls(form, env)[..|run.calls|]
    ensures Submit(form, env).failure.None? <==> AllSucceed(form, env)
    ensures AllSucceed(form, env) ==> Submit(form, env).calls == FullCalls(form, env)
  {
    var n := Numbers(form);
    var full := PlannedCalls(form, env, n);
    AfterUploadSteps(form, env, n);
    PrefixThen([full[0]], AfterUpload(form, env, n).calls, full, 0);
  }

  /** The signature shown is the first transaction's, and it is shown exactly when that
      transaction was sent: the six calls up to and including that send were all made. */
  lemma SignatureMeansMintSent(form: FormData, env: Env)
    requires env.wallet.Some? && form.imageUrl != ""
    ensures var run := Submit(form, env);
      (run.signature.Some? <==> |run.calls| > 6) &&
      (run.signature.Some? ==> env.sendMint.Returns? && run.signature == Some(env.sendMint.value))
  {
    AfterUploadSteps(form, env, Numbers(form));
  }

  /** The supply is read only after the mint and its associated account exist: a total supply
      `BigInt` rejects leaves a created mint and account, shows the first signature and the
      `BigInt` error, and sends no mint-to transaction. */
  lemma SupplyErrorAfterAccounts(form: FormData, env: Env)
    requires env.wallet.Some? && form.imageUrl != ""
    requires env.upload.Returns? && env.upload.value.ok && env.rent.Returns? && env.blockhash.Returns?
    requires env.simulate.Returns? && env.sendMint.Returns? && env.sendAta.Returns? && env.confirmAta.Returns?
    requires DecimalsFitByte(form.decimals) && Supply(form.totalSupply, form.decimals).Err?
    ensures var run := Submit(form, env);
      run.calls == FullCalls(form, env)[..8] && run.signature == Some(env.sendMint.value) &&
      run.failure == Some(ErrorObject(Supply(form.totalSupply, form.decimals).message))
  {
    SubmitFollowsOrder(form, env);
    var n := Numbers(form);
    var tx := MintTransaction(form, n.decimals, WalletKey(env.wallet.value), Generated(env.mintSeed), env.upload.value.uri,
                              env.rent.value, env.blockhash.value);
    assert |AfterAtaConfirmed(form, env, n).calls| == 0;
    assert |AfterMintSent(form, env, n).calls| == 2;
    assert |AfterSimulate(form, env, n, tx).calls| == 3;
    assert |AfterKeypair(form, env, n).calls| == 5;
  }

  /** Decimals outside the byte's range stop the submit while the first transaction is built:
      after the keypair and the rent request, before the blockhash request, with nothing sent,
      no signature and the buffer's range error. */
  lemma DecimalsRangeStops(form: FormData, env: Env)
    requires env.wallet.Some? && form.imageUrl != ""
    requires env.upload.Returns? && env.upload.value.ok && env.rent.Returns?
    requires !DecimalsFitByte(form.decimals)
    ensures var run := Submit(form, env);
      run.calls == FullCalls(form, env)[..3] && run.signature == None &&
      run.failure == Some(ErrorObject(DecimalsRangeMessage))
  {
    SubmitFollowsOrder(form, env);
    UploadedOutOfRange(form, env, Numbers(form));
  }

  /** Past the rent request, decimals out of range end the run with the range error. */
  lemma UploadedOutOfRange(form: FormData, env: Env, n: FormNumbers)
    requires env.wallet.Some? && env.upload.Returns? && env.upload.value.ok && env.rent.Returns?
    requires !n.decimalsFit
    ensures var r := Uploaded(form, env, n);
      |r.calls| == 2 && r.signature == None && r.failure == Some(ErrorObject(DecimalsRangeMessage))
  {
  }

  /** The full sequence funds the mint's account for the mint and its metadata entry but allocates
      only the mint: the rent is requested for exactly `metadataLen` bytes more than the space.
      Only the first transaction is signed by the mint keypair, with the wallet as fee payer and a
      fetched blockhash; the other two leave both to the wallet. The mint-to goes to the account
      the second transaction creates. This holds whatever the form's numbers are. */
  lemma FullCallsShape(form: FormData, env: Env, n: FormNumbers)
    requires env.wallet.Some? && env.upload.Returns?
    ensures var calls, payer := PlannedCalls(form, env, n), WalletKey(env.wallet.value);
      var mint, uri := Generated(env.mintSeed), env.upload.value.uri;
      calls[2].RequestRent? && calls[5].Send? && calls[6].Send? && calls[8].Send? &&
      calls[5].tx.instructions[0].CreateAccount? &&
      calls[2].size == calls[5].tx.instructions[0].space + MetadataLen(form.name, form.symbol, uri) &&
      calls[4] == Simulate(calls[5].tx) &&
      calls[5].signers == [mint] && calls[5].tx.signedBy == [mint] &&
      calls[5].tx.feePayer == Some(payer) && calls[5].tx.recentBlockhash.Some? &&
      calls[6].signers == [] && calls[8].signers == [] &&
      calls[6].tx.feePayer == None && calls[8].tx.feePayer == None &&
      calls[8].tx.instructions[0].destination == calls[6].tx.instructions[0].associatedToken
  {
  }

  /** The first transaction as built: a new `Transaction` with the four instructions added in
      order and the wallet set as fee payer, not yet given a blockhash or signed. */
  method NewMintTransaction(payer: Address, mint: Address, lamports: nat, decimals: JsNumber,
                            freezeToggle: bool, name: string, symbol: string, uri: string)
    returns (tx: Transaction)
    ensures fresh(tx)
    ensures tx.State() ==
      TxState(MintInstructions(payer, mint, lamports, decimals, freezeToggle, name, symbol, uri), Some(payer), None, [])
  {
    tx := new Transaction();
    tx.Add(CreateAccount(payer, mint, MintLen, lamports, Token2022));
    tx.Add(InitializeMetadataPointer(mint, Some(payer), Some(mint), Token2022));
    tx.Add(InitializeMint(mint, decimals, payer, if freezeToggle then Some(payer) else None, Token2022));
    tx.Add(InitializeTokenMetadata(Token2022, mint, payer, mint, payer, name, symbol, uri));
    tx.SetFeePayer(payer);
  }

  /** `tx.recentBlockhash = blockhash; tx.partialSign(signer)` on a transaction that has a fee
      payer and no signature yet: it ends up with that blockhash and exactly that signer. */
  method SignWithBlockhash(tx: Transaction, blockhash: string, signer: Address) returns (sent: TxState)
    requires tx.feePayer.Some? && tx.signedBy == []
    modifies tx
    ensures sent == tx.State() == old(tx.State()).(recentBlockhash := Some(blockhash), signedBy := [signer])
  {
    tx.SetRecentBlockhash(blockhash);
    tx.PartialSign(signer);
    sent := tx.State();
  }

  // ---------------------------------------------------------------------------------------
  // The form component

  /** The component's state: the form record and the three pieces of submit state. */
  class TokenForm {
    var formData: FormData
    var isLoading: bool
    var txSignature: Option<string>
    var submitError: Option<string>

    constructor ()
      ensures formData == InitialForm && !isLoading && txSignature == None && submitError == None
    {
      formData, isLoading, txSignature, submitError := InitialForm, false, None, None;
    }

    /** `handleInputChange(key, value)` */
    method HandleInputChange(key: FormKey, value: FieldValue)
      requires Fits(key, value)
      modifies this
      ensures formData == Set(old(formData), key, value)
      ensures isLoading == old(isLoading) && txSignature == old(txSignature) && submitError == old(submitError)
    {
      formData := Set(formData, key, value);
    }

    /** `handleSubmit`. A submit while one is loading does nothing; otherwise the submit runs to
        one of its exits, every one of which leaves it no longer loading, with the catch block's
        message as the error if something threw, and the first transaction's signature if it was
        sent. */
    method HandleSubmit(env: Env) returns (calls: seq<Call>)
      modifies this
      ensures old(isLoading) ==>
        calls == [] && formData == old(formData) && isLoading &&
        txSignature == old(txSignature) && submitError == old(submitError)
      ensures !old(isLoading) ==>
        var run := Submit(old(formData), env);
        calls == run.calls && formData == old(formData) && !isLoading && txSignature == run.signature &&
        submitError == (if run.failure.Some? then Some(CatchMessage(run.failure.value)) else None)
    {
      if isLoading {
        return [];
      }
      isLoading := true;
      submitError := None;
      txSignature := None;
      if env.wallet.None? {
        calls := [Alert(WalletMissingMessage)];
        isLoading := false;
        return;
      }
      if formData.imageUrl == "" {
        calls := [Alert(ImageMissingMessage)];
        isLoading := false;
        return;
      }
      var failure;
      calls, failure := Attempt(env, Numbers(formData));
      if failure.Some? {
        submitError := Some(CatchMessage(failure.value));
        isLoading := false;
      } else {
        isLoading := false;
        submitError := None;
      }
    }

    /** The body of the `try` block after the guards: returns the calls made and the value thrown,
        if any, and sets the signature once the first transaction is sent. `numbers` holds what
        `Number(decimals)` and the supply expression evaluate to; each is used where the source
        evaluates it. */
    method Attempt(env: Env, numbers: FormNumbers) returns (calls: seq<Call>, failure: Option<Thrown>)
      requires env.wallet.Some? && txSignature == None
      modifies this
      ensures var run := Then([UploadMetadata(formData.name, formData.symbol, formData.description, formData.imageUrl)],
                              AfterUpload(formData, env, numbers));
        calls == run.calls && failure == run.failure && txSignature == run.signature
      ensures formData == old(formData) && isLoading == old(isLoading) && submitError == old(submitError)
    {
      calls := [UploadMetadata(formData.name, formData.symbol, formData.description, formData.imageUrl)];
      if env.upload.Throws? {
        return calls, Some(env.upload.thrown);
      }
      if !env.upload.value.ok {
        return calls, Some(ErrorObject(UploadFailedMessage));
      }
      var rest;
      rest, failure := AttemptMint(env, numbers);
      calls := calls + rest;
    }

    /** The `try` block from the keypair to the first transaction's send, after an upload that
        succeeded. */
    method AttemptMint(env: Env, numbers: FormNumbers) returns (calls: seq<Call>, failure: Option<Thrown>)
      requires env.wallet.Some? && env.upload.Returns? && env.upload.value.ok && txSignature == None
      modifies this
      ensures var run := Uploaded(formData, env, numbers);
        calls == run.calls && failure == run.failure && txSignature == run.signature
      ensures formData == old(formData) && isLoading == old(isLoading) && submitError == old(submitError)
    {
      var payer := WalletKey(env.wallet.value);
      var uri := env.upload.value.uri;
      calls := [GenerateKeypair];
      var mint := Generated(env.mintSeed);
      var mintDecimals := numbers.decimals;
      var metadataLen := TypeSize + LengthSize + PackedLength(formData.name, formData.symbol, uri);
      calls := calls + [RequestRent(MintLen + metadataLen)];
      if env.rent.Throws? {
        return calls, Some(env.rent.thrown);
      }
      var lamports := env.rent.value;
      if !numbers.decimalsFit {
        // createInitializeMintInstruction throws while the first transaction is built
        return calls, Some(ErrorObject(DecimalsRangeMessage));
      }

      var tx := NewMintTransaction(payer, mint, lamports, mintDecimals, formData.mintAuthority,
                                   formData.name, formData.symbol, uri);
      calls := calls + [RequestBlockhash];
      if env.blockhash.Throws? {
        return calls, Some(env.blockhash.thrown);
      }
      var sent := SignWithBlockhash(tx, env.blockhash.value, mint);
      assert sent == MintTransaction(formData, mintDecimals, payer, mint, uri, lamports, env.blockhash.value);
      calls := calls + [Simulate(sent)];
      var rest;
      rest, failure := AttemptSend(env, numbers, sent);
      calls := calls + rest;
    }

    /** The `try` block from the simulation of the signed first transaction on. */
    method AttemptSend(env: Env, numbers: FormNumbers, sent: TxState) returns (calls: seq<Call>, failure: Option<Thrown>)
      requires env.wallet.Some? && txSignature == None
      modifies this
      ensures formData == old(formData) && isLoading == old(isLoading) && submitError == old(submitError)
      ensures var run := AfterSimulate(formData, env, numbers, sent);
        calls == run.calls && failure == run.failure && txSignature == run.signature
    {
      var mint := Generated(env.mintSeed);
      calls := [];
      if env.simulate.Throws? {
        return calls, Some(env.simulate.thrown);
      }
      calls := calls + [Send(sent, [mint])];
      if env.sendMint.Throws? {
        return calls, Some(env.sendMint.thrown);
      }
      txSignature := Some(env.sendMint.value);
      var rest;
      rest, failure := AttemptAccounts(env, numbers);
      calls := calls + rest;
    }

    /** The `try` block from the associated account on. */
    method AttemptAccounts(env: Env, numbers: FormNumbers) returns (calls: seq<Call>, failure: Option<Thrown>)
      requires env.wallet.Some?
      ensures var run := AfterMint(formData, env, numbers);
        calls == run.calls && failure == run.failure
    {
      var payer, mint := WalletKey(env.wallet.value), Generated(env.mintSeed);
      var associatedToken := AssociatedTokenAddress(mint, payer, false, Token2022).value;
      var tx2 := new Transaction();
      tx2.Add(CreateAssociatedTokenAccount(payer, associatedToken, payer, mint, Token2022,
                                           Program(AssociatedTokenProgram)));
      assert tx2.State() == AtaTransaction(payer, mint);
      calls := [Send(tx2.State(), [])];
      if env.sendAta.Throws? {
        return calls, Some(env.sendAta.thrown);
      }
      calls := calls + [Confirm(env.sendAta.value)];
      if env.confirmAta.Throws? {
        return calls, Some(env.confirmAta.thrown);
      }

      var supply := numbers.supply;
      if supply.Err? {
        return calls, Some(ErrorObject(supply.message));
      }
      var tx3 := new Transaction();
      tx3.Add(MintTo(mint, associatedToken, payer, supply.value, [], Token2022));
      assert tx3.State() == MintToTransaction(payer, mint, supply.value);
      calls := calls + [Send(tx3.State(), [])];
      if env.sendMintTo.Throws? {
        return calls, Some(env.sendMintTo.thrown);
      }
      calls := calls + [Confirm(env.sendMintTo.value)];
      if env.confirmMintTo.Throws? {
        return calls, Some(env.confirmMintTo.thrown);
      }
      failure := None;
    }
  }
}
