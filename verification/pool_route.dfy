/** The pool-creation endpoint (`POST` of app/api/pool/route.ts): it checks the request, scales the
    two human-entered deposit amounts to base units, derives the pool's addresses, builds one
    Raydium CPMM create-pool instruction and returns it packaged in an unsigned transaction. */
module PoolRoute {
  import opened Digits
  import opened Js
  import opened Ledger

  // ---------------------------------------------------------------------------------------
  // scaleToBN

  /** What `const [i, f = ""] = s.split(".")` binds to `i`: the text before the first point. */
  function IntegerPart(s: string): (i: string)
    ensures '.' !in i
  {
    Split(s, '.')[0]
  }

  /** What `const [i, f = ""] = s.split(".")` binds to `f`: the text between the first point and
      the next one, or "" when there is no point. */
  function FractionPart(s: string): (f: string)
    ensures '.' !in f
  {
    var parts := Split(s, '.');
    if |parts| > 1 then parts[1] else ""
  }

  /** `(f + "0".repeat(count)).slice(0, count)`: the fraction right-padded or cut to `count` digits. */
  function PaddedFraction(f: string, count: nat): (r: string)
    ensures |r| == count
  {
    (f + Zeros(count))[..count]
  }

  /** `scaleToBN(amount, decimals)` applied to the text `s == String(amount)`: the integer digits
      followed by exactly `decimals` fraction digits, read as one whole number by bn.js.
      A negative digit count makes `repeat` throw. */
  function ScaleToBN(s: string, decimals: JsNumber): (r: Result<int>)
    ensures ToIntegerOrInfinity(decimals) < 0 ==> r.Err?
  {
    var count := ToIntegerOrInfinity(decimals);
    if count < 0 then Err("Invalid count value: " + IntText(count))
    else ParseBN(IntegerPart(s) + PaddedFraction(FractionPart(s), count))
  }

  /** The padded fraction is the fraction's value shifted to `count` places, cut off, not rounded. */
  lemma PaddedFractionValue(f: string, count: nat)
    requires AllDigits(f)
    ensures AllDigits(PaddedFraction(f, count))
    ensures Value(PaddedFraction(f, count)) == Value(f) * Pow10(count) / Pow10(|f|)
  {
    if |f| >= count {
      CutFractionValue(f, count);
    } else {
      PadFractionValue(f, count);
    }
  }

  lemma CutFractionValue(f: string, count: nat)
    requires AllDigits(f) && |f| >= count
    ensures AllDigits(PaddedFraction(f, count))
    ensures Value(PaddedFraction(f, count)) == Value(f) * Pow10(count) / Pow10(|f|)
  {
    assert PaddedFraction(f, count) == f[..count];
    ValuePrefix(f, count);
    Pow10Split(|f|, count);
    DivCancel(Value(f), Pow10(|f| - count), Pow10(count));
  }

  lemma Pow10Split(n: nat, k: nat)
    requires k <= n
    ensures Pow10(n) == Pow10(n - k) * Pow10(k)
  {
    Pow10Add(n - k, k);
  }

  lemma PadFractionValue(f: string, count: nat)
    requires AllDigits(f) && |f| < count
    ensures AllDigits(PaddedFraction(f, count))
    ensures Value(PaddedFraction(f, count)) == Value(f) * Pow10(count) / Pow10(|f|)
  {
    var z := Zeros(count - |f|);
    assert PaddedFraction(f, count) == f + z;
    ValueConcat(f, z);
    ZerosValue(count - |f|);
    var v, pz, pf := Value(f), Pow10(count - |f|), Pow10(|f|);
    Pow10Add(count - |f|, |f|);
    assert Pow10(count) == pz * pf;
    MulAssoc(v, pz, pf);
    DivModUnique(v * pz, pf, 0);
  }

  lemma MulAssoc(a: int, b: int, c: int)
    ensures a * (b * c) == (a * b) * c
  {
  }

  /** `i.f` with digit strings i and f splits into exactly i and f. */
  lemma SplitDecimal(i: string, f: string)
    requires AllDigits(i) && AllDigits(f)
    ensures IntegerPart(i + "." + f) == i && FractionPart(i + "." + f) == f
  {
    DigitsExclude(i, '.');
    DigitsExclude(f, '.');
    SplitPiece(i, f, '.');
    SplitPiece(f, [], '.');
  }

  /** A digit string without a point splits into itself and no fraction. */
  lemma SplitWhole(i: string)
    requires '.' !in i
    ensures IntegerPart(i) == i && FractionPart(i) == ""
  {
    SplitPiece(i, [], '.');
  }

  /** The integer digits followed by the padded fraction are all digits. */
  lemma ScaledDigits(i: string, f: string, d: nat)
    requires AllDigits(i) && AllDigits(f)
    ensures AllDigits(i + PaddedFraction(f, d))
  {
    var p := PaddedFraction(f, d);
    assert forall k :: 0 <= k < |p| ==> p[k] == (f + Zeros(d))[k];
  }

  /** The digits bn.js reads for `i.f`: i followed by the padded fraction. */
  lemma ScaledDigitsValue(i: string, f: string, d: nat)
    requires AllDigits(i) && AllDigits(f)
    ensures AllDigits(i + PaddedFraction(f, d))
    ensures Value(i + PaddedFraction(f, d)) == Value(i) * Pow10(d) + Value(f) * Pow10(d) / Pow10(|f|)
  {
    PaddedFractionValue(f, d);
    ValueConcat(i, PaddedFraction(f, d));
  }

  /** Scaling `i.f` to d decimals gives i * 10^d plus the first d fraction digits, padded with zeros. */
  lemma ScaleDecimal(i: string, f: string, decimals: JsNumber)
    requires AllDigits(i) && AllDigits(f) && ToIntegerOrInfinity(decimals) >= 0
    ensures var d := ToIntegerOrInfinity(decimals);
      ScaleToBN(i + "." + f, decimals) == Ok(Value(i) * Pow10(d) + Value(f) * Pow10(d) / Pow10(|f|))
  {
    var d := ToIntegerOrInfinity(decimals);
    SplitDecimal(i, f);
    var t := i + PaddedFraction(f, d);
    assert ScaleToBN(i + "." + f, decimals) == ParseBN(t);
    ScaledDigitsValue(i, f, d);
    var v := Value(i) * Pow10(d) + Value(f) * Pow10(d) / Pow10(|f|);
    assert Value(t) == v;
    ParseBNDigits(t);
    assert ParseBN(t) == Ok(Value(t));
  }

  /** `-i.f` splits into "-i" and f. */
  lemma SplitNegativeDecimal(i: string, f: string)
    requires AllDigits(i) && AllDigits(f)
    ensures IntegerPart("-" + i + "." + f) == "-" + i && FractionPart("-" + i + "." + f) == f
  {
    DigitsExclude(i, '.');
    DigitsExclude(f, '.');
    assert "-" + i + "." + f == ("-" + i) + "." + f;
    SplitPiece("-" + i, f, '.');
    SplitPiece(f, [], '.');
  }

  /** `i.f` scales to whatever value the digits i followed by the padded fraction have. */
  lemma DecimalRead(i: string, f: string, decimals: JsNumber, x: int)
    requires AllDigits(i) && AllDigits(f) && ToIntegerOrInfinity(decimals) >= 0
    requires AllDigits(i + PaddedFraction(f, ToIntegerOrInfinity(decimals)))
    requires Value(i + PaddedFraction(f, ToIntegerOrInfinity(decimals))) == x
    ensures ScaleToBN(i + "." + f, decimals) == Ok(x)
  {
    SplitDecimal(i, f);
    ScaleShape(i + "." + f, decimals);
    ParseBNDigits(i + PaddedFraction(f, ToIntegerOrInfinity(decimals)));
  }

  /** `-i.f` scales to minus whatever value the digits i followed by the padded fraction have. */
  lemma NegativeDecimalRead(i: string, f: string, decimals: JsNumber, x: int)
    requires AllDigits(i) && AllDigits(f) && ToIntegerOrInfinity(decimals) >= 0
    requires AllDigits(i + PaddedFraction(f, ToIntegerOrInfinity(decimals)))
    requires Value(i + PaddedFraction(f, ToIntegerOrInfinity(decimals))) == x
    ensures ScaleToBN("-" + i + "." + f, decimals) == Ok(-x)
  {
    SplitNegativeDecimal(i, f);
    ScaleShape("-" + i + "." + f, decimals);
    NegatedConcat(i, PaddedFraction(f, ToIntegerOrInfinity(decimals)), x);
  }

  /** scaleToBN reads the integer part followed by the padded fraction. */
  lemma ScaleShape(s: string, decimals: JsNumber)
    requires ToIntegerOrInfinity(decimals) >= 0
    ensures ScaleToBN(s, decimals) ==
            ParseBN(IntegerPart(s) + PaddedFraction(FractionPart(s), ToIntegerOrInfinity(decimals)))
  {
  }

  /** bn.js reads a minus sign followed by digits as the negated value. */
  lemma NegatedConcat(a: string, b: string, x: int)
    requires AllDigits(a + b) && Value(a + b) == x
    ensures ParseBN(("-" + a) + b) == Ok(-x)
  {
    var t := ("-" + a) + b;
    assert t[0] == '-' && t[1..] == a + b;
  }

  /** A digit string splits into itself and no fraction. */
  lemma SplitDigits(i: string)
    requires AllDigits(i)
    ensures IntegerPart(i) == i && FractionPart(i) == ""
  {
    DigitsExclude(i, '.');
    SplitWhole(i);
  }

  /** Scaling an amount written without a point multiplies it by 10^d. */
  lemma ScaleWhole(i: string, decimals: JsNumber)
    requires AllDigits(i) && ToIntegerOrInfinity(decimals) >= 0
    ensures ScaleToBN(i, decimals) == Ok(Value(i) * Pow10(ToIntegerOrInfinity(decimals)))
  {
    var d := ToIntegerOrInfinity(decimals);
    SplitDigits(i);
    var t := i + PaddedFraction("", d);
    assert ScaleToBN(i, decimals) == ParseBN(t);
    WholeDigitsValue(i, d);
    ParseBNDigits(t);
    assert ParseBN(t) == Ok(Value(t));
  }

  /** `-i` scales to minus whatever value the digits i followed by d zeros have. */
  lemma NegativeWholeRead(i: string, decimals: JsNumber, x: int)
    requires AllDigits(i) && ToIntegerOrInfinity(decimals) >= 0
    requires AllDigits(i + PaddedFraction("", ToIntegerOrInfinity(decimals)))
    requires Value(i + PaddedFraction("", ToIntegerOrInfinity(decimals))) == x
    ensures ScaleToBN("-" + i, decimals) == Ok(-x)
  {
    SplitNegativeWhole(i);
    ScaleShape("-" + i, decimals);
    NegatedConcat(i, PaddedFraction("", ToIntegerOrInfinity(decimals)), x);
  }

  /** Every whole amount `String` writes, negative ones included, scales to itself times 10^d. */
  lemma ScaleIntText(n: int, decimals: JsNumber)
    requires ToIntegerOrInfinity(decimals) >= 0
    ensures ScaleToBN(IntText(n), decimals) == Ok(n * Pow10(ToIntegerOrInfinity(decimals)))
  {
    var d := ToIntegerOrInfinity(decimals);
    var p := Pow10(d);
    if n < 0 {
      var m: nat := -n;
      assert IntText(n) == "-" + NatText(m);
      WholeDigitsValue(NatText(m), d);
      NegateProduct(n, m, p);
      NegativeWholeRead(NatText(m), decimals, -(n * p));
    } else {
      ScaleWhole(NatText(n), decimals);
    }
  }

  lemma NegateProduct(n: int, m: int, p: int)
    requires m == -n
    ensures -(m * p) == n * p
  {
  }

  /** The digits bn.js reads for a whole amount i: i followed by d zeros. */
  lemma WholeDigitsValue(i: string, d: nat)
    requires AllDigits(i)
    ensures AllDigits(i + PaddedFraction("", d))
    ensures Value(i + PaddedFraction("", d)) == Value(i) * Pow10(d)
  {
    assert PaddedFraction("", d) == Zeros(d);
    ZerosValue(d);
    ValueConcat(i, Zeros(d));
  }

  /** "-i" with a digit string i splits into itself and no fraction. */
  lemma SplitNegativeWhole(i: string)
    requires AllDigits(i)
    ensures IntegerPart("-" + i) == "-" + i && FractionPart("-" + i) == ""
  {
    DigitsExclude(i, '.');
    SplitWhole("-" + i);
  }

  lemma DivShift(a: nat, b: nat, q: nat)
    requires q > 0
    ensures (a * q + b) / q == a + b / q
  {
    DivModUnique(a + b / q, q, b % q);
    assert (a + b / q) * q + b % q == a * q + b;
  }

  /** Scaling the integer and fraction parts separately is dividing the scaled whole by 10^|f|. */
  lemma ShiftedFloor(a: nat, b: nat, p: nat, q: nat)
    requires q > 0
    ensures a * p + b * p / q == ((a * q + b) * p) / q
  {
    assert (a * q + b) * p == (a * p) * q + b * p;
    DivShift(a * p, b * p, q);
  }

  /** Scaling the integer part a and the fraction b (of q = 10^|f| digits) separately by p and
      truncating is dividing the whole scaled amount by q, which it brackets. */
  lemma TruncatedShift(a: nat, b: nat, p: nat, q: nat, r: int, v: nat)
    requires q > 0 && r == a * p + b * p / q && v == a * q + b
    ensures r == (v * p) / q && r * q <= v * p < (r + 1) * q
  {
    var exact := v * p;
    ShiftedFloor(a, b, p, q);
    assert exact == (exact / q) * q + exact % q;
    assert (r + 1) * q == r * q + q;
  }

  /** When p is k times q, dividing v * p by q gives v * k. */
  lemma ExactMultiple(v: nat, k: nat, p: nat, q: nat, r: int)
    requires q > 0 && p == k * q && r == (v * p) / q
    ensures r == v * k
  {
    assert v * p == (v * k) * q;
    DivModUnique(v * k, q, 0);
  }

  /** The scaled amount is the value of the digits of `i.f` times 10^d divided by 10^|f| and
      truncated, never rounded up; it is exact whenever the fraction has at most d digits. */
  lemma ScaleTruncates(i: string, f: string, decimals: JsNumber)
    requires AllDigits(i) && AllDigits(f) && ToIntegerOrInfinity(decimals) >= 0
    ensures var d := ToIntegerOrInfinity(decimals);
      ScaleToBN(i + "." + f, decimals) == Ok(Value(i + f) * Pow10(d) / Pow10(|f|))
    ensures var d := ToIntegerOrInfinity(decimals);
      |f| <= d ==> ScaleToBN(i + "." + f, decimals) == Ok(Value(i + f) * Pow10(d - |f|))
  {
    var d := ToIntegerOrInfinity(decimals);
    PaddedDigitsFloor(i, f, d);
    DecimalRead(i, f, decimals, Value(i + PaddedFraction(f, d)));
  }

  /** `-i.f` scales to minus the truncated value `ScaleTruncates` gives for `i.f`, exact whenever
      the fraction has at most d digits. */
  lemma ScaleNegativeTruncates(i: string, f: string, decimals: JsNumber)
    requires AllDigits(i) && AllDigits(f) && ToIntegerOrInfinity(decimals) >= 0
    ensures var d := ToIntegerOrInfinity(decimals); var r := ScaleToBN("-" + i + "." + f, decimals);
      r.Ok? && -r.value == Value(i + f) * Pow10(d) / Pow10(|f|)
    ensures var d := ToIntegerOrInfinity(decimals); var r := ScaleToBN("-" + i + "." + f, decimals);
      |f| <= d ==> r.Ok? && -r.value == Value(i + f) * Pow10(d - |f|)
  {
    PaddedDigitsFloor(i, f, ToIntegerOrInfinity(decimals));
    NegativeDecimalRead(i, f, decimals, Value(i + f) * Pow10(ToIntegerOrInfinity(decimals)) / Pow10(|f|));
  }

  /** The digits bn.js reads for `i.f` are the floor of the digits of i and f shifted by d - |f|. */
  lemma PaddedDigitsFloor(i: string, f: string, d: nat)
    requires AllDigits(i) && AllDigits(f)
    ensures AllDigits(i + PaddedFraction(f, d)) && AllDigits(i + f)
    ensures Value(i + PaddedFraction(f, d)) == Value(i + f) * Pow10(d) / Pow10(|f|)
    ensures |f| <= d ==> Value(i + PaddedFraction(f, d)) == Value(i + f) * Pow10(d - |f|)
  {
    var a, b, p, q := Value(i), Value(f), Pow10(d), Pow10(|f|);
    ScaledDigitsValue(i, f, d);
    var r := Value(i + PaddedFraction(f, d));
    ValueConcat(i, f);
    TruncatedShift(a, b, p, q, r, Value(i + f));
    if |f| <= d {
      Pow10Add(d - |f|, |f|);
      ExactMultiple(Value(i + f), Pow10(d - |f|), p, q, r);
    }
  }

  lemma Pow10Table()
    ensures Pow10(0) == 1 && Pow10(2) == 100 && Pow10(3) == 1000
    ensures Pow10(6) == 1000000 && Pow10(8) == 100000000
  {
    assert Pow10(1) == 10;
    assert Pow10(2) == 100;
    assert Pow10(3) == 1000;
    assert Pow10(4) == 10000;
    assert Pow10(5) == 100000;
    assert Pow10(6) == 1000000;
    assert Pow10(7) == 10000000;
  }

  /** "1.5" of a 9-decimal token is 1500000000 base units. */
  lemma ScaleExampleNine()
    ensures ScaleToBN("1.5", Finite(9, true)) == Ok(1500000000)
  {
    assert "1.5" == "1" + "." + "5" && "1" + "5" == "15";
    ScaleTruncates("1", "5", Finite(9, true));
    assert Value("15") == 15 by { assert "15"[..1] == "1"; }
    Pow10Table();
  }

  /** "100" of a 6-decimal token is 100000000 base units. */
  lemma ScaleExampleSix()
    ensures ScaleToBN("100", Finite(6, true)) == Ok(100000000)
  {
    ScaleWhole("100", Finite(6, true));
    assert Value("100") == 100 by { assert "100"[..2] == "10"; assert "10"[..1] == "1"; }
    Pow10Table();
  }

  /** "1.23" at 4 decimals is padded to 12300. */
  lemma ScaleExamplePadded()
    ensures ScaleToBN("1.23", Finite(4, true)) == Ok(12300)
  {
    assert Value("123") == 123 by { assert "123"[..2] == "12"; assert "12"[..1] == "1"; }
    assert Pow10(2) == 100;
    assert "1.23" == "1" + "." + "23" && "1" + "23" == "123";
    ScaleTruncates("1", "23", Finite(4, true));
  }

  /** "0.000001" of a 6-decimal token is the single smallest unit. */
  lemma ScaleExampleSmallest()
    ensures ScaleToBN("0.000001", Finite(6, true)) == Ok(1)
  {
    assert Value("0000001") == 1 by {
      assert "0000001"[..6] == Zeros(6);
      ZerosValue(6);
    }
    assert "0.000001" == "0" + "." + "000001" && "0" + "000001" == "0000001";
    ScaleTruncates("0", "000001", Finite(6, true));
  }

  /** "1.999" of a 0-decimal token is cut to 1, not rounded to 2. */
  lemma ScaleExampleCut()
    ensures ScaleToBN("1.999", Finite(0, true)) == Ok(1)
  {
    assert Value("1") == 1 && Value("999") < 1000 by { Pow10Table(); }
    assert "1.999" == "1" + "." + "999";
    ScaleDecimal("1", "999", Finite(0, true));
  }

  // ---------------------------------------------------------------------------------------
  // The request and the response

  /** The JSON body of a pool-creation request. */
  datatype PoolRequest = PoolRequest(wallet: Json, tokenAMint: Json, tokenBMint: Json,
                                     tokenADecimals: Json, tokenBDecimals: Json,
                                     tokenAAmount: Json, tokenBAmount: Json)

  /** A Solscan link to an account on a cluster, `https://solscan.io/account/<base58>?cluster=<c>`;
      the link's text is not modelled, only what it points at. */
  datatype ExplorerLink = SolscanAccount(account: Address, cluster: string)

  datatype Body =
    | Failed(error: string)
    | Created(transaction: WireTransaction, poolId: Address, poolAddress: Address, network: string,
              explorerUrl: ExplorerLink)

  datatype Response = Response(status: nat, body: Body)

  const MissingFieldsMessage: string :=
    "Missing required fields. Required: wallet, tokenAMint, tokenBMint, tokenADecimals, tokenBDecimals, tokenAAmount, tokenBAmount"

  /** The guard: the three keys must be truthy; the four numeric fields only must not be `undefined`. */
  predicate MissingRequiredFields(req: PoolRequest) {
    !Truthy(req.wallet) || !Truthy(req.tokenAMint) || !Truthy(req.tokenBMint) ||
    req.tokenADecimals.Undefined? || req.tokenBDecimals.Undefined? ||
    req.tokenAAmount.Undefined? || req.tokenBAmount.Undefined?
  }

  /** Zero decimals and zero amounts, given as numbers, as null or as "", pass the guard. */
  lemma ZeroFieldsPassGuard(wallet: string, mintA: string, mintB: string, zero: Json)
    requires wallet != "" && mintA != "" && mintB != ""
    requires zero == Num(0) || zero == Null || zero == Str("")
    ensures !MissingRequiredFields(PoolRequest(Str(wallet), Str(mintA), Str(mintB), zero, zero, zero, zero))
    ensures ScaleToBN(NumberText(zero), NumberOf(zero)) == Ok(0)
  {
    assert NumberText(zero) == "0" && NumberOf(zero) == Finite(0, true);
    ScaleWhole("0", Finite(0, true));
  }

  /** How `new PublicKey` decodes, taken as given because neither base58 nor the ed25519 curve
      equation is modelled: `decode(s)` is the error the constructor throws for text that is not
      base58 or not 32 bytes long, or else whether the 32 bytes are a curve point;
      `numberOnCurve(n)` says whether the bytes of the number `n` are one. */
  datatype KeyCodec = KeyCodec(decode: string -> Result<bool>, numberOnCurve: nat -> bool)

  /** bn.js refuses a JavaScript number whose magnitude reaches 2^53. */
  const SafeIntegerBound: nat := 0x20_0000_0000_0000

  /** `new PublicKey(value)` for a JSON value. The constructor first reads `value._bn`, which
      throws a TypeError for `undefined` and `null`. Text is then decoded as base58, and any other
      value goes to `new BN(value)`: a number is read by its magnitude, which must stay below 2^53;
      `false` reads as 0 (bn.js takes `value || 0`); `true` is read as the text "true", which is not
      a numeral. */
  function PublicKeyOf(j: Json, codec: KeyCodec): (r: Result<Address>)
    ensures r.Ok? ==> r.value.Key?
    ensures j.Str? ==> (r.Ok? <==> codec.decode(j.s).Ok?) &&
                       (r.Ok? ==> (OnCurve(r.value) <==> codec.decode(j.s).value))
    ensures j.Num? ==> (r.Ok? <==> -(SafeIntegerBound as int) < j.n < SafeIntegerBound)
    ensures j == Undefined || j == Null || j == Bool(true) ==> r.Err?
  {
    match j
    case Str(s) =>
      (match codec.decode(s)
       case Err(message) => Err(message)
       case Ok(onCurve) => Ok(Key(Base58(s), onCurve)))
    case Num(n) =>
      var magnitude: nat := if n < 0 then -n else n;
      if magnitude < SafeIntegerBound then Ok(Key(Integer(magnitude), codec.numberOnCurve(magnitude)))
      else Err("Assertion failed")
    case Bool(b) =>
      if b then Err("Invalid character") else Ok(Key(Integer(0), codec.numberOnCurve(0)))
    case Undefined => Err("Cannot read properties of undefined (reading '_bn')")
    case Null => Err("Cannot read properties of null (reading '_bn')")
  }

  /** `coinAmount`: always token A's amount at token A's decimals. */
  function CoinAmount(req: PoolRequest): Result<int> {
    ScaleToBN(NumberText(req.tokenAAmount), NumberOf(req.tokenADecimals))
  }

  /** `pcAmount`: always token B's amount at token B's decimals. */
  function PcAmount(req: PoolRequest): Result<int> {
    ScaleToBN(NumberText(req.tokenBAmount), NumberOf(req.tokenBDecimals))
  }

  /** The positional contract of the create-pool instruction for one owner, mint pair, pair of
      amounts and opening time, as the pool program's interface fixes it. */
  predicate IsCreatePool(ix: Instruction, owner: Address, mintA: Address, mintB: Address,
                         amountA: int, amountB: int, nowMs: int)
  {
    var program := Program(CpmmProgram);
    var config := AmmConfigId(program, 0);
    var keys := CreatePoolKeys(program, config, mintA, mintB);
    var tokenProgram := Program(TokenProgram);
    ix.CreateCpmmPool? &&
    ix.program == program && ix.creator == owner && ix.configId == config &&
    ix.authority == keys.authority && ix.poolId == keys.poolId &&
    ix.mintA == mintA && ix.mintB == mintB && ix.lpMint == keys.lpMint &&
    ix.userVaultA == AssociatedToken(mintA, owner, tokenProgram) &&
    ix.userVaultB == AssociatedToken(mintB, owner, tokenProgram) &&
    ix.userLpAccount == AssociatedToken(keys.lpMint, owner, tokenProgram) &&
    ix.vaultA == keys.vaultA && ix.vaultB == keys.vaultB && ix.createPoolFee == CpmmPoolFeeAccount &&
    ix.mintProgramA == tokenProgram && ix.mintProgramB == tokenProgram &&
    ix.observationId == keys.observationId &&
    ix.amountA == amountA && ix.amountB == amountB &&
    // openTime is the current time in whole seconds, rounded down
    ix.openTime * 1000 <= nowMs < ix.openTime * 1000 + 1000
  }

  /** The message of the first step after the guard that throws, in the order the handler runs
      them: the owner's key, the two mint keys, the two amounts, the owner's associated account
      (the token library refuses an owner off the curve), and the blockhash request. */
  function Rejection(req: PoolRequest, codec: KeyCodec, latestBlockhash: Result<string>): (r: Option<string>)
    ensures r.None? <==>
      var owner := PublicKeyOf(req.wallet, codec);
      owner.Ok? && PublicKeyOf(req.tokenAMint, codec).Ok? && PublicKeyOf(req.tokenBMint, codec).Ok? &&
      CoinAmount(req).Ok? && PcAmount(req).Ok? && OnCurve(owner.value) && latestBlockhash.Ok?
  {
    var owner := PublicKeyOf(req.wallet, codec);
    var mintA := PublicKeyOf(req.tokenAMint, codec);
    var mintB := PublicKeyOf(req.tokenBMint, codec);
    if owner.Err? then Some(owner.message)
    else if mintA.Err? then Some(mintA.message)
    else if mintB.Err? then Some(mintB.message)
    else if CoinAmount(req).Err? then Some(CoinAmount(req).message)
    else if PcAmount(req).Err? then Some(PcAmount(req).message)
    else
      var userVault := AssociatedTokenAddress(mintA.value, owner.value, false, Program(TokenProgram));
      if userVault.Err? then Some(userVault.message)
      else if latestBlockhash.Err? then Some(latestBlockhash.message)
      else None
  }

  /** A wallet whose key is off the curve is refused with the token library's error once the keys
      and amounts are good, whatever the blockhash reply. */
  lemma OffCurveOwnerRejected(req: PoolRequest, codec: KeyCodec, latestBlockhash: Result<string>)
    requires PublicKeyOf(req.wallet, codec).Ok? && !OnCurve(PublicKeyOf(req.wallet, codec).value)
    requires PublicKeyOf(req.tokenAMint, codec).Ok? && PublicKeyOf(req.tokenBMint, codec).Ok?
    requires CoinAmount(req).Ok? && PcAmount(req).Ok?
    ensures Rejection(req, codec, latestBlockhash) == Some(OwnerOffCurveMessage)
  {
  }

  /** `POST /api/pool`. `body` is what `await req.json()` and the destructuring give: an Err
      stands for a body that is not JSON or is `null`, and any other non-object body destructures
      to all-`undefined` fields. How keys decode, the clock reading `nowMs` and the reply of
      `getLatestBlockhash` are parameters; an Err reply stands for the call throwing. */
  method Post(body: Result<PoolRequest>, codec: KeyCodec, nowMs: int, latestBlockhash: Result<string>)
    returns (resp: Response)
    ensures resp.status == 200 || resp.status == 400 || resp.status == 500
    ensures resp.status != 200 <==> resp.body.Failed?
    ensures body.Err? ==> resp == Response(500, Failed(body.message))
    ensures resp.status == 400 <==> body.Ok? && MissingRequiredFields(body.value)
    ensures resp.status == 400 ==> resp.body.error == MissingFieldsMessage
    ensures body.Ok? && !MissingRequiredFields(body.value) ==>
      match Rejection(body.value, codec, latestBlockhash)
      case Some(message) => resp == Response(500, Failed(message))
      case None => resp.status == 200
    ensures resp.status == 200 ==>
      body.Ok? && Rejection(body.value, codec, latestBlockhash).None? &&
      var req := body.value;
      var owner := PublicKeyOf(req.wallet, codec).value;
      var mintA := PublicKeyOf(req.tokenAMint, codec).value;
      var mintB := PublicKeyOf(req.tokenBMint, codec).value;
      var tx := resp.body.transaction;
      var poolId := CreatePoolKeys(Program(CpmmProgram), AmmConfigId(Program(CpmmProgram), 0), mintA, mintB).poolId;
      resp.body.Created? && resp.body.poolId == poolId && resp.body.poolAddress == poolId &&
      resp.body.network == "devnet" && resp.body.explorerUrl == SolscanAccount(poolId, "devnet") &&
      tx.feePayer == owner && tx.recentBlockhash == latestBlockhash.value && tx.signatures == [] &&
      |tx.instructions| == 1 &&
      IsCreatePool(tx.instructions[0], owner, mintA, mintB, CoinAmount(req).value, PcAmount(req).value, nowMs)
  {
    if body.Err? {
      return Response(500, Failed(body.message));
    }
    var req := body.value;
    if MissingRequiredFields(req) {
      return Response(400, Failed(MissingFieldsMessage));
    }
    var ownerKey := PublicKeyOf(req.wallet, codec);
    if ownerKey.Err? {
      return Response(500, Failed(ownerKey.message));
    }
    var mintAKey := PublicKeyOf(req.tokenAMint, codec);
    if mintAKey.Err? {
      return Response(500, Failed(mintAKey.message));
    }
    var mintBKey := PublicKeyOf(req.tokenBMint, codec);
    if mintBKey.Err? {
      return Response(500, Failed(mintBKey.message));
    }
    var owner, mintA, mintB := ownerKey.value, mintAKey.value, mintBKey.value;

    var programId := Program(CpmmProgram);
    var configId := AmmConfigId(programId, 0);
    var poolFeeAccount := CpmmPoolFeeAccount;
    var poolKeys := CreatePoolKeys(programId, configId, mintA, mintB);

    var coinAmount := ScaleToBN(NumberText(req.tokenAAmount), NumberOf(req.tokenADecimals));
    if coinAmount.Err? {
      return Response(500, Failed(coinAmount.message));
    }
    var pcAmount := ScaleToBN(NumberText(req.tokenBAmount), NumberOf(req.tokenBDecimals));
    if pcAmount.Err? {
      return Response(500, Failed(pcAmount.message));
    }

    var tokenProgram := Program(TokenProgram);
    var userCoinVault := AssociatedTokenAddress(mintA, owner, false, tokenProgram);
    if userCoinVault.Err? {
      return Response(500, Failed(userCoinVault.message));
    }
    // The same owner, so these succeed too.
    var userPcVault := AssociatedTokenAddress(mintB, owner, false, tokenProgram).value;
    var userLpVault := AssociatedTokenAddress(poolKeys.lpMint, owner, false, tokenProgram).value;

    var openTime := nowMs / 1000;  // Math.floor(Date.now() / 1000)

    var instruction := CreateCpmmPool(
      programId, owner, configId, poolKeys.authority, poolKeys.poolId, mintA, mintB, poolKeys.lpMint,
      userCoinVault.value, userPcVault, userLpVault, poolKeys.vaultA, poolKeys.vaultB, poolFeeAccount,
      tokenProgram, tokenProgram, poolKeys.observationId,
      coinAmount.value, pcAmount.value, openTime);

    var transaction := new Transaction();
    transaction.Add(instruction);
    transaction.SetFeePayer(owner);

    if latestBlockhash.Err? {
      return Response(500, Failed(latestBlockhash.message));
    }
    transaction.SetRecentBlockhash(latestBlockhash.value);

    var wire := transaction.SerializeUnsigned();
    assert wire.Ok?;
    resp := Response(200, Created(wire.value, poolKeys.poolId, poolKeys.poolId, "devnet",
                                   SolscanAccount(poolKeys.poolId, "devnet")));
  }

  /** The two worked amounts of a pool request: "1.5" of a 9-decimal token A and "100" of a
      6-decimal token B become 1500000000 and 100000000 base units, in that order. */
  lemma PoolAmountsExample(wallet: string, mintA: string, mintB: string)
    requires wallet != "" && mintA != "" && mintB != ""
    ensures var req := PoolRequest(Str(wallet), Str(mintA), Str(mintB), Num(9), Num(6), Str("1.5"), Str("100"));
      !MissingRequiredFields(req) && CoinAmount(req) == Ok(1500000000) && PcAmount(req) == Ok(100000000)
  {
    var req := PoolRequest(Str(wallet), Str(mintA), Str(mintB), Num(9), Num(6), Str("1.5"), Str("100"));
    assert !MissingRequiredFields(req);
    DecimalTextExamples();
    assert CoinAmount(req) == Ok(1500000000) by {
      assert NumberText(Str("1.5")) == "1.5" && NumberOf(Num(9)) == Finite(9, true);
      ScaleExampleNine();
    }
    assert PcAmount(req) == Ok(100000000) by {
      assert NumberText(Str("100")) == "100" && NumberOf(Num(6)) == Finite(6, true);
      ScaleExampleSix();
    }
  }

  /** "1.5" and "100" are decimal numerals. */
  lemma DecimalTextExamples()
    ensures IsDecimalText("1.5") && IsDecimalText("100")
  {
    assert "1.5" == "1" + "." + "5";
    SplitPiece("1", "5", '.');
    SplitPiece("5", [], '.');
    assert "1.5"[0] != '-' && "100"[0] != '-';
    DigitsExclude("100", '.');
    SplitPiece("100", [], '.');
  }
}
