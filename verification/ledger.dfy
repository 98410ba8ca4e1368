/** The Solana library surface the assembly code calls: account addresses, the instructions it
    builds, and the `Transaction` object it fills in and serializes.

    Addresses are symbolic. A derived address is the term that records what it was derived from,
    so derivation is a deterministic function of its inputs by construction; the hashing behind it
    (SHA-256 and the off-curve search) is not modelled. An instruction is likewise the term that
    records the arguments it was built from, in the order of the library call; its byte encoding is
    not modelled. */
module Ledger {
  import opened Js

  /** The programs the assembled instructions run or name. */
  datatype ProgramId =
    | SystemProgram
    | TokenProgram            // TOKEN_PROGRAM_ID
    | Token2022Program        // TOKEN_2022_PROGRAM_ID, the token program with extensions
    | AssociatedTokenProgram  // ASSOCIATED_TOKEN_PROGRAM_ID
    | CpmmProgram             // CREATE_CPMM_POOL_PROGRAM, Raydium's constant-product pool program

  /** The 32 bytes of a public key as the code can be handed them: base58 text, or a whole
      number that `new PublicKey` reads as a big-endian integer. */
  datatype KeyBytes = Base58(text: string) | Integer(n: nat)

  datatype Address =
    | Key(bytes: KeyBytes, onCurve: bool)  // a public key given by a caller, and whether it is a curve point
    | Generated(seed: nat)                 // the public key of a freshly generated keypair
    | Program(id: ProgramId)
    | CpmmPoolFeeAccount                   // CREATE_CPMM_POOL_FEE_ACC
    | AmmConfig(program: Address, index: nat)
    | PoolId(program: Address, config: Address, mintA: Address, mintB: Address)
    | PoolAuthority(program: Address)
    | PoolLpMint(program: Address, pool: Address)
    | PoolVault(program: Address, pool: Address, mint: Address)
    | PoolObservation(program: Address, pool: Address)
    | AssociatedToken(mint: Address, owner: Address, tokenProgram: Address)

  /** Whether an address is a point on the ed25519 curve, i.e. can be the key of a keypair.
      Program-derived and associated addresses are off the curve; for a key handed in by a caller
      the answer is part of the key, since the curve equation is not modelled. */
  predicate OnCurve(a: Address) {
    (a.Key? && a.onCurve) || a.Generated? || a.Program? || a.CpmmPoolFeeAccount?
  }

  /** `getCpmmPdaAmmConfigId(program, index).publicKey`. */
  function AmmConfigId(program: Address, index: nat): (a: Address)
    ensures !OnCurve(a)
  {
    AmmConfig(program, index)
  }

  /** The addresses `getCreatePoolKeys({programId, configId, mintA, mintB})` returns. */
  datatype PoolKeys = PoolKeys(poolId: Address, authority: Address, lpMint: Address,
                               vaultA: Address, vaultB: Address, observationId: Address)

  /** The pool id is seeded by the config and the two mints in order; the authority is one per
      program; the LP mint and the observation account are seeded by the pool id, and each vault
      by the pool id and its mint. */
  function CreatePoolKeys(program: Address, config: Address, mintA: Address, mintB: Address): (k: PoolKeys)
    ensures !OnCurve(k.poolId) && !OnCurve(k.authority) && !OnCurve(k.lpMint)
    ensures !OnCurve(k.vaultA) && !OnCurve(k.vaultB) && !OnCurve(k.observationId)
  {
    var poolId := PoolId(program, config, mintA, mintB);
    PoolKeys(poolId, PoolAuthority(program), PoolLpMint(program, poolId),
             PoolVault(program, poolId, mintA), PoolVault(program, poolId, mintB),
             PoolObservation(program, poolId))
  }

  /** A pool's six addresses as a sequence, in the order `PoolKeys` lists them. */
  function PoolAddresses(k: PoolKeys): seq<Address> {
    [k.poolId, k.authority, k.lpMint, k.vaultA, k.vaultB, k.observationId]
  }

  /** The six addresses of a pool are pairwise distinct, except that the two vaults coincide
      when both mints are the same. */
  lemma PoolKeysDistinct(program: Address, config: Address, mintA: Address, mintB: Address)
    ensures var ks := PoolAddresses(CreatePoolKeys(program, config, mintA, mintB));
      forall i, j :: 0 <= i < j < 6 && !(i == 3 && j == 4) ==> ks[i] != ks[j]
    ensures var k := CreatePoolKeys(program, config, mintA, mintB);
      k.vaultA == k.vaultB <==> mintA == mintB
  {
    var k := CreatePoolKeys(program, config, mintA, mintB);
    var ks := PoolAddresses(k);
    forall i, j | 0 <= i < j < 6 && !(i == 3 && j == 4)
      ensures ks[i] != ks[j]
    {
      // The pool id is strictly smaller than the terms built from it.
      assert k.poolId < k.lpMint && k.poolId < k.vaultA && k.poolId < k.vaultB && k.poolId < k.observationId;
    }
  }

  /** What each address depends on: the authority only on the program, the pool id on the
      config and on which mint is A and which is B, and the rest only on the pool id (and, for a
      vault, its mint). */
  lemma PoolKeysDependencies(program: Address, config: Address, mintA: Address, mintB: Address,
                             config': Address, mintA': Address, mintB': Address)
    ensures CreatePoolKeys(program, config, mintA, mintB).authority ==
            CreatePoolKeys(program, config', mintA', mintB').authority
    ensures var k, k' := CreatePoolKeys(program, config, mintA, mintB), CreatePoolKeys(program, config', mintA', mintB');
      k.poolId == k'.poolId <==> config == config' && mintA == mintA' && mintB == mintB'
    ensures var k, k' := CreatePoolKeys(program, config, mintA, mintB), CreatePoolKeys(program, config', mintA', mintB');
      k.poolId == k'.poolId ==> k.lpMint == k'.lpMint && k.observationId == k'.observationId &&
                                k.vaultA == k'.vaultA && k.vaultB == k'.vaultB
    ensures mintA != mintB ==>
      CreatePoolKeys(program, config, mintA, mintB).poolId != CreatePoolKeys(program, config, mintB, mintA).poolId
  {
  }

  /** The message of the `TokenOwnerOffCurveError` the token library throws; the error class
      is constructed without one. */
  const OwnerOffCurveMessage: string := ""

  /** `getAssociatedTokenAddressSync(mint, owner, allowOwnerOffCurve, tokenProgram)`: throws for
      an owner off the curve unless that is allowed. */
  function AssociatedTokenAddress(mint: Address, owner: Address, allowOwnerOffCurve: bool, tokenProgram: Address)
    : (r: Result<Address>)
    ensures r.Ok? <==> allowOwnerOffCurve || OnCurve(owner)
    ensures r.Err? ==> r.message == OwnerOffCurveMessage
    ensures r.Ok? ==> !OnCurve(r.value) && r.value.AssociatedToken? && r.value.mint == mint &&
                      r.value.owner == owner && r.value.tokenProgram == tokenProgram
  {
    if !allowOwnerOffCurve && !OnCurve(owner) then Err(OwnerOffCurveMessage)
    else Ok(AssociatedToken(mint, owner, tokenProgram))
  }

  /** The instructions the assembly code builds, one constructor per library builder, with the
      builder's arguments in call order. */
  datatype Instruction =
      /** SystemProgram.createAccount */
    | CreateAccount(from: Address, newAccount: Address, space: nat, lamports: nat, owner: Address)
      /** createInitializeMetadataPointerInstruction */
    | InitializeMetadataPointer(mint: Address, pointerAuthority: Option<Address>, metadataAddress: Option<Address>,
                                program: Address)
      /** createInitializeMintInstruction */
    | InitializeMint(mint: Address, decimals: JsNumber, mintAuthority: Address, freezeAuthority: Option<Address>,
                     program: Address)
      /** createInitializeInstruction of the token-metadata interface */
    | InitializeTokenMetadata(program: Address, metadata: Address, updateAuthority: Address, mint: Address,
                              mintAuthority: Address, name: string, symbol: string, uri: string)
      /** createAssociatedTokenAccountInstruction */
    | CreateAssociatedTokenAccount(payer: Address, associatedToken: Address, owner: Address, mint: Address,
                                   program: Address, associatedTokenProgram: Address)
      /** createMintToInstruction */
    | MintTo(mint: Address, destination: Address, mintToAuthority: Address, amount: int,
             multiSigners: seq<Address>, program: Address)
      /** makeCreateCpmmPoolInInstruction */
    | CreateCpmmPool(program: Address, creator: Address, configId: Address, authority: Address,
                     poolId: Address, mintA: Address, mintB: Address, lpMint: Address,
                     userVaultA: Address, userVaultB: Address, userLpAccount: Address,
                     vaultA: Address, vaultB: Address, createPoolFee: Address,
                     mintProgramA: Address, mintProgramB: Address, observationId: Address,
                     amountA: int, amountB: int, openTime: int)

  /** The contents of a `Transaction` object at one moment. `signedBy` lists, in order, the
      signers whose signature has been attached. */
  datatype TxState = TxState(instructions: seq<Instruction>, feePayer: Option<Address>,
                             recentBlockhash: Option<string>, signedBy: seq<Address>)

  /** The fee payer a transaction compiles with: the one set, or else the first signer. */
  function EffectiveFeePayer(t: TxState): Option<Address> {
    if t.feePayer.Some? then t.feePayer
    else if |t.signedBy| > 0 then Some(t.signedBy[0])
    else None
  }

  /** A serialized transaction. The base64 wire text is not modelled; this is what it carries. */
  datatype WireTransaction = WireTransaction(feePayer: Address, recentBlockhash: string,
                                             instructions: seq<Instruction>, signatures: seq<Address>)

  /** A `Transaction` object of the Solana web3 library, which the assembly code fills in place. */
  class Transaction {
    var instructions: seq<Instruction>
    var feePayer: Option<Address>
    var recentBlockhash: Option<string>
    var signedBy: seq<Address>

    function State(): TxState
      reads this
    {
      TxState(instructions, feePayer, recentBlockhash, signedBy)
    }

    /** `new Transaction()` */
    constructor ()
      ensures State() == TxState([], None, None, [])
    {
      instructions, feePayer, recentBlockhash, signedBy := [], None, None, [];
    }

    /** `tx.add(ix)`: appends one instruction. */
    method Add(ix: Instruction)
      modifies this
      ensures State() == old(State()).(instructions := old(instructions) + [ix])
    {
      instructions := instructions + [ix];
    }

    /** `tx.feePayer = payer` */
    method SetFeePayer(payer: Address)
      modifies this
      ensures State() == old(State()).(feePayer := Some(payer))
    {
      feePayer := Some(payer);
    }

    /** `tx.recentBlockhash = blockhash` */
    method SetRecentBlockhash(blockhash: string)
      modifies this
      ensures State() == old(State()).(recentBlockhash := Some(blockhash))
    {
      recentBlockhash := Some(blockhash);
    }

    /** `tx.partialSign(signer)`: compiles the message, which needs a blockhash and a fee payer,
        and attaches the signer's signature, once. */
    method PartialSign(signer: Address)
      requires recentBlockhash.Some? && EffectiveFeePayer(State()).Some?
      modifies this
      ensures State() == old(State()).(signedBy := if signer in old(signedBy) then old(signedBy)
                                                   else old(signedBy) + [signer])
    {
      if signer !in signedBy {
        signedBy := signedBy + [signer];
      }
    }

    /** `tx.serialize({ requireAllSignatures: false })`: succeeds exactly when the message
        compiles, and carries the instructions and the signatures attached so far. */
    function SerializeUnsigned(): (r: Result<WireTransaction>)
      reads this
      ensures r.Ok? <==> recentBlockhash.Some? && EffectiveFeePayer(State()).Some?
      ensures r.Ok? ==> r.value.instructions == instructions && r.value.signatures == signedBy &&
                        Some(r.value.feePayer) == EffectiveFeePayer(State()) &&
                        Some(r.value.recentBlockhash) == recentBlockhash
    {
      if recentBlockhash.None? then Err("Transaction recentBlockhash required")
      else match EffectiveFeePayer(State())
        case None => Err("Transaction fee payer required")
        case Some(payer) => Ok(WireTransaction(payer, recentBlockhash.value, instructions, signedBy))
    }
  }
}
