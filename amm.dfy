/**
 * The venue contract's data shapes and the optional capability queries of
 * the `Amm` interface, with the answers a venue gets when it does not
 * override them.
 */
module Amm {
  import opened Wrappers
  import opened Sdk
  import opened SwapModes
  import Clocks

  /** What to quote: `amount` is the exact input under ExactIn, the exact output under ExactOut. */
  datatype QuoteParams = QuoteParams(amount: u64, inputMint: Pubkey, outputMint: Pubkey, swapMode: SwapMode)

  /** A venue's answer to a quote (the decimal fee percentage is not modelled). */
  datatype Quote = Quote(
    minInAmount: Option<u64>,
    minOutAmount: Option<u64>,
    inAmount: u64,
    outAmount: u64,
    feeAmount: u64,
    feeMint: Pubkey)

  type QuoteMintToReferrer = map<Pubkey, Pubkey>

  /** Everything a venue needs to build its swap instruction's account list. */
  datatype SwapParams = SwapParams(
    swapMode: SwapMode,
    inAmount: u64,
    outAmount: u64,
    sourceMint: Pubkey,
    destinationMint: Pubkey,
    sourceTokenAccount: Pubkey,
    destinationTokenAccount: Pubkey,
    /** The user or the program authority over the source token account. */
    tokenTransferAuthority: Pubkey,
    openOrderAddress: Option<Pubkey>,
    quoteMintToReferrer: Option<QuoteMintToReferrer>,
    jupiterProgramId: Pubkey,
    /** Substitute the default key for unknown dynamic accounts instead of failing. */
    missingDynamicAccountsAsDefault: bool)

  /**
   * The account meta that stands for an optional account, or ends a run of
   * remaining accounts: the aggregator's own program id, read-only, not a signer.
   */
  function PlaceholderAccountMeta(params: SwapParams): (m: AccountMeta)
    ensures m.pubkey == params.jupiterProgramId
    ensures !m.isWritable && !m.isSigner
  {
    NewReadonly(params.jupiterProgramId, false)
  }

  /** The placeholder depends on the program id alone, not on the rest of the swap. */
  lemma PlaceholderDependsOnlyOnProgramId(p: SwapParams, q: SwapParams)
    ensures PlaceholderAccountMeta(p) == PlaceholderAccountMeta(q) <==> p.jupiterProgramId == q.jupiterProgramId
  {
  }

  /** A setup step a venue may ask of the user. */
  datatype AmmUserSetup = SerumDexOpenOrdersSetup(market: Pubkey, programId: Pubkey)

  /** The process-wide context handed to every venue at construction. */
  datatype AmmContext = AmmContext(clockRef: Clocks.ClockRef)

  /**
   * A venue implementation's choice for each optional capability query:
   * `Some(answer)` where it overrides the interface's default body, `None`
   * where it inherits it.
   */
  datatype AmmOverrides = AmmOverrides(
    hasDynamicAccounts: Option<bool>,
    requiresUpdateForReserveMints: Option<bool>,
    supportsExactOut: Option<bool>,
    userSetup: Option<Option<AmmUserSetup>>,
    unidirectional: Option<bool>,
    programDependencies: Option<seq<(Pubkey, string)>>,
    accountsLen: Option<usize>,
    underlyingLiquidities: Option<Option<set<Pubkey>>>,
    isActive: Option<bool>)

  /** A venue that overrides none of the optional queries. */
  const INHERITS_ALL: AmmOverrides := AmmOverrides(None, None, None, None, None, None, None, None, None)

  /** Whether the accounts to update may change over the venue's lifetime; by default no. */
  function HasDynamicAccounts(v: AmmOverrides): (r: bool)
    ensures v.hasDynamicAccounts.Some? ==> r == v.hasDynamicAccounts.value
    ensures v.hasDynamicAccounts.None? ==> !r
  {
    v.hasDynamicAccounts.GetOr(false)
  }

  /** Whether an update must precede asking for reserve mints; by default no. */
  function RequiresUpdateForReserveMints(v: AmmOverrides): (r: bool)
    ensures v.requiresUpdateForReserveMints.Some? ==> r == v.requiresUpdateForReserveMints.value
    ensures v.requiresUpdateForReserveMints.None? ==> !r
  {
    v.requiresUpdateForReserveMints.GetOr(false)
  }

  /** Whether ExactOut quotes are supported; by default no. */
  function SupportsExactOut(v: AmmOverrides): (r: bool)
    ensures v.supportsExactOut.Some? ==> r == v.supportsExactOut.value
    ensures v.supportsExactOut.None? ==> !r
  {
    v.supportsExactOut.GetOr(false)
  }

  /** The setup step the user must take first; by default none. */
  function GetUserSetup(v: AmmOverrides): (r: Option<AmmUserSetup>)
    ensures v.userSetup.Some? ==> r == v.userSetup.value
    ensures v.userSetup.None? ==> r.None?
  {
    v.userSetup.GetOr(None)
  }

  /** Whether the venue trades only from its first mint to its second; by default no. */
  function Unidirectional(v: AmmOverrides): (r: bool)
    ensures v.unidirectional.Some? ==> r == v.unidirectional.value
    ensures v.unidirectional.None? ==> !r
  {
    v.unidirectional.GetOr(false)
  }

  /** Dependency programs for test harnesses; by default none. */
  function ProgramDependencies(v: AmmOverrides): (r: seq<(Pubkey, string)>)
    ensures v.programDependencies.Some? ==> r == v.programDependencies.value
    ensures v.programDependencies.None? ==> r == []
  {
    v.programDependencies.GetOr([])
  }

  /**
   * The number of accounts the swap uses; by default 32, close to a whole
   * legacy transaction, so that venues which do not say are penalised.
   */
  function GetAccountsLen(v: AmmOverrides): (r: usize)
    ensures v.accountsLen.Some? ==> r == v.accountsLen.value
    ensures v.accountsLen.None? ==> r == 32
  {
    v.accountsLen.GetOr(32)
  }

  /** The identifiers of the liquidity the venue draws on; by default unknown. */
  function UnderlyingLiquidities(v: AmmOverrides): (r: Option<set<Pubkey>>)
    ensures v.underlyingLiquidities.Some? ==> r == v.underlyingLiquidities.value
    ensures v.underlyingLiquidities.None? ==> r.None?
  {
    v.underlyingLiquidities.GetOr(None)
  }

  /** Whether the market can be traded at all; by default yes. */
  function IsActive(v: AmmOverrides): (r: bool)
    ensures v.isActive.Some? ==> r == v.isActive.value
    ensures v.isActive.None? ==> r
  {
    v.isActive.GetOr(true)
  }

  /** The answers of a venue that overrides nothing: the interface's default table. */
  lemma InheritedDefaults()
    ensures !HasDynamicAccounts(INHERITS_ALL) && !RequiresUpdateForReserveMints(INHERITS_ALL)
    ensures !SupportsExactOut(INHERITS_ALL) && GetUserSetup(INHERITS_ALL) == None
    ensures !Unidirectional(INHERITS_ALL) && ProgramDependencies(INHERITS_ALL) == []
    ensures GetAccountsLen(INHERITS_ALL) == 32 && UnderlyingLiquidities(INHERITS_ALL) == None
    ensures IsActive(INHERITS_ALL)
  {
  }
}
