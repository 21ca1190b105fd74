/** Keyed accounts and the `Market` summary derived from them. */
module Markets {
  import opened Wrappers
  import opened Sdk
  import Json

  /** An account with its address and optional venue-specific configuration. */
  datatype KeyedAccount = KeyedAccount(key: Pubkey, account: Account, params: Option<Json.Value>)

  /** The configuration-facing summary: address, owner and params, no raw account. */
  datatype Market = Market(pubkey: Pubkey, owner: Pubkey, params: Option<Json.Value>)

  /** `From<KeyedAccount> for Market`. */
  function MarketFrom(ka: KeyedAccount): (m: Market)
    ensures m.pubkey == ka.key && m.owner == ka.account.owner && m.params == ka.params
  {
    Market(ka.key, ka.account.owner, ka.params)
  }

  /**
   * Nothing of the account but its owner reaches the market: replacing the
   * account by any other with the same owner (other data, lamports, flags,
   * rent epoch) gives the same market.
   */
  lemma MarketIgnoresAccountPayload(ka: KeyedAccount, account: Account)
    requires account.owner == ka.account.owner
    ensures MarketFrom(ka.(account := account)) == MarketFrom(ka)
  {
  }

  /** Two keyed accounts give the same market exactly when key, owner and params agree. */
  lemma MarketEqualIff(a: KeyedAccount, b: KeyedAccount)
    ensures MarketFrom(a) == MarketFrom(b) <==>
      a.key == b.key && a.account.owner == b.account.owner && a.params == b.params
  {
  }
}
