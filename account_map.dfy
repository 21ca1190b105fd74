/**
 * `AccountMap` and its two required lookups: read-only, keyed by address,
 * failing with an error that names the missing address.
 */
module AccountMaps {
  import opened Wrappers
  import opened Sdk
  import opened Errors

  type AccountMap = map<Pubkey, Account>

  /** `try_get_account_data`: the stored account's data, or not-found for `address`. */
  function TryGetAccountData(accountMap: AccountMap, address: Pubkey): (r: Result<seq<Byte>, Error>)
    ensures r.Ok? <==> address in accountMap
    ensures r.Ok? ==> r.value == accountMap[address].data
    ensures r.Err? ==> r.error == AccountNotFound(address)
  {
    if address in accountMap then Ok(accountMap[address].data)
    else Err(AccountNotFound(address))
  }

  /** `try_get_account_data_and_owner`: the stored account's data and owner, or not-found for `address`. */
  function TryGetAccountDataAndOwner(accountMap: AccountMap, address: Pubkey): (r: Result<(seq<Byte>, Pubkey), Error>)
    ensures r.Ok? <==> address in accountMap
    ensures r.Ok? ==> r.value.0 == accountMap[address].data && r.value.1 == accountMap[address].owner
    ensures r.Err? ==> r.error == AccountNotFound(address)
  {
    if address !in accountMap then Err(AccountNotFound(address))
    else
      var account := accountMap[address];
      Ok((account.data, account.owner))
  }

  /** The two lookups agree: same outcome, same data, same error. */
  lemma LookupsAgree(accountMap: AccountMap, address: Pubkey)
    ensures TryGetAccountData(accountMap, address).Ok? == TryGetAccountDataAndOwner(accountMap, address).Ok?
    ensures TryGetAccountData(accountMap, address).Ok? ==>
      TryGetAccountData(accountMap, address).value == TryGetAccountDataAndOwner(accountMap, address).value.0
    ensures TryGetAccountData(accountMap, address).Err? ==>
      TryGetAccountData(accountMap, address).error == TryGetAccountDataAndOwner(accountMap, address).error
  {
  }

  /**
   * A lookup sees only the entry at its address: two maps that agree there
   * (both lack it, or both hold the same account) give the same answers.
   */
  lemma LookupsSeeOnlyTheirAddress(m1: AccountMap, m2: AccountMap, address: Pubkey)
    requires address in m1 <==> address in m2
    requires address in m1 ==> m1[address] == m2[address]
    ensures TryGetAccountData(m1, address) == TryGetAccountData(m2, address)
    ensures TryGetAccountDataAndOwner(m1, address) == TryGetAccountDataAndOwner(m2, address)
  {
  }
}
