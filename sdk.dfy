/**
 * The Solana SDK shapes the interface is written against: fixed-width
 * integers, public keys, accounts, account metas and the on-chain clock.
 */
module Sdk {

  type Byte = bv8

  /** Rust's unsigned and signed 64-bit integers; `usize` on a 64-bit target. */
  type u64 = x: int | 0 <= x < 0x1_0000_0000_0000_0000
  type i64 = x: int | -0x8000_0000_0000_0000 <= x < 0x8000_0000_0000_0000
  type usize = u64

  /** A 32-byte public key; equality is byte equality. */
  type Pubkey = s: seq<Byte> | |s| == 32 witness seq(32, _ => 0 as Byte)

  /** An account as fetched: balance, raw data, owning program, flags. */
  datatype Account = Account(
    lamports: u64,
    data: seq<Byte>,
    owner: Pubkey,
    executable: bool,
    rentEpoch: u64)

  /** One entry of an instruction's account list. */
  datatype AccountMeta = AccountMeta(pubkey: Pubkey, isSigner: bool, isWritable: bool)

  /** `AccountMeta::new_readonly`: the account is never writable. */
  function NewReadonly(pubkey: Pubkey, isSigner: bool): (m: AccountMeta)
    ensures m.pubkey == pubkey && m.isSigner == isSigner && !m.isWritable
  {
    AccountMeta(pubkey, isSigner, false)
  }

  /** The on-chain clock sysvar: slot, epoch and timestamps. */
  datatype Clock = Clock(
    slot: u64,
    epochStartTimestamp: i64,
    epoch: u64,
    leaderScheduleEpoch: u64,
    unixTimestamp: i64)
}
