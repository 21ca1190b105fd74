/** The `anyhow` errors the core raises, each carrying what it names. */
module Errors {
  import opened Sdk

  datatype Error =
      /** A string that is not the name of a swap mode. */
    | InvalidSwapMode(input: string)
      /** An address missing from an account map. */
    | AccountNotFound(address: Pubkey)
}
