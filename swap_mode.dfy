/** Whether a quote's amount is the exact input or the exact output. */
module SwapModes {
  import opened Wrappers
  import opened Errors

  datatype SwapMode = ExactIn | ExactOut

  /** Specification helper: the variant's name, the string form of each mode under the derived `Serialize`. */
  function Name(m: SwapMode): string {
    match m
    case ExactIn => "ExactIn"
    case ExactOut => "ExactOut"
  }

  /** `#[default]` marks ExactIn. */
  function Default(): (m: SwapMode)
    ensures Name(m) == "ExactIn"
  {
    ExactIn
  }

  /**
   * `FromStr`: an exact, case-sensitive match on the two names; anything
   * else fails with an error carrying the rejected string.
   */
  function FromStr(s: string): (r: Result<SwapMode, Error>)
    ensures r.Ok? <==> s == "ExactIn" || s == "ExactOut"
    ensures r.Ok? ==> Name(r.value) == s
    ensures r.Err? ==> r.error == InvalidSwapMode(s)
  {
    if s == "ExactIn" then Ok(ExactIn)
    else if s == "ExactOut" then Ok(ExactOut)
    else Err(InvalidSwapMode(s))
  }

  /** The text the error returned by `FromStr` renders as: "<input> is not a valid SwapMode". */
  function ErrorMessage(e: Error): (msg: string)
    requires e.InvalidSwapMode?
    ensures |msg| > |e.input| && msg[..|e.input|] == e.input
  {
    e.input + " is not a valid SwapMode"
  }

  /** Parsing a mode's name gives the mode back. */
  lemma FromStrName(m: SwapMode)
    ensures FromStr(Name(m)) == Ok(m)
  {
  }

  /** Two strings parse to the same mode only if they are the same string. */
  lemma FromStrInjective(s: string, t: string)
    requires FromStr(s).Ok? && FromStr(s) == FromStr(t)
    ensures s == t
  {
  }

  /** Near misses are rejected: wrong case, the empty string, padding. */
  lemma FromStrRejectsNearMisses()
    ensures FromStr("exactin") == Err(InvalidSwapMode("exactin"))
    ensures FromStr("EXACTOUT") == Err(InvalidSwapMode("EXACTOUT"))
    ensures FromStr("") == Err(InvalidSwapMode(""))
    ensures FromStr("ExactIn ") == Err(InvalidSwapMode("ExactIn "))
  {
  }

  /** Every mode is the parse of exactly one string, its name. */
  lemma {:induction false} EachModeHasOneStringForm(m: SwapMode)
    ensures exists s :: FromStr(s) == Ok(m)
    ensures forall s :: FromStr(s) == Ok(m) ==> s == Name(m)
  {
    FromStrName(m);
  }

  /** Every rejected string is named at the head of the message its error renders as. */
  lemma RejectionMessageNamesInput(s: string)
    requires FromStr(s).Err?
    ensures FromStr(s).error.InvalidSwapMode?
    ensures ErrorMessage(FromStr(s).error)[..|s|] == s
  {
  }

  /** The message names the rejected input: distinct rejections give distinct messages. */
  lemma ErrorMessageInjective(e: Error, f: Error)
    requires e.InvalidSwapMode? && f.InvalidSwapMode?
    requires ErrorMessage(e) == ErrorMessage(f)
    ensures e == f
  {
  }
}
