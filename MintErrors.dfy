/**
 * The user message `onMint` in src/Home.tsx derives from a thrown error. The branch
 * on `error.message` tests `indexOf(...)` for truthiness, so it takes a branch
 * whenever the code is NOT at position 0; the model keeps that test as written.
 */
module MintErrors {
  import opened Wrappers
  import opened Utils

  /** The fields of a thrown error the handler reads: `msg`, `code` and `message`. */
  datatype MintError = MintError(msg: Option<string>, code: Option<int>, message: Option<string>)

  /** A JavaScript string field is truthy when present and not empty. */
  predicate Truthy(s: Option<string>)
  {
    s.Some? && s.value != ""
  }

  const GENERIC_FAILURE: string := "Minting failed! Please try again!"
  const TRANSACTION_TIMEOUT: string := "Transaction Timeout! Please try again."
  const SOLD_OUT: string := "SOLD OUT!"
  const NOT_STARTED: string := "Minting period hasn't started yet."
  const INSUFFICIENT_FUNDS: string := "Insufficient funds to mint. Please fund your wallet."

  /** Program error codes the handler recognises in `error.code`. */
  const CODE_SOLD_OUT: int := 311
  const CODE_NOT_STARTED: int := 312

  /** `s.startsWith(p)`. */
  predicate StartsWith(s: string, p: string)
  {
    |p| <= |s| && s[..|p|] == p
  }

  /** The catch block of `onMint`, as written: an `indexOf` result is truthy unless it is 0. */
  function Classify(error: MintError): (message: string)
    ensures message in {GENERIC_FAILURE, TRANSACTION_TIMEOUT, SOLD_OUT, NOT_STARTED, INSUFFICIENT_FUNDS}
            || (Truthy(error.msg) && message == error.msg.value)
  {
    var message := if Truthy(error.msg) then error.msg.value else GENERIC_FAILURE;
    if !Truthy(error.msg) then
      if !Truthy(error.message) then TRANSACTION_TIMEOUT
      else if IndexOf(error.message.value, "0x138") != 0 then message
      else if IndexOf(error.message.value, "0x137") != 0 then SOLD_OUT
      else if IndexOf(error.message.value, "0x135") != 0 then INSUFFICIENT_FUNDS
      else message
    else if error.code == Some(CODE_SOLD_OUT) then SOLD_OUT
    else if error.code == Some(CODE_NOT_STARTED) then NOT_STARTED
    else message
  }

  /**
   * What the handler shows: with a `msg`, the code decides between the two program
   * errors and the `msg` itself; without `msg` or `message`, a timeout; with only a
   * `message`, "SOLD OUT!" exactly when it starts with "0x138", the generic text otherwise.
   */
  lemma ClassifyCases(error: MintError)
    ensures Truthy(error.msg) ==>
              Classify(error) == (if error.code == Some(CODE_SOLD_OUT) then SOLD_OUT
                                  else if error.code == Some(CODE_NOT_STARTED) then NOT_STARTED
                                  else error.msg.value)
    ensures !Truthy(error.msg) && !Truthy(error.message) ==> Classify(error) == TRANSACTION_TIMEOUT
    ensures !Truthy(error.msg) && Truthy(error.message) ==>
              Classify(error) == (if StartsWith(error.message.value, "0x138") then SOLD_OUT else GENERIC_FAILURE)
  {
    if !Truthy(error.msg) && Truthy(error.message) {
      var m := error.message.value;
      IndexOfZeroIffPrefix(m, "0x138");
      IndexOfZeroIffPrefix(m, "0x137");
      if StartsWith(m, "0x138") {
        assert m[..5] == "0x138";
        assert m[..5][4] == '8';
      }
    }
  }

  /** Without a `msg`, the insufficient-funds text is never shown. */
  lemma InsufficientFundsUnreachable(error: MintError)
    requires !Truthy(error.msg)
    ensures Classify(error) != INSUFFICIENT_FUNDS
  {
    ClassifyCases(error);
  }
}
