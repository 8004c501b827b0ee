/**
 * Package-level declarations of the push client: the string-typed enums,
 * the two gateway origins and the Result capability every response type offers.
 */
module Upush {
  import opened Wrappers

  /** Go's `Bool`, a string type whose two named values are "true" and "false". */
  type Bool = string

  const BOOL_TRUE: Bool := "true"
  const BOOL_FALSE: Bool := "false"

  /** Go's `RetCode`: the vendor status field "ret" of every response. */
  type RetCode = string

  const SUCCESS: RetCode := "SUCCESS"
  const FAIL: RetCode := "FAIL"

  const HTTP_GATEWAY_URL := "http://msg.umeng.com"
  const HTTPS_GATEWAY_URL := "https://msgapi.umeng.com"

  /**
   * The `Result` interface: a success check and the error the result stands for
   * (None is Go's nil error, Some(text) an error whose Error() is text).
   */
  datatype ResultOps<!R> = ResultOps(isSuccess: R -> bool, error: R -> Option<string>)

  /** The property both implementations in the package have: no error exactly when successful. */
  ghost predicate Conforms<R(!new)>(ops: ResultOps<R>) {
    forall r :: ops.error(r).None? <==> ops.isSuccess(r)
  }

  /**
   * The text of the error both result types synthesise from the vendor's
   * error_msg and error_code, fmt.Errorf("%s, code=%s", msg, code).
   */
  function VendorErrorText(msg: string, code: string): (text: string)
    ensures |text| == |msg| + 7 + |code|
    ensures text[..|msg|] == msg && text[|msg|..|msg| + 7] == ", code=" && text[|msg| + 7..] == code
  {
    msg + ", code=" + code
  }

  /** Given the message, the error text determines the vendor's error code. */
  lemma VendorErrorTextInjective(msg: string, code1: string, code2: string)
    requires VendorErrorText(msg, code1) == VendorErrorText(msg, code2)
    ensures code1 == code2
  {
    var t := VendorErrorText(msg, code1);
    assert code1 == t[|msg| + 7..] == code2;
  }

  /** The named constants: two distinct ret codes, two distinct Bool values, two gateways with their schemes. */
  lemma Constants()
    ensures SUCCESS != FAIL && BOOL_TRUE != BOOL_FALSE
    ensures HTTP_GATEWAY_URL != HTTPS_GATEWAY_URL
    ensures HTTPS_GATEWAY_URL[..8] == "https://" && HTTP_GATEWAY_URL[..7] == "http://"
  {
  }
}
