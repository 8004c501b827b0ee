/**
 * The send request and its response: the parameter record the client stamps
 * in place, and the result with its success check and error.
 */
module Sending {
  import opened Wrappers
  import opened Upush
  import opened Strings
  import opened Strconv

  /** Go's `SendType`, a string type with five named values; its zero value is "". */
  type SendType = string

  const SEND_TYPE_UNICAST: SendType := "unicast"
  const SEND_TYPE_LISTCAST: SendType := "listcast"
  const SEND_TYPE_FILECAST: SendType := "filecast"
  const SEND_TYPE_BROADCAST: SendType := "broadcast"
  const SEND_TYPE_CUSTOMIZEDCAST: SendType := "customizedcast"

  /** Go's `ReceiptType`: "1" delivered, "2" clicked, "3" both. */
  type ReceiptType = string

  const RECEIPT_TYPE_RECEIVED: ReceiptType := "1"
  const RECEIPT_TYPE_CLICKED: ReceiptType := "2"
  const RECEIPT_TYPE_BOTH: ReceiptType := "3"

  /** The optional send policy; every field is passed through to the vendor untouched. */
  datatype SendPolicy = SendPolicy(
    startTime: string,
    expireTime: string,
    maxSendNum: Int64,
    outBizNo: string,
    apnsCollapseID: string)

  const ZERO_POLICY := SendPolicy("", "", 0, "", "")

  /** The caller's payload, a Go interface{}: nil, or a value known only by its JSON text. */
  datatype Payload = NilPayload | JsonPayload(json: string)

  /** The values of a SendParam's fields: what json.Marshal serialises. */
  datatype SendFields = SendFields(
    appKey: string,
    timestamp: string,
    sendType: SendType,
    deviceTokens: string,
    aliasType: string,
    alias: string,
    fileID: string,
    filter: string,
    payload: Payload,
    policy: SendPolicy,
    productionMode: Bool,
    description: string,
    mipush: Bool,
    miActivity: string,
    receiptURL: string,
    receiptType: ReceiptType)

  /** The Go zero value SendParam{}. */
  const ZERO_SEND_FIELDS := SendFields("", "", "", "", "", "", "", "", NilPayload, ZERO_POLICY, "", "", "", "", "", "")

  /** A *SendParam: the caller's record, which Send and SendFilecast update in place. */
  class SendParam {
    var appKey: string
    var timestamp: string
    var sendType: SendType
    var deviceTokens: string
    var aliasType: string
    var alias: string
    var fileID: string
    var filter: string
    var payload: Payload
    var policy: SendPolicy
    var productionMode: Bool
    var description: string
    var mipush: Bool
    var miActivity: string
    var receiptURL: string
    var receiptType: ReceiptType

    function Value(): (fields: SendFields)
      reads this
    {
      SendFields(appKey, timestamp, sendType, deviceTokens, aliasType, alias, fileID, filter,
                 payload, policy, productionMode, description, mipush, miActivity, receiptURL, receiptType)
    }

    /** &SendParam{}: a fresh record holding the zero value. */
    constructor()
      ensures Value() == ZERO_SEND_FIELDS
    {
      appKey, timestamp, sendType, deviceTokens := "", "", "", "";
      aliasType, alias, fileID, filter := "", "", "", "";
      payload, policy, productionMode, description := NilPayload, ZERO_POLICY, "", "";
      mipush, miActivity, receiptURL, receiptType := "", "", "", "";
    }
  }

  /** The "data" object of a send response. */
  datatype SendData = SendData(msgID: string, taskID: string, errorCode: string, errorMsg: string)

  /** A send response: the vendor status "ret" and its data. */
  datatype SendResult = SendResult(ret: RetCode, data: SendData) {

    /** Success is exactly ret == "SUCCESS": "FAIL", "" and every other text are failures. */
    predicate IsSuccess()
      ensures IsSuccess() <==> ret == SUCCESS
      ensures ret == FAIL || ret == "" ==> !IsSuccess()
    {
      ret == SUCCESS
    }

    /** Nil exactly on success; otherwise the vendor's message and code. */
    function Error(): (e: Option<string>)
      ensures e.None? <==> IsSuccess()
      ensures e.Some? ==> e.value == VendorErrorText(data.errorMsg, data.errorCode)
      ensures e.Some? ==> data.errorMsg <= e.value && EndsWith(e.value, data.errorCode)
    {
      if !IsSuccess() then Some(VendorErrorText(data.errorMsg, data.errorCode)) else None
    }
  }

  /** &SendResult{}: the empty sink a response is decoded into. */
  const ZERO_SEND_RESULT := SendResult("", SendData("", "", "", ""))

  /** SendResult as an implementation of the Result interface. */
  function SendResultOps(): (ops: ResultOps<SendResult>) {
    ResultOps((r: SendResult) => r.IsSuccess(), (r: SendResult) => r.Error())
  }

  lemma SendResultConforms()
    ensures Conforms(SendResultOps())
  {
  }

  /** The two decoded responses described for the send endpoint. */
  lemma SendResultExamples()
    ensures SendResult(SUCCESS, SendData("123", "", "", "")).Error() == None
    ensures SendResult(FAIL, SendData("", "", "40001", "invalid appkey")).Error() == Some("invalid appkey, code=40001")
  {
    assert "invalid appkey" + ", code=" + "40001" == "invalid appkey, code=40001";
  }

  lemma SendTypesDistinct()
    ensures |{SEND_TYPE_UNICAST, SEND_TYPE_LISTCAST, SEND_TYPE_FILECAST, SEND_TYPE_BROADCAST, SEND_TYPE_CUSTOMIZEDCAST}| == 5
  {
  }
}
