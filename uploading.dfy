/**
 * The upload request (a newline-separated list of device tokens or aliases)
 * and its response.
 */
module Uploading {
  import opened Wrappers
  import opened Upush
  import opened Strings

  /** The values of an UploadParam's fields: what json.Marshal serialises. */
  datatype UploadFields = UploadFields(appKey: string, timestamp: string, content: string)

  /** A *UploadParam: the caller's record, which RawClient.Upload stamps in place. */
  class UploadParam {
    var appKey: string
    var timestamp: string
    var content: string

    function Value(): (fields: UploadFields)
      reads this
    {
      UploadFields(appKey, timestamp, content)
    }

    /** UploadParam{Content: content}. */
    constructor(content: string)
      ensures Value() == UploadFields("", "", content)
    {
      appKey, timestamp, this.content := "", "", content;
    }
  }

  /** The "data" object of an upload response. */
  datatype UploadData = UploadData(fileID: string, errorCode: string, errorMsg: string)

  datatype UploadResult = UploadResult(ret: RetCode, data: UploadData) {

    /** Success is exactly ret == "SUCCESS": "FAIL", "" and every other text are failures. */
    predicate IsSuccess()
      ensures IsSuccess() <==> ret == SUCCESS
      ensures ret == FAIL || ret == "" ==> !IsSuccess()
    {
      ret == SUCCESS
    }

    /** Nil exactly on success; otherwise the vendor's message and code. */
    function Error(): (e: Option<string>)
      ensures e.None? <==> IsSuccess()
      ensures e.Some? ==> e.value == VendorErrorText(data.errorMsg, data.errorCode)
      ensures e.Some? ==> data.errorMsg <= e.value && EndsWith(e.value, data.errorCode)
    {
      if !IsSuccess() then Some(VendorErrorText(data.errorMsg, data.errorCode)) else None
    }
  }

  /** &UploadResult{}. */
  const ZERO_UPLOAD_RESULT := UploadResult("", UploadData("", "", ""))

  /** UploadResult as an implementation of the Result interface. */
  function UploadResultOps(): (ops: ResultOps<UploadResult>) {
    ResultOps((r: UploadResult) => r.IsSuccess(), (r: UploadResult) => r.Error())
  }

  lemma UploadResultConforms()
    ensures Conforms(UploadResultOps())
  {
  }
}
