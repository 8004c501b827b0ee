/**
 * The two clients and the request pipeline they share. Every call into the Go
 * libraries (md5.Sum, json.Marshal and Unmarshal, http.NewRequestWithContext,
 * http.Client.Do, ioutil.ReadAll) is a field of an abstract Library: the model
 * fixes what is done with their outcomes, not the outcomes themselves.
 */
module Clients {
  import opened Wrappers
  import opened Upush
  import opened Strconv
  import opened Strings
  import opened Signing
  import opened Sending
  import opened Uploading

  const METHOD_POST := "POST"
  const SEND_PATH := "/api/send"
  const UPLOAD_PATH := "/upload"

  /** A *http.Client: the handle requests are sent through. */
  class HttpClient {
    constructor() {}
  }

  datatype Request = Request(httpMethod: string, url: string, body: seq<byte>)

  /** An HTTP response: the numeric code, the status line ("401 Unauthorized") and the body the server sent. */
  datatype Response = Response(statusCode: int, status: string, body: seq<byte>)

  /** The rungs of the pipeline, in the order they run. */
  datatype Step = Marshal | BuildRequest | Transport | Status | Read | Unmarshal | Vendor {
    function Rank(): (rank: nat) {
      match this
      case Marshal => 0
      case BuildRequest => 1
      case Transport => 2
      case Status => 3
      case Read => 4
      case Unmarshal => 5
      case Vendor => 6
    }
  }

  /** A non-nil error, with the step that produced it. */
  datatype Error = Error(step: Step, text: string)

  /** What json.Unmarshal leaves in the sink, and the error it returns. */
  datatype Decoded<R> = Decoded(filled: R, err: Option<string>)

  /** The library calls the pipeline makes, for request parameters P and result sinks R. */
  datatype Library<!P, !R> = Library(
    md5: seq<byte> -> Digest,
    marshal: P -> Result<seq<byte>>,
    requestError: Request -> Option<string>,
    transport: (HttpClient, Request) -> Result<Response>,
    readAll: Response -> Result<seq<byte>>,
    unmarshal: (seq<byte>, R) -> Decoded<R>)

  /** The error returned, the sink's final value, and the request handed to the transport, if any. */
  datatype Outcome<R> = Outcome(err: Option<Error>, result: R, sent: Option<Request>)

  /** The request sendRequest builds: the URL gets "?sign=" and the signature of the unsigned URL. */
  function SignedRequest(md5: seq<byte> -> Digest, secret: string, httpMethod: string, url: string, body: seq<byte>): (req: Request)
    ensures req.httpMethod == httpMethod && req.body == body
    ensures |req.url| == |url| + 38 && req.url[..|url|] == url && req.url[|url|..|url| + 6] == "?sign="
    ensures var sig := req.url[|url| + 6..];
      IsHexText(sig) && Unhex(sig) == md5(SignedString(httpMethod, url, body, secret))
  {
    var sig := Sign(md5, httpMethod, url, body, secret);
    var signed := url + "?sign=" + sig;
    assert signed[|url| + 6..] == sig;
    Request(httpMethod, signed, body)
  }

  /** sendRequest as a function: the ladder of early returns. */
  function Exchange<P, R>(lib: Library<P, R>, ops: ResultOps<R>, hc: HttpClient, secret: string,
                          httpMethod: string, url: string, p: P, sink: R): (o: Outcome<R>)
    ensures o.err.None? ==> o.sent.Some?
    ensures o.err.Some? && o.err.value.step.Rank() < Unmarshal.Rank() ==> o.result == sink
    ensures o.sent.Some? ==> o.sent.value.httpMethod == httpMethod && url + "?sign=" <= o.sent.value.url
  {
    match lib.marshal(p)
    case Err(m) => Outcome(Some(Error(Marshal, m)), sink, None)
    case Ok(body) =>
      var req := SignedRequest(lib.md5, secret, httpMethod, url, body);
      match lib.requestError(req)
      case Some(m) => Outcome(Some(Error(BuildRequest, m)), sink, None)
      case None =>
        match lib.transport(hc, req)
        case Err(m) => Outcome(Some(Error(Transport, m)), sink, Some(req))
        case Ok(res) =>
          if res.statusCode > 400 then Outcome(Some(Error(Status, res.status)), sink, Some(req))
          else
            match lib.readAll(res)
            case Err(m) => Outcome(Some(Error(Read, m)), sink, Some(req))
            case Ok(data) =>
              var d := lib.unmarshal(data, sink);
              match d.err
              case Some(m) => Outcome(Some(Error(Unmarshal, m)), d.filled, Some(req))
              case None =>
                match ops.error(d.filled)
                case Some(m) => Outcome(Some(Error(Vendor, m)), d.filled, Some(req))
                case None => Outcome(None, d.filled, Some(req))
  }

  /** The request handed to the transport is the signed one, and it passed request construction. */
  lemma SentRequestIsSigned<P, R>(lib: Library<P, R>, ops: ResultOps<R>, hc: HttpClient, secret: string,
                                  httpMethod: string, url: string, p: P, sink: R)
    ensures var o := Exchange(lib, ops, hc, secret, httpMethod, url, p, sink);
      o.sent.Some? ==>
        lib.marshal(p).Ok? &&
        o.sent.value == SignedRequest(lib.md5, secret, httpMethod, url, lib.marshal(p).value) &&
        lib.requestError(o.sent.value).None?
    ensures var o := Exchange(lib, ops, hc, secret, httpMethod, url, p, sink);
      o.sent.None? <==> o.err.Some? && o.err.value.step.Rank() <= BuildRequest.Rank()
  {
  }

  /**
   * A status code above 400 is returned as an error carrying the status line,
   * before anything is read or decoded; 400 itself and every lower code go on.
   */
  lemma StatusBoundary<P, R>(lib: Library<P, R>, ops: ResultOps<R>, hc: HttpClient, secret: string,
                             httpMethod: string, url: string, p: P, sink: R)
    requires lib.marshal(p).Ok?
    requires var req := SignedRequest(lib.md5, secret, httpMethod, url, lib.marshal(p).value);
      lib.requestError(req).None? && lib.transport(hc, req).Ok?
    ensures var req := SignedRequest(lib.md5, secret, httpMethod, url, lib.marshal(p).value);
      var res := lib.transport(hc, req).value;
      var o := Exchange(lib, ops, hc, secret, httpMethod, url, p, sink);
      (res.statusCode > 400 <==> o.err.Some? && o.err.value.step == Status) &&
      (res.statusCode > 400 ==> o.err == Some(Error(Status, res.status)) && o.result == sink) &&
      (res.statusCode <= 400 ==> o.err.None? || o.err.value.step.Rank() > Status.Rank())
  {
  }

  /** A reported error names the first step that failed; every step before it succeeded. */
  lemma ErrorNamesFirstFailingStep<P, R>(lib: Library<P, R>, ops: ResultOps<R>, hc: HttpClient, secret: string,
                                         httpMethod: string, url: string, p: P, sink: R)
    ensures var o := Exchange(lib, ops, hc, secret, httpMethod, url, p, sink);
      o.err.Some? ==>
        var k := o.err.value.step;
        var m := lib.marshal(p);
        (k == Marshal <==> m.Err?) &&
        (m.Ok? ==>
          var req := SignedRequest(lib.md5, secret, httpMethod, url, m.value);
          (k == BuildRequest <==> lib.requestError(req).Some?) &&
          (lib.requestError(req).None? ==>
            var t := lib.transport(hc, req);
            (k == Transport <==> t.Err?) &&
            (t.Ok? ==>
              (k == Status <==> t.value.statusCode > 400) &&
              (t.value.statusCode <= 400 ==>
                var d := lib.readAll(t.value);
                (k == Read <==> d.Err?) &&
                (d.Ok? ==> (k == Unmarshal <==> lib.unmarshal(d.value, sink).err.Some?))))))
  {
  }

  /** Two libraries that behave alike for every step up to and including k. */
  ghost predicate AgreeThrough<P, R>(a: Library<P, R>, b: Library<P, R>, k: Step) {
    a.marshal == b.marshal &&
    (k.Rank() >= BuildRequest.Rank() ==> a.md5 == b.md5 && a.requestError == b.requestError) &&
    (k.Rank() >= Transport.Rank() ==> a.transport == b.transport) &&
    (k.Rank() >= Read.Rank() ==> a.readAll == b.readAll) &&
    (k.Rank() >= Unmarshal.Rank() ==> a.unmarshal == b.unmarshal)
  }

  /** Once a step fails, the steps after it are not run: what they would do cannot change the outcome. */
  lemma LaterStepsDoNotRun<P, R>(lib: Library<P, R>, other: Library<P, R>, ops: ResultOps<R>, hc: HttpClient,
                                 secret: string, httpMethod: string, url: string, p: P, sink: R)
    requires var o := Exchange(lib, ops, hc, secret, httpMethod, url, p, sink);
      o.err.Some? && AgreeThrough(lib, other, o.err.value.step)
    ensures Exchange(other, ops, hc, secret, httpMethod, url, p, sink) == Exchange(lib, ops, hc, secret, httpMethod, url, p, sink)
  {
    var k := Exchange(lib, ops, hc, secret, httpMethod, url, p, sink).err.value.step;
    if lib.marshal(p).Ok? {
      var req := SignedRequest(lib.md5, secret, httpMethod, url, lib.marshal(p).value);
      assert k.Rank() >= BuildRequest.Rank();
      assert SignedRequest(other.md5, secret, httpMethod, url, other.marshal(p).value) == req;
      if lib.requestError(req).None? {
        assert k.Rank() >= Transport.Rank();
        var res := lib.transport(hc, req);
        if res.Ok? && res.value.statusCode <= 400 {
          assert k.Rank() >= Read.Rank();
          if lib.readAll(res.value).Ok? {
            assert k.Rank() >= Unmarshal.Rank();
          }
        }
      }
    }
  }

  /**
   * For a result type that implements the interface, the pipeline returns nil
   * exactly when every step succeeded and the decoded result is a success.
   */
  lemma NilErrorIffSuccess<P, R(!new)>(lib: Library<P, R>, ops: ResultOps<R>, hc: HttpClient, secret: string,
                                       httpMethod: string, url: string, p: P, sink: R)
    requires Conforms(ops)
    ensures var o := Exchange(lib, ops, hc, secret, httpMethod, url, p, sink);
      o.err.None? <==>
        lib.marshal(p).Ok? &&
        var req := SignedRequest(lib.md5, secret, httpMethod, url, lib.marshal(p).value);
        lib.requestError(req).None? && lib.transport(hc, req).Ok? &&
        lib.transport(hc, req).value.statusCode <= 400 &&
        lib.readAll(lib.transport(hc, req).value).Ok? &&
        var d := lib.unmarshal(lib.readAll(lib.transport(hc, req).value).value, sink);
        d.err.None? && ops.isSuccess(d.filled) && o.result == d.filled
  {
  }

  /** A *RawClient. */
  class RawClient {
    const appKey: string
    const appMasterSecret: string
    var gatewayURL: string
    const hc: HttpClient

    /** NewRawClient(appKey, appMasterSecret): credentials as given, HTTPS gateway, a fresh http.Client. */
    constructor(appKey: string, appMasterSecret: string)
      ensures this.appKey == appKey && this.appMasterSecret == appMasterSecret
      ensures gatewayURL == HTTPS_GATEWAY_URL && fresh(hc)
    {
      this.appKey := appKey;
      this.appMasterSecret := appMasterSecret;
      gatewayURL := HTTPS_GATEWAY_URL;
      hc := new HttpClient();
    }

    /** SetHTTPS(b): select the gateway; the credentials and the http.Client are constants. */
    method SetHTTPS(b: bool)
      modifies this
      ensures b ==> gatewayURL == HTTPS_GATEWAY_URL
      ensures !b ==> gatewayURL == HTTP_GATEWAY_URL
    {
      if b {
        gatewayURL := HTTPS_GATEWAY_URL;
      } else {
        gatewayURL := HTTP_GATEWAY_URL;
      }
    }

    /** sendRequest(ctx, method, url, p, result): returns the error and the sink's final value. */
    method SendRequest<P, R>(lib: Library<P, R>, ops: ResultOps<R>, httpMethod: string, url: string, p: P, sink: R)
      returns (err: Option<Error>, result: R)
      ensures var o := Exchange(lib, ops, hc, appMasterSecret, httpMethod, url, p, sink);
        err == o.err && result == o.result
    {
      result := sink;
      var marshalled := lib.marshal(p);
      if marshalled.Err? {
        return Some(Error(Marshal, marshalled.msg)), result;
      }
      var body := marshalled.value;
      var mysign := Sign(lib.md5, httpMethod, url, body, appMasterSecret);
      var signedURL := url + "?sign=" + mysign;
      var req := Request(httpMethod, signedURL, body);
      assert req == SignedRequest(lib.md5, appMasterSecret, httpMethod, url, body);
      var buildErr := lib.requestError(req);
      if buildErr.Some? {
        return Some(Error(BuildRequest, buildErr.value)), result;
      }
      var res := lib.transport(hc, req);
      if res.Err? {
        return Some(Error(Transport, res.msg)), result;
      }
      if res.value.statusCode > 400 {
        return Some(Error(Status, res.value.status)), result;
      }
      var respData := lib.readAll(res.value);
      if respData.Err? {
        return Some(Error(Read, respData.msg)), result;
      }
      var decoded := lib.unmarshal(respData.value, result);
      result := decoded.filled;
      if decoded.err.Some? {
        return Some(Error(Unmarshal, decoded.err.value)), result;
      }
      var vendorErr := ops.error(result);
      if vendorErr.Some? {
        err := Some(Error(Vendor, vendorErr.value));
      } else {
        err := None;
      }
    }

    /**
     * Send(ctx, p): stamps the app key and the decimal Unix time onto the
     * caller's record, then POSTs it to the send endpoint. The result record is
     * returned together with the error, whatever the error is.
     */
    method Send(p: SendParam, now: Int64, lib: Library<SendFields, SendResult>) returns (r: SendResult, err: Option<Error>)
      modifies p
      ensures p.Value() == old(p.Value()).(appKey := appKey, timestamp := FormatInt(now as int))
      ensures var o := Exchange(lib, SendResultOps(), hc, appMasterSecret, METHOD_POST, gatewayURL + SEND_PATH, p.Value(), ZERO_SEND_RESULT);
        r == o.result && err == o.err
    {
      p.appKey := appKey;
      p.timestamp := FormatInt(now as int);
      err, r := SendRequest(lib, SendResultOps(), METHOD_POST, gatewayURL + SEND_PATH, p.Value(), ZERO_SEND_RESULT);
    }

    /** Upload(ctx, p): stamps the app key and time (the content is untouched), then POSTs to the upload endpoint. */
    method Upload(p: UploadParam, now: Int64, lib: Library<UploadFields, UploadResult>) returns (r: UploadResult, err: Option<Error>)
      modifies p
      ensures p.Value() == UploadFields(appKey, FormatInt(now as int), old(p.content))
      ensures var o := Exchange(lib, UploadResultOps(), hc, appMasterSecret, METHOD_POST, gatewayURL + UPLOAD_PATH, p.Value(), ZERO_UPLOAD_RESULT);
        r == o.result && err == o.err
    {
      p.appKey := appKey;
      p.timestamp := FormatInt(now as int);
      err, r := SendRequest(lib, UploadResultOps(), METHOD_POST, gatewayURL + UPLOAD_PATH, p.Value(), ZERO_UPLOAD_RESULT);
    }
  }

  /** A *Client: the convenience wrapper around its own RawClient. */
  class Client {
    const rc: RawClient

    /** NewClient(appKey, appMasterSecret): the same initial state as NewRawClient. */
    constructor(appKey: string, appMasterSecret: string)
      ensures fresh(rc) && fresh(rc.hc)
      ensures rc.appKey == appKey && rc.appMasterSecret == appMasterSecret
      ensures rc.gatewayURL == HTTPS_GATEWAY_URL
    {
      rc := new RawClient(appKey, appMasterSecret);
    }

    /** SetHTTPS(b): exactly RawClient.SetHTTPS on the wrapped client. */
    method SetHTTPS(b: bool)
      modifies rc
      ensures b ==> rc.gatewayURL == HTTPS_GATEWAY_URL
      ensures !b ==> rc.gatewayURL == HTTP_GATEWAY_URL
    {
      rc.SetHTTPS(b);
    }

    /**
     * SendFilecast(ctx, fileID, payload, params...): the first given record, or
     * a fresh zero one, gets the file id, the payload and type "filecast"; any
     * further records are ignored. Every other field the caller set is sent as is.
     */
    method SendFilecast(fileID: string, payload: Payload, params: seq<SendParam>, now: Int64,
                        lib: Library<SendFields, SendResult>) returns (r: SendResult, err: Option<Error>)
      modifies if |params| > 0 then {params[0]} else {}
      ensures |params| > 0 ==>
        params[0].Value() == old(params[0].Value()).(fileID := fileID, payload := payload, sendType := SEND_TYPE_FILECAST,
                                                     appKey := rc.appKey, timestamp := FormatInt(now as int))
      ensures var sent := if |params| > 0 then params[0].Value()
        else ZERO_SEND_FIELDS.(fileID := fileID, payload := payload, sendType := SEND_TYPE_FILECAST,
                               appKey := rc.appKey, timestamp := FormatInt(now as int));
        var o := Exchange(lib, SendResultOps(), rc.hc, rc.appMasterSecret, METHOD_POST, rc.gatewayURL + SEND_PATH, sent, ZERO_SEND_RESULT);
        r == o.result && err == o.err
    {
      var p: SendParam;
      ghost var before: SendFields;
      if |params| > 0 {
        p := params[0];
        before := p.Value();
      } else {
        p := new SendParam();
        before := ZERO_SEND_FIELDS;
      }
      p.fileID := fileID;
      p.payload := payload;
      p.sendType := SEND_TYPE_FILECAST;
      assert p.Value() == before.(fileID := fileID, payload := payload, sendType := SEND_TYPE_FILECAST);
      ghost var sent := before.(fileID := fileID, payload := payload, sendType := SEND_TYPE_FILECAST,
                                appKey := rc.appKey, timestamp := FormatInt(now as int));
      r, err := rc.Send(p, now, lib);
      assert p.Value() == sent;
      assert p.Value() == if |params| > 0 then params[0].Value() else ZERO_SEND_FIELDS.(
        fileID := fileID, payload := payload, sendType := SEND_TYPE_FILECAST,
        appKey := rc.appKey, timestamp := FormatInt(now as int));
    }

    /** Upload(ctx, tokens): uploads the tokens joined with "\n". */
    method Upload(tokens: seq<string>, now: Int64, lib: Library<UploadFields, UploadResult>) returns (r: UploadResult, err: Option<Error>)
      ensures var sent := UploadFields(rc.appKey, FormatInt(now as int), Join(tokens, "\n"));
        var o := Exchange(lib, UploadResultOps(), rc.hc, rc.appMasterSecret, METHOD_POST, rc.gatewayURL + UPLOAD_PATH, sent, ZERO_UPLOAD_RESULT);
        r == o.result && err == o.err
    {
      var p := new UploadParam(Join(tokens, "\n"));
      r, err := rc.Upload(p, now, lib);
    }
  }

  /** The last SetHTTPS call decides the gateway: false gives HTTP, then true gives HTTPS back. */
  method HttpsToggleLastCallWins() returns (afterFalse: string, afterTrue: string)
    ensures afterFalse == HTTP_GATEWAY_URL && afterTrue == HTTPS_GATEWAY_URL
  {
    var c := new Client("K", "S");
    c.SetHTTPS(false);
    afterFalse := c.rc.gatewayURL;
    c.SetHTTPS(true);
    afterTrue := c.rc.gatewayURL;
  }
}
