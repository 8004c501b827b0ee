# upush: a Dafny model of the Umeng push client's core

The Go package `upush` is a client for the Umeng push gateway. It builds
signed HTTP requests to send notifications and to upload recipient files,
then decodes the vendor's JSON replies into typed results. This project models
its deterministic core and proves properties of that model:

- **Signing** (`Signing`): the signed string is the method, the URL, the body
  and the app master secret, concatenated in that order with no separators.
  The signature is the MD5 digest of that string's bytes, printed with `%x`.
  MD5 is a parameter `md5: seq<byte> -> Digest` (any function returning 16
  bytes). The concatenation, the UTF-8 bytes of the text parts and the
  lowercase-hex rendering are modelled exactly. `Unhex`
  is a reference decoder, and `Hex` and `Unhex` are proved inverse in both
  directions.
- **The request pipeline** (`Clients`): `sendRequest` is a ladder of early
  returns. The steps are marshal, sign the unsigned URL, append `?sign=`,
  build the request, transport, status check (`> 400`), read, unmarshal, and
  then the result's `Error()`. Every library call it makes is a field of an
  abstract `Library` value: `json.Marshal`, `http.NewRequestWithContext`,
  `http.Client.Do`, `ioutil.ReadAll`, `json.Unmarshal` and `md5.Sum`.
  `Exchange` is the pipeline written as a function. The method
  `RawClient.SendRequest` runs the same ladder step by step and is proved
  equal to it. The lemmas beside `Exchange` cover the signed URL, the status
  boundary, which step an error comes from, that later steps are skipped, and
  when nil is returned. Each error is tagged with the `Step` that produced it.
- **Results** (`Sending`, `Uploading`, `Upush`): the `Result` interface is
  `Upush.ResultOps`, a pair of `IsSuccess` and `Error`. `Conforms` is the
  property both implementations in the package have: the error is nil exactly on success.
  `SendResult` and `UploadResult` are proved to implement it. Their error text
  is `error_msg + ", code=" + error_code`.
- **Client state** (`Clients.RawClient`, `Clients.Client`): the gateway URL is
  the only mutable field. The app key, the secret and the `http.Client` handle
  are never reassigned in the source, so they are `const` here.
- **Façades**: `RawClient.Send` and `RawClient.Upload` stamp the app key and
  the decimal Unix time onto the caller's record in place. `Client.SendFilecast`
  overwrites the file id, the payload and the type on the caller's first record,
  or on a fresh one. `Client.Upload` joins the tokens with `"\n"`. Go's
  `strconv.FormatInt` and `strings.Join` are modelled in `Strconv` and
  `Strings`, together with the reference readings (`DecimalValue`, `Split`)
  that the round-trip lemmas use.

Go code and model code are laid out alike, except for one thing. Dafny cannot
split a class across modules, so the methods that `send.go` and `upload.go`
declare on `RawClient` and `Client` are in the classes in `clients.dfy`. The
`## Model` table cites their lines in `send.go` and `upload.go`.

Go strings are written as Dafny `string`s, that is, as the text they hold.
Request and response bodies are byte sequences. A Go string stores its text as
UTF-8, so `[]byte(str)` of a text is `Signing.Utf8` of it. `string(postBody)`
keeps the body's bytes as they are, so the digest input is the UTF-8 bytes of
the method and the URL, then the body bytes, then the UTF-8 bytes of the
secret. `time.Now().Unix()` is the parameter
`now: Int64`. The `context.Context` argument is not modelled. It affects only
`http.NewRequestWithContext`, `Client.Do` and the reading of the response body
by `ioutil.ReadAll`, and the outcomes of those three are inputs.

## Model

| member | source | states |
|---|---|---|
| `Signing.EncodeChar` | upush/sign.go:10-11 | One character is 1 to 4 UTF-8 bytes. It is one byte, equal to the character's code, exactly when the code is below 0x80. Otherwise a lead byte ≥ 0xC0 is followed by continuation bytes in 0x80–0xBF. |
| `Signing.Utf8` | upush/sign.go:10-11 | A text's bytes are at least as many as its characters. |
| `Signing.Utf8Concat` | upush/sign.go:10-11 | The bytes of a concatenation are the bytes of the parts, in order. |
| `Signing.NonAsciiSignedAsUtf8` | upush/sign.go:10-11 | `"é"` is the two bytes C3 A9, so a method `"é"` and a body byte E9 give different digest inputs. |
| `Signing.SignedString` | upush/sign.go:10-11 | The digest input is the UTF-8 bytes of the method, the UTF-8 bytes of the URL, the body bytes unchanged and the UTF-8 bytes of the secret, at consecutive offsets in that order with nothing between them. |
| `Signing.Sign` | upush/sign.go:9-12 | The signature has exactly 32 characters, all lowercase hex digits, and decodes to the digest of the signed string. |
| `Signing.Hex` | upush/sign.go:11 | `%x` of n bytes is 2n characters, each in `0-9a-f`. |
| `Signing.UnhexHex` | upush/sign.go:11 | Decoding the hex rendering gives back exactly the bytes rendered. |
| `Signing.HexAt` | upush/sign.go:11 | Byte i is rendered at characters 2i and 2i+1, high nibble first, so byte order is kept. |
| `Signing.HexUnhex` | upush/sign.go:11 | Every lowercase hex text of even length is the rendering of the bytes it decodes to. So a signature that decodes to the digest is exactly `%x` of the digest. |
| `Signing.HexInjective` | upush/sign.go:11 | Two byte sequences with the same hex rendering are equal. |
| `Signing.SignSeesOnlyConcatenation` | upush/sign.go:9-12 | Inputs with equal signed strings have equal signatures, so `Sign` is deterministic. |
| `Signing.SignBoundaryShift` | upush/sign.go:10 | `("a","bc",…)` and `("ab","c",…)` get the same signature, because no separator is inserted. |
| `Upush.VendorErrorText` | upush/send.go:268 | The error text is the message, then `", code="`, then the code, each at its own offsets. |
| `Upush.VendorErrorTextInjective` | upush/upload.go:40 | For a given message, the error text determines the error code. |
| `Upush.Constants` | upush/upush.go:6-23 | `SUCCESS` and `FAIL` differ, and `"true"` and `"false"` differ. The two gateways are distinct, with schemes `https://` and `http://`. |
| `Sending.SendTypesDistinct` | upush/send.go:14-27 | The five named send types are five different strings. |
| `Sending.SendParam.constructor` | upush/send.go:298 | `&SendParam{}` holds the zero value in every field. |
| `Sending.SendResult.IsSuccess` | upush/send.go:262-264 | Success holds iff `ret == "SUCCESS"`, so `"FAIL"` and `""` are failures. |
| `Sending.SendResult.Error` | upush/send.go:266-271 | The error is nil iff `IsSuccess`. Otherwise it is `error_msg + ", code=" + error_code`: it starts with the message and ends with the code. |
| `Sending.SendResultConforms` | upush/upush.go:27-30 | `SendResult` implements the `Result` interface: the error is nil exactly when `IsSuccess`. |
| `Sending.SendResultExamples` | upush/send.go:266-271 | A decoded SUCCESS reply has a nil error. A decoded FAIL reply with code 40001 gives `"invalid appkey, code=40001"`. |
| `Uploading.UploadParam.constructor` | upush/upload.go:75-77 | `UploadParam{Content: c}` holds c and empty app key and timestamp. |
| `Uploading.UploadResult.IsSuccess` | upush/upload.go:34-36 | Success holds iff `ret == "SUCCESS"`, so `"FAIL"` and `""` are failures. |
| `Uploading.UploadResult.Error` | upush/upload.go:38-43 | The error is nil iff `IsSuccess`. Otherwise it is `error_msg + ", code=" + error_code`: it starts with the message and ends with the code. |
| `Uploading.UploadResultConforms` | upush/upload.go:34-43 | `UploadResult` implements the `Result` interface. |
| `Strconv.FormatNat` | upush/send.go:280 | The digits of a natural number: at least one digit, and no leading zero. |
| `Strconv.FormatNatValue` | upush/send.go:280 | The digits read back as the number. |
| `Strconv.FormatInt` | upush/send.go:280 | The timestamp is a canonical decimal numeral (optional `-`, no leading zero) whose value is the clock reading. |
| `Strconv.FormatIntInjective` | upush/send.go:280 | Different clock readings give different timestamp strings. |
| `Strings.Split` | upush/upload.go:16 | Splitting on the separator always gives at least one piece. |
| `Strings.Join` | upush/upload.go:76 | The joined text starts with the first token and ends with the last one. With two or more tokens, the first token is followed by the separator. |
| `Strings.JoinExample` | upush/upload.go:76 | `Join(["abc","def","ghi"], "\n")` is `"abc\ndef\nghi"`. |
| `Strings.JoinSmall` | upush/upload.go:76 | Joining no tokens gives `""`, and joining one token gives that token. |
| `Strings.JoinLength` | upush/upload.go:76 | For n ≥ 1 tokens, the joined length is the sum of the token lengths plus n−1 separators. |
| `Strings.SplitJoin` | upush/upload.go:76 | For a non-empty list of tokens that contain no `"\n"`, splitting the content on `"\n"` gives the list back. |
| `Clients.SignedRequest` | upush/client.go:66-67 | The request URL is the unsigned URL, then `?sign=`, then 32 lowercase hex digits that decode to the digest over the unsigned URL. The method and the body are unchanged. |
| `Clients.Exchange` | upush/client.go:61-89 | A nil error means a request was sent. An error from a step before decoding leaves the sink untouched. A sent request keeps the method, and its URL starts with the unsigned URL and `?sign=`. |
| `Clients.SentRequestIsSigned` | upush/client.go:62-72 | A request reaches the transport only after marshalling and request building both succeed, and it is the signed request. No request is sent exactly when the error comes from marshalling or request building. |
| `Clients.StatusBoundary` | upush/client.go:76-78 | A status above 400 returns an error with the status line and an untouched sink. A status of 400 or below never gives a status error and goes on to read and decode. |
| `Clients.ErrorNamesFirstFailingStep` | upush/client.go:62-87 | A returned error is tagged with step k iff every earlier step succeeded and step k failed. |
| `Clients.LaterStepsDoNotRun` | upush/client.go:62-87 | After step k fails, nothing the later library calls would do changes the outcome. |
| `Clients.NilErrorIffSuccess` | upush/client.go:84-88 | For a conforming result type, the error is nil iff every step succeeded and the decoded result is a success. The result returned is then the decoded one. |
| `Clients.RawClient.constructor` | upush/client.go:26-33 | `NewRawClient` stores the key and the secret unchanged, selects the HTTPS gateway and creates a fresh http.Client. |
| `Clients.RawClient.SetHTTPS` | upush/client.go:48-54 | `true` selects the HTTPS gateway and `false` the HTTP one, whatever the gateway was before. Only `gatewayURL` can change. |
| `Clients.RawClient.SendRequest` | upush/client.go:61-89 | The step-by-step ladder returns exactly the error and sink value of `Exchange`. |
| `Clients.RawClient.Send` | upush/send.go:278-290 | The caller's record changes only in `AppKey` (set to the client's key) and `Timestamp` (set to `FormatInt(now)`). It is then POSTed to `gatewayURL + "/api/send"`. The result record is returned with the pipeline's error, whatever that error is. |
| `Clients.RawClient.Upload` | upush/upload.go:57-69 | The record changes only in `AppKey` and `Timestamp`, and `Content` is kept. It is POSTed to `gatewayURL + "/upload"`, and the result is returned with the error. |
| `Clients.Client.constructor` | upush/client.go:36-45 | `NewClient` starts in the same state as `NewRawClient` would: given credentials, HTTPS gateway. |
| `Clients.Client.SetHTTPS` | upush/client.go:57-59 | Has exactly the effect of `RawClient.SetHTTPS` on the wrapped client. |
| `Clients.Client.SendFilecast` | upush/send.go:293-304 | With at least one record, `params[0]` is updated in place: `FileID`, `Payload` and `Type := "filecast"`, plus the stamped key and time. All its other fields are kept, and further records are ignored. Without records, a zero record with those fields is sent. |
| `Clients.Client.Upload` | upush/upload.go:74-78 | Sends `UploadParam{Content: Join(tokens, "\n")}` stamped with the key and time to the upload endpoint. |
| `Clients.HttpsToggleLastCallWins` | upush/client.go:48-54 | On a new client, `SetHTTPS(false)` gives the HTTP gateway, and a following `SetHTTPS(true)` gives back the HTTPS one. |

## Left out

- The MD5 function (RFC 1321) is a parameter. The model fixes only its 16-byte result, because collision resistance cannot be stated as a checkable property.
- HTTP transport, request construction and reading are abstract `Library` functions. Their outcomes feed the ladder: success or failure, the status code and status line of the response, and the bytes read. A nil `context.Context`, a cancellation or a deadline shows up as a failure of request construction, of `Client.Do` or of `ioutil.ReadAll`.
- JSON marshalling and unmarshalling are abstract. Struct tags and `omitempty` are library behaviour. `Unmarshal` returns the sink's new value and its error, which covers a partial fill on a type mismatch.
- `Clients.RawClient.SendRequest`: the result sink is a value that is returned, not a Go object filled in place. Aliasing of this sink is not modelled.
- The response body is not closed on the `> 400` path. This is resource handling, not behaviour the model can observe.
- Races between `SetHTTPS` and in-flight requests are out of scope, because the model is sequential.
- The vendor rules stated only in comments are not enforced by the code, so they are not preconditions here: at most 500 tokens per listcast, the 10-minute timestamp window, the 10 MB upload limit, payload byte limits, and one target per cast type.
- The payload structs have no behaviour: `AndroidPayload`, `AndroidPayloadBody`, `IOSPayload`, `IOSPayloadAps`, `IOSPayloadAlert`, `DisplayType` and `AfterOpen`. The `interface{}` payload is `Sending.Payload`, which is nil or known only by its JSON text.
- `Clients.RawClient.Send`, `Clients.RawClient.Upload` and `Clients.Client.SendFilecast` take non-nil records. Go panics on a nil `p` (send.go:279, upload.go:58) or a nil `params[0]` (send.go:300), and that panic is not modelled.
- `Signing.Utf8`: a Go string may hold bytes that are not valid UTF-8. A Dafny `string` holds only characters, so such strings cannot be written in the model.
- `Strings.Split` splits on a one-character separator, which is the only kind `Client.Upload` uses. Go's `strings.Split` accepts any separator string.
