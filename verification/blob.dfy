/**
 * lib/blob.ts: uploading bytes to the blob store over HTTP. The request is
 * built from the module's environment (API URL and read-write token), the
 * object key and optional content type, and a body copied out of the
 * caller's binary data; `fetch` itself is a parameter.
 */
module Blob {
  import opened Wrappers
  import opened Text

  newtype byte = x: int | 0 <= x < 256

  /**
   * The `data` argument: an ArrayBuffer, or a view (a Uint8Array or a Node
   * Buffer) of `byteLength` bytes starting `byteOffset` bytes into its
   * underlying buffer.
   */
  datatype BinaryData =
    | ArrayBuffer(bytes: seq<byte>)
    | Uint8Array(buffer: seq<byte>, byteOffset: nat, byteLength: nat)
    | NodeBuffer(buffer: seq<byte>, byteOffset: nat, byteLength: nat)

  /** A typed-array view always lies inside its buffer. */
  predicate WellFormed(data: BinaryData) {
    data.ArrayBuffer? || data.byteOffset + data.byteLength <= |data.buffer|
  }

  function Min(a: int, b: int): int { if a < b then a else b }
  function Max(a: int, b: int): int { if a < b then b else a }

  /**
   * `ArrayBuffer.prototype.slice(begin, end)`: negative bounds count from
   * the end, bounds are clamped to the buffer, and an end before the start
   * gives an empty buffer. Bounds inside the buffer select exactly that window.
   */
  function SliceArrayBuffer(buf: seq<byte>, begin: int, end: int): (r: seq<byte>)
    ensures |r| <= |buf|
    ensures 0 <= begin <= end <= |buf| ==> r == buf[begin..end]
  {
    var len := |buf|;
    var first := if begin < 0 then Max(len + begin, 0) else Min(begin, len);
    var final := if end < 0 then Max(len + end, 0) else Min(end, len);
    buf[first..Max(final, first)]
  }

  /** `Buffer.from(uint8Array)`: a new Buffer holding a copy of the viewed bytes. */
  function BufferFrom(view: BinaryData): (copy: BinaryData)
    requires view.Uint8Array? && WellFormed(view)
    ensures copy.NodeBuffer? && WellFormed(copy)
    ensures copy.buffer[copy.byteOffset..copy.byteOffset + copy.byteLength]
            == view.buffer[view.byteOffset..view.byteOffset + view.byteLength]
  {
    var bytes := view.buffer[view.byteOffset..view.byteOffset + view.byteLength];
    NodeBuffer(bytes, 0, |bytes|)
  }

  /**
   * `toArrayBuffer`: an ArrayBuffer is passed through unchanged; a view
   * yields exactly its `byteLength` bytes from `byteOffset` on, and nothing
   * from outside that window.
   */
  function ToArrayBuffer(input: BinaryData): (r: seq<byte>)
    requires WellFormed(input)
    ensures input.ArrayBuffer? ==> r == input.bytes
    ensures !input.ArrayBuffer? ==> r == input.buffer[input.byteOffset..input.byteOffset + input.byteLength]
  {
    if input.ArrayBuffer? then
      input.bytes
    else
      var view := if input.NodeBuffer? then input else BufferFrom(input);
      SliceArrayBuffer(view.buffer, view.byteOffset, view.byteOffset + view.byteLength)
  }

  /** Bytes of the underlying buffer outside the view never reach the result. */
  lemma OutsideWindowIgnored(b1: seq<byte>, b2: seq<byte>, offset: nat, length: nat)
    requires offset + length <= |b1| && offset + length <= |b2|
    requires b1[offset..offset + length] == b2[offset..offset + length]
    ensures ToArrayBuffer(Uint8Array(b1, offset, length)) == ToArrayBuffer(Uint8Array(b2, offset, length))
    ensures ToArrayBuffer(NodeBuffer(b1, offset, length)) == ToArrayBuffer(NodeBuffer(b2, offset, length))
  {
    var window := b1[offset..offset + length];
    assert ToArrayBuffer(Uint8Array(b1, offset, length)) == window;
    assert ToArrayBuffer(Uint8Array(b2, offset, length)) == window;
    assert ToArrayBuffer(NodeBuffer(b1, offset, length)) == window;
    assert ToArrayBuffer(NodeBuffer(b2, offset, length)) == window;
  }

  const DefaultBlobApiUrl := "https://blob.vercel-storage.com"
  const MissingToken := "Missing BLOB_READ_WRITE_TOKEN environment variable."
  const FailurePrefix := "Blob upload failed: "

  /** BLOB_API_URL and BLOB_READ_WRITE_TOKEN as read when the module loads. */
  datatype BlobEnv = BlobEnv(apiUrl: Option<string>, token: Option<string>)

  /** `process.env.BLOB_API_URL ?? "https://blob.vercel-storage.com"`. */
  function ApiUrl(env: BlobEnv): string {
    env.apiUrl.GetOr(DefaultBlobApiUrl)
  }

  /** `!BLOB_RW_TOKEN` is false: the token is set and not empty. */
  predicate HasToken(env: BlobEnv) {
    env.token.Some? && env.token.value != ""
  }

  datatype Header = Header(name: string, value: string)
  /** `verb` is the HTTP method. */
  datatype HttpRequest = HttpRequest(verb: string, url: string, headers: seq<Header>, body: seq<byte>)
  datatype HttpResponse = HttpResponse(status: nat, text: string)

  /**
   * The request headers: the bearer token, the API version, the operation
   * and the file name always, in that order; `Content-Type` last, present
   * exactly when a non-empty content type was given.
   */
  function UploadHeaders(token: string, key: string, contentType: Option<string>): (headers: seq<Header>)
    ensures 4 <= |headers| <= 5
    ensures headers[..4] == [
              Header("Authorization", "Bearer " + token),
              Header("x-vercel-blobs-version", "1"),
              Header("x-vercel-blobs-operation", "upload"),
              Header("x-vercel-filename", key)]
    ensures (exists h | h in headers :: h.name == "Content-Type") <==> contentType.Some? && contentType.value != ""
    ensures |headers| == 5 ==> contentType.Some? && headers[4] == Header("Content-Type", contentType.value)
  {
    var fixed := [
      Header("Authorization", "Bearer " + token),
      Header("x-vercel-blobs-version", "1"),
      Header("x-vercel-blobs-operation", "upload"),
      Header("x-vercel-filename", key)];
    if contentType.Some? && contentType.value != "" then
      var headers := fixed + [Header("Content-Type", contentType.value)];
      assert headers[4] in headers;
      headers
    else
      fixed
  }

  /**
   * The request `uploadToBlob` sends, or the error it throws first: a
   * missing or empty token fails before any request exists.
   */
  function UploadRequest(env: BlobEnv, key: string, data: BinaryData, contentType: Option<string>)
    : (r: Result<HttpRequest, string>)
    requires WellFormed(data)
    ensures r.Failure? <==> !HasToken(env)
    ensures r.Failure? ==> r.error == MissingToken
    ensures r.Success? ==>
              && r.value.verb == "POST"
              && r.value.url == ApiUrl(env)
              && r.value.headers == UploadHeaders(env.token.value, key, contentType)
              && r.value.body == ToArrayBuffer(data)
  {
    if !HasToken(env) then Failure(MissingToken)
    else Success(HttpRequest("POST", ApiUrl(env), UploadHeaders(env.token.value, key, contentType), ToArrayBuffer(data)))
  }

  /** `response.ok`. */
  predicate IsOk(response: HttpResponse) {
    200 <= response.status <= 299
  }

  /** `Blob upload failed: ${response.status} ${message}`. */
  function FailureMessage(response: HttpResponse): string {
    FailurePrefix + NatToString(response.status) + " " + response.text
  }

  /**
   * `uploadToBlob` with `fetch` given as `send`. On success the result is
   * the response text (its JSON decoding is not modelled); a non-ok
   * response becomes an error naming its status and text.
   */
  function UploadToBlob(env: BlobEnv, key: string, data: BinaryData, contentType: Option<string>,
                        send: HttpRequest -> HttpResponse): (r: Result<string, string>)
    requires WellFormed(data)
    ensures !HasToken(env) ==> r == Failure(MissingToken)
    ensures HasToken(env) ==>
              var response := send(UploadRequest(env, key, data, contentType).value);
              && (IsOk(response) ==> r == Success(response.text))
              && (!IsOk(response) ==> r == Failure(FailureMessage(response)))
  {
    match UploadRequest(env, key, data, contentType)
    case Failure(error) => Failure(error)
    case Success(request) =>
      var response := send(request);
      if !IsOk(response) then Failure(FailureMessage(response)) else Success(response.text)
  }

  /** Without a token no request is sent: the outcome does not depend on `fetch` at all. */
  lemma MissingTokenSendsNothing(env: BlobEnv, key: string, data: BinaryData, contentType: Option<string>,
                                 send1: HttpRequest -> HttpResponse, send2: HttpRequest -> HttpResponse)
    requires WellFormed(data) && !HasToken(env)
    ensures UploadToBlob(env, key, data, contentType, send1) == UploadToBlob(env, key, data, contentType, send2)
  {
  }

  /** The longest prefix of `s` made of decimal digits. */
  function LeadingDigits(s: string): (d: string)
    ensures |d| <= |s| && d == s[..|d|]
    ensures forall i | 0 <= i < |d| :: IsDigit(d[i])
  {
    if s != [] && IsDigit(s[0]) then [s[0]] + LeadingDigits(s[1..]) else []
  }

  lemma {:induction false} LeadingDigitsOfNumber(digits: string, rest: string)
    requires forall i | 0 <= i < |digits| :: IsDigit(digits[i])
    requires rest == [] || !IsDigit(rest[0])
    ensures LeadingDigits(digits + rest) == digits
  {
    if digits != [] {
      assert (digits + rest)[1..] == digits[1..] + rest;
      LeadingDigitsOfNumber(digits[1..], rest);
    } else {
      assert digits + rest == rest;
    }
  }

  /** The status a failure message reports, read back from its text. */
  function StatusInMessage(message: string): Option<nat> {
    if |message| >= |FailurePrefix| && message[..|FailurePrefix|] == FailurePrefix then
      var digits := LeadingDigits(message[|FailurePrefix|..]);
      if digits == [] then None else Some(DigitsValue(digits))
    else
      None
  }

  /** A failed upload's error message carries the response status, whatever the response text. */
  lemma FailureMessageNamesStatus(response: HttpResponse)
    ensures StatusInMessage(FailureMessage(response)) == Some(response.status)
  {
    var digits := NatToString(response.status);
    var message := FailureMessage(response);
    assert message[..|FailurePrefix|] == FailurePrefix;
    assert message[|FailurePrefix|..] == digits + (" " + response.text);
    LeadingDigitsOfNumber(digits, " " + response.text);
    NatToStringRoundTrip(response.status);
  }
}
