/**
 * The HTTP vocabulary of the request handler: the decoded message kinds the
 * handler receives from the codec, the admission decision it takes on each,
 * the three response statuses it produces, and how each response is built.
 */
module Http {
  import opened Text

  // ---------------------------------------------------------------------------
  // Decoded inbound messages

  /**
   * The runtime class of a decoded request object. Only the exact class
   * DefaultHttpRequest is served; the codec reports a request it could not
   * parse as a DefaultFullHttpRequest, a subclass, which is therefore refused.
   */
  datatype RequestClass =
    | DefaultHttpRequestClass
    | DefaultFullHttpRequestClass
    | OtherRequestSubclass(name: string)

  /**
   * What the codec hands to the handler. `EmptyLastContent` is the one shared
   * LastHttpContent.EMPTY_LAST_CONTENT instance; `Content` is any other
   * content object, including any other LastHttpContent instance. The method
   * is the request line's method name (`methodName`); the codec maps "GET" onto the shared
   * HttpMethod.GET constant, so the handler's identity test is name equality.
   */
  datatype Message =
    | EmptyLastContent
    | Request(cls: RequestClass, methodName: string)
    | Content
    | Unrecognised

  // ---------------------------------------------------------------------------
  // Statuses and responses

  datatype Status = Status(code: nat, reasonPhrase: string)

  const OK := Status(200, "OK")
  const BAD_REQUEST := Status(400, "Bad Request")
  const METHOD_NOT_ALLOWED := Status(405, "Method Not Allowed")

  /** HttpResponseStatus.toString(): the code, one space, the reason phrase. */
  function StatusText(s: Status): (t: string)
    ensures IsAscii(s.reasonPhrase) ==> IsAscii(t)
  {
    IntDecimalRoundTrip(s.code);
    AsciiConcat(IntToDecimal(s.code), " ");
    AsciiConcat(IntToDecimal(s.code) + " ", s.reasonPhrase);
    IntToDecimal(s.code) + " " + s.reasonPhrase
  }

  const HTTP_1_1 := "HTTP/1.1"
  const CONTENT_TYPE := "content-type"
  const CONTENT_LENGTH := "content-length"
  const TEXT_PLAIN := "text/plain"

  /** A full response; header names are Netty's lower-case constants. */
  datatype Response = Response(version: string, status: Status, headers: map<string, string>, body: seq<byte>)

  /** The literal the blocking service call returns. */
  const SERVICE_RESPONSE := "Hello World!"

  /** serviceCall: always the same ASCII text (its 1 ms sleep is not modelled). */
  function ServiceCall(): (r: string)
    ensures IsAscii(r) && |r| == 12
  {
    SERVICE_RESPONSE
  }

  /** The unpooled path of encodeAsciiResponse: a copy of the text written by Netty's ASCII writer. */
  function EncodeAsciiResponse(content: string): (bytes: seq<byte>)
    ensures |bytes| == |content|
  {
    EncodeAscii(content)
  }

  /** The encoded body reads back as the service's text exactly when its characters are all below 0x100. */
  lemma EncodedResponseReadsBack(content: string)
    ensures IsLatin1(content) <==> DecodeLatin1(EncodeAsciiResponse(content)) == content
  {
    AsciiRoundTrip(content);
  }

  /** The 200 response writeAndFlushResponse builds around the encoded bytes. */
  function SuccessResponse(contentBytes: seq<byte>): (r: Response)
    ensures r.status == OK && r.version == HTTP_1_1 && r.body == contentBytes
    ensures r.headers.Keys == {CONTENT_TYPE, CONTENT_LENGTH} && r.headers[CONTENT_TYPE] == TEXT_PLAIN
  {
    Response(HTTP_1_1, OK, map[CONTENT_TYPE := TEXT_PLAIN, CONTENT_LENGTH := IntToDecimal(|contentBytes|)], contentBytes)
  }

  /** The Content-Length of a 200 response, read as a number, is the number of body bytes. */
  lemma SuccessContentLength(contentBytes: seq<byte>)
    ensures ParseInt(SuccessResponse(contentBytes).headers[CONTENT_LENGTH]) == Some(|contentBytes|)
  {
    IntDecimalRoundTrip(|contentBytes|);
  }

  /** The response sendErrorResponse builds: Content-Type only, no Content-Length and no Allow header. */
  function ErrorResponse(status: Status): (r: Response)
    ensures r.status == status && r.version == HTTP_1_1
    ensures r.headers.Keys == {CONTENT_TYPE} && r.headers[CONTENT_TYPE] == TEXT_PLAIN
  {
    Response(HTTP_1_1, status, map[CONTENT_TYPE := TEXT_PLAIN], EncodeAscii("Error: " + StatusText(status)))
  }

  /** An error body reads back as "Error: " followed by the status text. */
  lemma ErrorBody(status: Status)
    requires IsAscii(status.reasonPhrase)
    ensures DecodeLatin1(ErrorResponse(status).body) == "Error: " + StatusText(status)
  {
    AsciiConcat("Error: ", StatusText(status));
    AsciiIsLatin1("Error: " + StatusText(status));
    AsciiRoundTrip("Error: " + StatusText(status));
  }

  // ---------------------------------------------------------------------------
  // Admission (the decision canCallService takes)

  datatype Admission =
    | Ignore
    | Reject(status: Status, closeAfterFlush: bool)
    | Accept

  /**
   * The decision table of canCallService, with each outcome characterised
   * independently of the order in which the source tests its conditions.
   */
  function Admit(msg: Message): (a: Admission)
    ensures a == Ignore <==> msg == EmptyLastContent
    ensures a == Reject(BAD_REQUEST, true) <==> msg != EmptyLastContent && !(msg.Request? && msg.cls == DefaultHttpRequestClass)
    ensures a == Reject(METHOD_NOT_ALLOWED, false) <==> msg.Request? && msg.cls == DefaultHttpRequestClass && msg.methodName != "GET"
    ensures a == Accept <==> msg == Request(DefaultHttpRequestClass, "GET")
    ensures a.Reject? ==> a.status in {BAD_REQUEST, METHOD_NOT_ALLOWED}
  {
    if msg == EmptyLastContent then Ignore
    else if !(msg.Request? && msg.cls == DefaultHttpRequestClass) then Reject(BAD_REQUEST, true)
    else if msg.methodName != "GET" then Reject(METHOD_NOT_ALLOWED, false)
    else Accept
  }

  // ---------------------------------------------------------------------------
  // The concrete responses of the server's three outcomes

  lemma DecimalCodes()
    ensures IntToDecimal(200) == "200"
    ensures IntToDecimal(400) == "400"
    ensures IntToDecimal(405) == "405"
  {
    assert NatToDecimal(2) == "2" && NatToDecimal(4) == "4";
    assert NatToDecimal(20) == NatToDecimal(2) + "0" == "20";
    assert NatToDecimal(40) == NatToDecimal(4) + "0" == "40";
    assert NatToDecimal(200) == NatToDecimal(20) + "0" == "200";
    assert NatToDecimal(400) == NatToDecimal(40) + "0" == "400";
    assert NatToDecimal(405) == NatToDecimal(40) + "5" == "405";
  }

  /** The status texts of the three responses; an error body is "Error: " followed by one of the last two. */
  lemma StatusTextOk()
    ensures StatusText(OK) == "200 OK"
  {
    DecimalCodes();
  }

  lemma StatusTextBadRequest()
    ensures StatusText(BAD_REQUEST) == "400 Bad Request"
  {
    DecimalCodes();
  }

  lemma StatusTextMethodNotAllowed()
    ensures StatusText(METHOD_NOT_ALLOWED) == "405 Method Not Allowed"
  {
    DecimalCodes();
  }

  /** An ASCII text's 200 response declares its character count and reads back as the text. */
  lemma AsciiSuccessResponse(content: string)
    requires IsAscii(content)
    ensures SuccessResponse(EncodeAsciiResponse(content)).headers[CONTENT_LENGTH] == IntToDecimal(|content|)
    ensures DecodeLatin1(SuccessResponse(EncodeAsciiResponse(content)).body) == content
  {
    AsciiIsLatin1(content);
    EncodedResponseReadsBack(content);
  }

  /** The service's answer: Content-Length 12 and a body reading "Hello World!". */
  lemma HelloWorldResponse()
    ensures SuccessResponse(EncodeAsciiResponse(ServiceCall())).headers[CONTENT_LENGTH] == "12"
    ensures DecodeLatin1(SuccessResponse(EncodeAsciiResponse(ServiceCall())).body) == "Hello World!"
  {
    AsciiSuccessResponse(ServiceCall());
    assert NatToDecimal(12) == NatToDecimal(1) + "2" == "12";
  }
}
