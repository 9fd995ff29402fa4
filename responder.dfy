/** The responder: status line, the three fixed headers and the encoded
    body. The text-to-bytes conversion is supplied by the caller. */
module Responder {

  newtype byte = x: int | 0 <= x < 256

  /** The part of an HTTP response the server determines. */
  datatype HttpMessage = HttpMessage(
    status: int,
    contentType: string,
    contentLength: nat,
    contentTypeOptions: string,
    body: seq<byte>)

  /** sendResponse: encode the page once, announce exactly that many bytes,
      send exactly those bytes. */
  function SendResponse(statusCode: int, html: string, encode: string -> seq<byte>): (m: HttpMessage)
    ensures m.status == statusCode
    ensures m.body == encode(html)
    ensures m.contentLength == |m.body|
    ensures m.contentType == "text/html; charset=utf-8"
    ensures m.contentTypeOptions == "nosniff"
  {
    var buffer := encode(html);
    HttpMessage(statusCode, "text/html; charset=utf-8", |buffer|, "nosniff", buffer)
  }
}
