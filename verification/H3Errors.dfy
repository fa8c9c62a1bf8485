/** h3 errors, the codes of section 8.1 of RFC 9114 that the crate uses, and the
    Display-based classifier of client_conn.rs. */
module H3Errors {

  datatype Code = H3_NO_ERROR | H3_INTERNAL_ERROR | H3_REQUEST_CANCELLED

  /** h3 0.0.8 `StreamError`. `payload` is everything Display prints after the
      variant's fixed prefix. */
  datatype StreamError =
    | RemoteClosing
    | ConnectionError(payload: string)
    | LocalStreamError(payload: string)
    | RemoteReset(payload: string)
    | HeaderTooBig(payload: string)
    | Undefined(payload: string)
  {
    /** The variants that concern the whole connection and not one stream. */
    predicate ConnectionLevel() {
      RemoteClosing? || ConnectionError?
    }
  }

  function Display(e: StreamError): string {
    match e
    case RemoteClosing => "Remote is closing the connection"
    case ConnectionError(p) => "Connection error:" + p
    case LocalStreamError(p) => "Stream error:" + p
    case RemoteReset(p) => "Remote reset:" + p
    case HeaderTooBig(p) => "Header too big:" + p
    case Undefined(p) => "Undefined error:" + p
  }

  /** `is_connection_closing`: nothing but the rendered message is looked at. */
  predicate IsConnectionClosing(e: StreamError) {
    var msg := Display(e);
    "Remote is closing the connection" <= msg || "Connection error:" <= msg
  }

  /** The classifier decides the variant exactly, whatever the payload spells. */
  lemma ClassifierIsExact(e: StreamError)
    ensures IsConnectionClosing(e) <==> e.ConnectionLevel()
  {
    var msg := Display(e);
    match e
    case RemoteClosing =>
    case ConnectionError(p) => assert msg[..|"Connection error:"|] == "Connection error:";
    case LocalStreamError(p) => assert msg[0] == 'S';
    case RemoteReset(p) => assert msg[0] == 'R' && msg[7] == 'r';
    case HeaderTooBig(p) => assert msg[0] == 'H';
    case Undefined(p) => assert msg[0] == 'U';
  }
}
