/** Types shared by the TLS channel and its renegotiation bookkeeping. */
module TlsTypes {

  /** One octet of a TLS message, as Botan's `byte`. */
  newtype byte = x: int | 0 <= x < 256

  /** A value that may be absent, used for an extension that a hello may omit. */
  datatype Option<+T> = None | Some(value: T)

  /** The two alert levels of section 7.2 of RFC 5246 (`Alert_Level`). */
  datatype AlertLevel = Warning | Fatal

  /** The alert descriptions the channel raises or reacts to (`Alert_Type`). */
  datatype AlertType =
    | CloseNotify
    | UnexpectedMessage
    | BadRecordMac
    | HandshakeFailure
    | DecodeError

  /** An alert as it is handed to the record writer. */
  datatype AlertMessage = AlertMessage(level: AlertLevel, kind: AlertType) {
    /** An alert after which the connection is over: a fatal one or a close notification. */
    predicate Terminates() {
      level == Fatal || kind == CloseNotify
    }
  }

  /** A peer certificate, kept as its encoding; X.509 parsing is not part of this model. */
  datatype Certificate = Certificate(encoding: seq<byte>)
}
