# TLS channel flags and secure-renegotiation bookkeeping (Botan `TLS_Channel`)

This project models the logic of Botan's `TLS_Channel` interface
(`src/tls/tls_channel.h`) that can be stated from what that header shows:

- `TLS_Channel::Secure_Renegotiation_State`, the bookkeeping for the
  renegotiation indication extension of RFC 5746. It holds whether the current
  handshake is the initial one, whether secure renegotiation was agreed, and
  the client and server `verify_data` of the last completed handshake. It hands
  out the `renegotiated_connection` values for the next ClientHello (the client
  verify data) and ServerHello (client verify data followed by server verify
  data, section 3.2 of RFC 5746).
- The channel's `handshake_completed` / `connection_closed` flags, the derived
  `is_active()` / `is_closed()`, `peer_cert_chain()`, `alert()` and
  `close()`, which is `alert(WARNING, CLOSE_NOTIFY)`.

Files:

- `tls_types.dfy` (module `TlsTypes`): bytes, `Option`, alert levels and
  descriptions, certificates kept as their encoding.
- `renegotiation.dfy` (module `Renegotiation`): the bookkeeping as a value
  (`State`), the three `update` calls as transition functions
  (`AfterClientHello`, `AfterServerHello`, `AfterFinished`), replays of any run
  of handshakes with lemmas about them, and the class
  `SecureRenegotiationState` with the source's four fields, proved against the
  transition functions.
- `channel.dfy` (module `TlsChannel`): the channel's fields as a value
  (`ChannelState`), the effect of one alert (`AlertEffect`) and of a run of
  alerts, and the class `Channel` with the flags, the peer certificates, the
  renegotiation bookkeeping it owns, and the alerts it has handed to the record
  writer.

The bodies of the three `update` overloads, of `alert` and of the
`TLS_Channel` constructor are in `tls_channel.cpp`, which is not part of this
model. Their contracts here are assumptions:

- `update(Finished*, Finished*)` stores both verify data and ends the initial
  handshake. This is what section 3.1 of RFC 5746 requires of the stored values.
- The hello updates never change the stored verify data (section 3.1 of RFC 5746). The checks they make are an assumption taken from sections 3.4 to 3.7 of RFC 5746:
  - On the initial handshake, a non-empty `renegotiated_connection` is refused.
    The ClientHello records whether the client offers the extension, and the
    ServerHello keeps it agreed only if the server answers with it.
  - On a renegotiation, the peer must keep to what was agreed. When the
    extension was agreed, the peer must present exactly
    `for_client_hello()` / `for_server_hello()`.
  - A refusal (Botan throws a `handshake_failure` exception) leaves the
    bookkeeping unchanged.
- `alert` sends the alert on an open channel. A fatal alert or a close
  notification then sets `connection_closed` and drops the handshake state.
  On a closed channel `alert` does nothing. `close_notify` has to close the
  connection for `close()` to close it. `alert` does not touch
  `handshake_completed` (a choice; see "Left out"), `peer_certs` or the
  renegotiation bookkeeping.
- The constructor starts with both flags false, no handshake state, no peer
  certificates and a fresh renegotiation bookkeeping.

## Model

| member | source | states |
|---|---|---|
| `Renegotiation.SecureRenegotiationState.constructor` | src/tls/tls_channel.h:101-103 | a fresh bookkeeping is in the initial handshake, not supported, with empty verify data, so `renegotiation()` and `supported()` are false and `for_client_hello()` is empty |
| `Renegotiation.SecureRenegotiationState.ForClientHello` | src/tls/tls_channel.h:111-112 | returns the stored client verify data, which is `State.ForClientHello` of the bookkeeping's value (empty on a fresh bookkeeping, as the constructor's contract states) |
| `Renegotiation.SecureRenegotiationState.ForServerHello` | src/tls/tls_channel.h:114-119 | returns a local buffer whose length is the sum of both verify data lengths, whose prefix is `for_client_hello()` and whose rest is the server verify data; changes no field |
| `Renegotiation.State.ForServerHello` | src/tls/tls_channel.h:114-119 | the ServerHello value splits into the client verify data (the ClientHello value) followed by the server verify data |
| `Renegotiation.SecureRenegotiationState.Supported` | src/tls/tls_channel.h:121 | is exactly the `secure_renegotiation` flag |
| `Renegotiation.SecureRenegotiationState.Renegotiation` | src/tls/tls_channel.h:122 | is exactly the negation of `initial_handshake` |
| `Renegotiation.AfterClientHello` | src/tls/tls_channel.h:105 | (assumption) accepts a ClientHello iff its extension value is the expected one (empty or absent initially; otherwise absent or equal to `for_client_hello()`, as agreed); never changes the verify data or the initial flag |
| `Renegotiation.AfterServerHello` | src/tls/tls_channel.h:106 | (assumption) accepts a ServerHello iff its extension value is the expected one (empty or absent initially; otherwise absent or equal to `for_server_hello()`, as agreed); records agreement only when both sides used the extension; never changes the verify data |
| `Renegotiation.AfterFinished` | src/tls/tls_channel.h:108-109 | after a completed handshake the next hellos carry that handshake's client verify data, and client followed by server verify data; the initial handshake is over; agreement is unchanged |
| `Renegotiation.SecureRenegotiationState.UpdateClientHello` | src/tls/tls_channel.h:105 | updates the fields as `AfterClientHello` says, reporting a refusal and leaving the fields as they were |
| `Renegotiation.SecureRenegotiationState.UpdateServerHello` | src/tls/tls_channel.h:106 | updates the fields as `AfterServerHello` says, comparing against `for_server_hello()`, reporting a refusal and leaving the fields as they were |
| `Renegotiation.SecureRenegotiationState.UpdateFinished` | src/tls/tls_channel.h:108-109 | overwrites both verify data with those of the Finished messages and clears `initial_handshake` |
| `Renegotiation.LastCompleted` | src/tls/tls_channel.h:108-109 | finds the last completed handshake of the run (no completed handshake follows it), or reports that there is none |
| `Renegotiation.ReplayKeepsLastHandshake` | src/tls/tls_channel.h:105-126 | after any accepted run of updates the stored verify data are those of the most recently completed handshake; a run with no completed handshake leaves them and the initial flag unchanged |
| `Renegotiation.HellosCarryLastHandshake` | src/tls/tls_channel.h:101-122 | from a fresh bookkeeping, both hello values are empty until a handshake completes; afterwards the current handshake is a renegotiation and the hellos carry the last handshake's client verify data and client+server verify data |
| `Renegotiation.RenegotiationIsPermanent` | src/tls/tls_channel.h:122-124 | once a handshake has completed, `renegotiation()` stays true whatever accepted run follows |
| `Renegotiation.SupportSettledAfterInitial` | src/tls/tls_channel.h:121-125 | (assumption) after the initial handshake no accepted run changes `supported()` |
| `Renegotiation.InjectedHelloRejected` | src/tls/tls_channel.h:105-119 | (assumption) on an agreed renegotiation, a run that reaches a hello with a value other than `for_client_hello()` / `for_server_hello()` before the handshake completes is rejected |
| `TlsChannel.AlertEffect` | src/tls/tls_channel.h:43-47 | an alert on an open channel is sent; a fatal or closing alert closes the connection and resets the handshake state; on a closed channel it has no effect; flags, certificates and the teardown invariant are kept otherwise |
| `TlsChannel.FirstTerminating` | src/tls/tls_channel.h:43-47 | finds the first fatal or closing alert of a run |
| `TlsChannel.NothingSentAfterTermination` | src/tls/tls_channel.h:43-47 | of any run of alerts, an open channel sends exactly those up to and including the first terminating one, and nothing after it |
| `TlsChannel.TerminatingAlertIdempotent` | src/tls/tls_channel.h:43-47 | a second alert after a fatal one or a close notification has no effect |
| `TlsChannel.Channel.constructor` | src/tls/tls_channel.h:74-76 | (assumption) a new channel is neither completed nor closed, has no peer certificates and has a fresh renegotiation bookkeeping |
| `TlsChannel.Channel.IsActive` | src/tls/tls_channel.h:52 | holds iff `handshake_completed` holds and the channel is not closed; a closed channel is never active |
| `TlsChannel.Channel.IsClosed` | src/tls/tls_channel.h:57 | is exactly `connection_closed` |
| `TlsChannel.Channel.PeerCertChain` | src/tls/tls_channel.h:72 | returns `peer_certs` unchanged, reading and changing nothing else |
| `TlsChannel.Channel.Alert` | src/tls/tls_channel.h:43-47 | changes the channel exactly as `AlertEffect` says, leaves the renegotiation bookkeeping untouched, and after a fatal alert the channel is closed and inactive |
| `TlsChannel.Channel.Close` | src/tls/tls_channel.h:41 | has exactly the effect of `alert(WARNING, CLOSE_NOTIFY)`; afterwards the channel is closed and not active |

## Left out

- `received_data`, `queue_for_sending`, `read_handshake` and `protocol_version`: only their declarations are in the header; record dispatch, the pre-handshake write queue, handshake reassembly and version reporting are not modelled.
- `renegotiate` and `process_handshake_msg`: pure virtual, implemented by the client and server subclasses. So nothing in the model sets `handshake_completed` or `peer_certs`. A constructed channel never becomes active through the model's own operations.
- The socket-output, application-data and handshake-complete callbacks: host-provided I/O. Alerts "sent" are recorded in `alertsSent` in place of the record writer's output.
- `Record_Writer`, `Record_Reader`, `SecureQueue`, `Handshake_State`, `TLS_Session`, `X509_Certificate` and the policy types: their code is not part of this model. The handshake state appears only as a flag saying whether it is present. Certificates are opaque encodings.
- The parsing of hello and Finished messages: a hello is reduced to its renegotiation_info extension, and a Finished message to its verify data. The signalling cipher suite value of section 3.3 of RFC 5746 is not modelled.
- `Renegotiation.SecureRenegotiationState.UpdateClientHello`: leaves the fields unchanged when it refuses a hello. A field written before the exception is thrown in the source is not modelled.
- `Renegotiation.SecureRenegotiationState.UpdateServerHello`: leaves the fields unchanged when it refuses a hello. A field written before the exception is thrown in the source is not modelled.
- `TlsChannel.AlertEffect`: keeps `handshake_completed` after a fatal alert. The doc comment of `alert` (src/tls/tls_channel.h:44-45) says only that a fatal alert resets the internal state (keys, etc.). It does not say whether `handshake_completed` is cleared, and the body of `alert` is not part of this model. `is_active()` is false after a fatal alert either way, because the channel is closed.
- `TlsChannel.Channel.Alert`: nothing in the class ever sets `hasHandshakeState` to true. The constructor sets it false and `Alert` only clears it, because the handshake state is created by the role-specific handshake code, which is not part of this model. So in the class the drop of the handshake state cannot be observed; only `AlertEffect`, over arbitrary channel values, shows it.
- `TlsChannel.Channel.Alert`: does not model the reset of the record writer's and reader's key material, nor a failure to send.
