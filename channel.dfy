/**
 * The flag-level state of a TLS endpoint (`TLS_Channel`): whether a
 * handshake has completed, whether the connection is closed, the peer's
 * certificates, and what sending an alert does to them.
 *
 * `hasHandshakeState` stands for the channel's `Handshake_State` pointer
 * being set, and `alertsSent` for the alert records handed to the record
 * writer, in order; the writer itself is not part of this model.
 */
module TlsChannel {
  import opened TlsTypes
  import Renegotiation

  /** The channel's fields, as one value. */
  datatype ChannelState = ChannelState(
    handshakeCompleted: bool,
    connectionClosed: bool,
    hasHandshakeState: bool,
    peerCerts: seq<Certificate>,
    alertsSent: seq<AlertMessage>)
  {
    /** A closed channel holds no handshake state. */
    predicate TornDownWhenClosed() {
      connectionClosed ==> !hasHandshakeState
    }
  }

  /** A channel as it is constructed: nothing completed, nothing closed, nothing sent. */
  const Fresh := ChannelState(false, false, false, [], [])

  /**
   * `alert(level, type)`. On an open channel the alert is sent; a fatal
   * alert or a close notification then closes the connection and drops the
   * handshake state (resets the internal state). On a closed channel nothing
   * happens. Nothing else changes.
   */
  function AlertEffect(v: ChannelState, alert: AlertMessage): (r: ChannelState)
    ensures r.connectionClosed <==> v.connectionClosed || alert.Terminates()
    ensures alert.level == Fatal ==> r.connectionClosed
    ensures !v.connectionClosed && alert.Terminates() ==> !r.hasHandshakeState
    ensures !alert.Terminates() ==> r.hasHandshakeState == v.hasHandshakeState
    ensures r.handshakeCompleted == v.handshakeCompleted && r.peerCerts == v.peerCerts
    ensures v.connectionClosed ==> r == v
    ensures v.TornDownWhenClosed() ==> r.TornDownWhenClosed()
    ensures !v.connectionClosed ==> r.alertsSent == v.alertsSent + [alert]
  {
    if v.connectionClosed then v
    else
      var closing := alert.Terminates();
      ChannelState(
        v.handshakeCompleted,
        closing,
        if closing then false else v.hasHandshakeState,
        v.peerCerts,
        v.alertsSent + [alert])
  }

  /** A channel after a run of `alert` calls. */
  function AlertsEffect(v: ChannelState, alerts: seq<AlertMessage>): ChannelState
    decreases |alerts|
  {
    if alerts == [] then v else AlertsEffect(AlertEffect(v, alerts[0]), alerts[1..])
  }

  /** The position of the first fatal or closing alert of a run, or its length if there is none. */
  function FirstTerminating(alerts: seq<AlertMessage>): (k: nat)
    ensures k <= |alerts|
    ensures forall j :: 0 <= j < k ==> !alerts[j].Terminates()
    ensures k < |alerts| ==> alerts[k].Terminates()
    decreases |alerts|
  {
    if alerts == [] || alerts[0].Terminates() then 0 else 1 + FirstTerminating(alerts[1..])
  }

  /**
   * A fatal alert or a close notification is the last thing a channel ever
   * sends: of any run of alerts, an open channel sends exactly those up to and
   * including the first one that terminates, a closed channel sends none, and
   * the channel is closed afterwards exactly when it was or the run held a
   * terminating alert.
   */
  lemma {:induction false} NothingSentAfterTermination(v: ChannelState, alerts: seq<AlertMessage>)
    ensures var w := AlertsEffect(v, alerts);
      var k := FirstTerminating(alerts);
      && (w.connectionClosed <==> v.connectionClosed || k < |alerts|)
      && w.alertsSent == v.alertsSent +
           (if v.connectionClosed then [] else if k < |alerts| then alerts[..k + 1] else alerts)
      && w.handshakeCompleted == v.handshakeCompleted
      && w.peerCerts == v.peerCerts
    decreases |alerts|
  {
    if alerts != [] {
      var v1 := AlertEffect(v, alerts[0]);
      var rest := alerts[1..];
      NothingSentAfterTermination(v1, rest);
      if !v.connectionClosed && !alerts[0].Terminates() {
        var k' := FirstTerminating(rest);
        if k' < |rest| {
          assert [alerts[0]] + rest[..k' + 1] == alerts[..k' + 2];
        } else {
          assert [alerts[0]] + rest == alerts;
        }
      }
    }
  }

  /** A second alert after a fatal one or a close notification has no effect at all. */
  lemma TerminatingAlertIdempotent(v: ChannelState, first: AlertMessage, second: AlertMessage)
    requires first.Terminates()
    ensures AlertEffect(AlertEffect(v, first), second) == AlertEffect(v, first)
  {
  }

  /** A TLS endpoint's connection-level state. */
  class Channel {
    var handshakeCompleted: bool
    var connectionClosed: bool
    var hasHandshakeState: bool
    var peerCerts: seq<Certificate>
    var alertsSent: seq<AlertMessage>
    const secureRenegotiation: Renegotiation.SecureRenegotiationState

    ghost function View(): ChannelState
      reads this
    {
      ChannelState(handshakeCompleted, connectionClosed, hasHandshakeState, peerCerts, alertsSent)
    }

    ghost predicate Valid()
      reads this
    {
      View().TornDownWhenClosed()
    }

    /** A new channel, before its first handshake, with fresh renegotiation bookkeeping. */
    constructor()
      ensures Valid() && View() == Fresh
      ensures fresh(secureRenegotiation)
      ensures secureRenegotiation.View() == Renegotiation.InitialState
    {
      handshakeCompleted := false;
      connectionClosed := false;
      hasHandshakeState := false;
      peerCerts := [];
      alertsSent := [];
      secureRenegotiation := new Renegotiation.SecureRenegotiationState();
    }

    /** `is_active()`: application data may be sent. */
    function IsActive(): (r: bool)
      reads this
      ensures r <==> handshakeCompleted && !IsClosed()
      ensures IsClosed() ==> !r
    {
      handshakeCompleted && !IsClosed()
    }

    /** `is_closed()`: the connection has been definitely closed. */
    function IsClosed(): (r: bool)
      reads this
      ensures r <==> View().connectionClosed
    {
      connectionClosed
    }

    /** `peer_cert_chain()`: the peer's certificates, as stored. */
    function PeerCertChain(): (r: seq<Certificate>)
      reads this
      ensures r == View().peerCerts
    {
      peerCerts
    }

    /** `alert(level, type)`; the renegotiation bookkeeping is not touched. */
    method Alert(level: AlertLevel, kind: AlertType)
      requires Valid()
      modifies this
      ensures Valid() && unchanged(secureRenegotiation)
      ensures View() == AlertEffect(old(View()), AlertMessage(level, kind))
      ensures level == Fatal ==> IsClosed() && !IsActive()
    {
      if !connectionClosed {
        var alert := AlertMessage(level, kind);
        alertsSent := alertsSent + [alert];
        if alert.Terminates() {
          connectionClosed := true;
          hasHandshakeState := false;
        }
      }
    }

    /** `close()`: exactly `alert(WARNING, CLOSE_NOTIFY)`. */
    method Close()
      requires Valid()
      modifies this
      ensures Valid() && unchanged(secureRenegotiation)
      ensures View() == AlertEffect(old(View()), AlertMessage(Warning, CloseNotify))
      ensures IsClosed() && !IsActive()
    {
      Alert(Warning, CloseNotify);
    }
  }
}
