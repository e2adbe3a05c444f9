/**
 * Bookkeeping for the renegotiation indication extension of RFC 5746
 * (`TLS_Channel::Secure_Renegotiation_State`).
 *
 * The pure part states what the bookkeeping is for: the value a hello must
 * carry, how each of the three `update` calls moves the bookkeeping on, and
 * what the bookkeeping holds after any run of handshakes. The class
 * `SecureRenegotiationState` keeps the four fields the channel updates in
 * place and is proved against the pure part.
 */
module Renegotiation {
  import opened TlsTypes

  /** The `renegotiation_info` extension of a ClientHello: absent, or its `renegotiated_connection` field. */
  datatype ClientHello = ClientHello(renegotiationInfo: Option<seq<byte>>)

  /** The `renegotiation_info` extension of a ServerHello: absent, or its `renegotiated_connection` field. */
  datatype ServerHello = ServerHello(renegotiationInfo: Option<seq<byte>>)

  /** A Finished message, reduced to its `verify_data`. */
  datatype Finished = Finished(verifyData: seq<byte>)

  /** The four fields of the bookkeeping, as one value. */
  datatype State = State(
    initialHandshake: bool,
    secureRenegotiation: bool,
    clientVerify: seq<byte>,
    serverVerify: seq<byte>)
  {
    /** The `renegotiated_connection` value the next ClientHello carries. */
    function ForClientHello(): seq<byte> {
      clientVerify
    }

    /**
     * The `renegotiated_connection` value the next ServerHello carries: the
     * client's verify data followed by the server's (section 3.2 of RFC 5746).
     */
    function ForServerHello(): (r: seq<byte>)
      ensures |r| == |clientVerify| + |serverVerify|
      ensures r[..|clientVerify|] == ForClientHello()
      ensures r[|clientVerify|..] == serverVerify
    {
      clientVerify + serverVerify
    }
  }

  /** A fresh bookkeeping: initial handshake, extension not (yet) agreed, no verify data. */
  const InitialState := State(true, false, [], [])

  /**
   * What an `update` on a hello does: go on with the new bookkeeping, or
   * reject the hello (Botan throws a `handshake_failure` TLS exception).
   */
  datatype Outcome = Accepted(next: State) | Rejected

  /**
   * `update(Client_Hello*)`. On the initial handshake the presence of the
   * extension records whether the client offers secure renegotiation, and a
   * non-empty `renegotiated_connection` is refused. On a renegotiation the
   * client must keep to what was agreed and, when it was agreed, present the
   * stored client verify data. The verify data are never touched here.
   */
  function AfterClientHello(s: State, hello: ClientHello): (r: Outcome)
    ensures r.Accepted? ==>
      && r.next.initialHandshake == s.initialHandshake
      && r.next.clientVerify == s.clientVerify
      && r.next.serverVerify == s.serverVerify
    ensures s.initialHandshake ==>
      (r.Accepted? <==> hello.renegotiationInfo == None || hello.renegotiationInfo == Some([]))
    ensures s.initialHandshake && r.Accepted? ==>
      r.next.secureRenegotiation == hello.renegotiationInfo.Some?
    ensures !s.initialHandshake ==>
      (r.Accepted? <==>
        hello.renegotiationInfo == (if s.secureRenegotiation then Some(s.ForClientHello()) else None))
    ensures !s.initialHandshake && r.Accepted? ==> r.next == s
  {
    var offered := hello.renegotiationInfo.Some?;
    if s.initialHandshake then
      if offered && hello.renegotiationInfo.value != [] then Rejected
      else Accepted(s.(secureRenegotiation := offered))
    else if offered != s.secureRenegotiation then Rejected
    else if offered && hello.renegotiationInfo.value != s.ForClientHello() then Rejected
    else Accepted(s)
  }

  /**
   * `update(Server_Hello*)`. On the initial handshake a non-empty
   * `renegotiated_connection` is refused (section 3.4 of RFC 5746), and the
   * extension stays agreed only if the client offered it and the server
   * answered with it. On a
   * renegotiation the server must keep to what was agreed and, when it was
   * agreed, present both stored verify data.
   */
  function AfterServerHello(s: State, hello: ServerHello): (r: Outcome)
    ensures r.Accepted? ==>
      && r.next.initialHandshake == s.initialHandshake
      && r.next.clientVerify == s.clientVerify
      && r.next.serverVerify == s.serverVerify
    ensures s.initialHandshake ==>
      (r.Accepted? <==> hello.renegotiationInfo == None || hello.renegotiationInfo == Some([]))
    ensures s.initialHandshake && r.Accepted? ==>
      r.next.secureRenegotiation == (s.secureRenegotiation && hello.renegotiationInfo.Some?)
    ensures !s.initialHandshake ==>
      (r.Accepted? <==>
        hello.renegotiationInfo == (if s.secureRenegotiation then Some(s.ForServerHello()) else None))
    ensures !s.initialHandshake && r.Accepted? ==> r.next == s
  {
    var offered := hello.renegotiationInfo.Some?;
    if s.initialHandshake then
      if offered && hello.renegotiationInfo.value != [] then Rejected
      else Accepted(s.(secureRenegotiation := s.secureRenegotiation && offered))
    else if offered != s.secureRenegotiation then Rejected
    else if offered && hello.renegotiationInfo.value != s.ForServerHello() then Rejected
    else Accepted(s)
  }

  /**
   * `update(Finished*, Finished*)`, at the end of a completed handshake: the
   * stored verify data become this handshake's, and every later handshake is
   * a renegotiation (section 3.1 of RFC 5746).
   */
  function AfterFinished(s: State, client: Finished, server: Finished): (r: State)
    ensures !r.initialHandshake
    ensures r.secureRenegotiation == s.secureRenegotiation
    ensures r.ForClientHello() == client.verifyData
    ensures r.ForServerHello() == client.verifyData + server.verifyData
  {
    State(false, s.secureRenegotiation, client.verifyData, server.verifyData)
  }

  /** One call the channel makes on the bookkeeping. */
  datatype Event =
    | SawClientHello(clientHello: ClientHello)
    | SawServerHello(serverHello: ServerHello)
    | Completed(client: Finished, server: Finished)

  function Step(s: State, e: Event): Outcome {
    match e
    case SawClientHello(h) => AfterClientHello(s, h)
    case SawServerHello(h) => AfterServerHello(s, h)
    case Completed(c, v) => Accepted(AfterFinished(s, c, v))
  }

  /** The bookkeeping after a run of calls, or `Rejected` if some hello was refused. */
  function Replay(s: State, events: seq<Event>): Outcome
    decreases |events|
  {
    if events == [] then Accepted(s)
    else match Step(s, events[0])
      case Rejected => Rejected
      case Accepted(t) => Replay(t, events[1..])
  }

  /** The last completed handshake of a run, if there is one. */
  function LastCompleted(events: seq<Event>): (r: Option<Event>)
    ensures r.Some? ==> r.value.Completed?
    ensures r.Some? ==>
      exists i :: 0 <= i < |events| && events[i] == r.value &&
        forall j :: i < j < |events| ==> !events[j].Completed?
    ensures r.None? ==> forall i :: 0 <= i < |events| ==> !events[i].Completed?
    decreases |events|
  {
    if events == [] then None
    else match LastCompleted(events[1..])
      case Some(e) => Some(e)
      case None => if events[0].Completed? then Some(events[0]) else None
  }

  /**
   * Whatever is replayed, the stored verify data are those of the most
   * recently completed handshake; a run in which no handshake completed (in
   * particular one abandoned after its hellos) leaves them and the
   * initial-handshake flag exactly as they were.
   */
  lemma {:induction false} ReplayKeepsLastHandshake(s: State, events: seq<Event>)
    requires Replay(s, events).Accepted?
    ensures var t := Replay(s, events).next;
      match LastCompleted(events)
      case None =>
        && t.initialHandshake == s.initialHandshake
        && t.clientVerify == s.clientVerify
        && t.serverVerify == s.serverVerify
      case Some(e) =>
        && !t.initialHandshake
        && t.clientVerify == e.client.verifyData
        && t.serverVerify == e.server.verifyData
    decreases |events|
  {
    if events != [] {
      var t1 := Step(s, events[0]).next;
      ReplayKeepsLastHandshake(t1, events[1..]);
    }
  }

  /**
   * From a fresh bookkeeping: before any handshake completes, both hellos
   * carry an empty value and the handshake is the initial one; after handshake
   * N completes, handshake N+1 is a renegotiation and its hellos carry
   * handshake N's client verify data, and the client's followed by the
   * server's.
   */
  lemma HellosCarryLastHandshake(events: seq<Event>)
    requires Replay(InitialState, events).Accepted?
    ensures var t := Replay(InitialState, events).next;
      && (t.initialHandshake <==> LastCompleted(events).None?)
      && (LastCompleted(events).None? ==> t.ForClientHello() == [] && t.ForServerHello() == [])
      && (LastCompleted(events).Some? ==>
            var e := LastCompleted(events).value;
            && t.ForClientHello() == e.client.verifyData
            && t.ForServerHello() == e.client.verifyData + e.server.verifyData)
  {
    ReplayKeepsLastHandshake(InitialState, events);
  }

  /** Once a handshake has completed, every later handshake is a renegotiation. */
  lemma RenegotiationIsPermanent(s: State, events: seq<Event>)
    requires !s.initialHandshake
    requires Replay(s, events).Accepted?
    ensures !Replay(s, events).next.initialHandshake
  {
    ReplayKeepsLastHandshake(s, events);
  }

  /**
   * Whether the extension is in use is settled by the initial handshake: no
   * accepted run of renegotiations changes it.
   */
  lemma {:induction false} SupportSettledAfterInitial(s: State, events: seq<Event>)
    requires !s.initialHandshake
    requires Replay(s, events).Accepted?
    ensures Replay(s, events).next.secureRenegotiation == s.secureRenegotiation
    decreases |events|
  {
    if events != [] {
      var t1 := Step(s, events[0]).next;
      SupportSettledAfterInitial(t1, events[1..]);
    }
  }

  /**
   * A renegotiation in which the extension was agreed goes on only while each
   * hello carries exactly the expected value: any run that contains a
   * ClientHello or ServerHello with a different value is rejected.
   */
  lemma {:induction false} InjectedHelloRejected(s: State, events: seq<Event>, i: nat)
    requires !s.initialHandshake && s.secureRenegotiation
    requires i < |events|
    requires forall j :: 0 <= j < i ==> !events[j].Completed?
    requires
      || (events[i].SawClientHello? && events[i].clientHello.renegotiationInfo != Some(s.ForClientHello()))
      || (events[i].SawServerHello? && events[i].serverHello.renegotiationInfo != Some(s.ForServerHello()))
    ensures Replay(s, events).Rejected?
    decreases i
  {
    if i > 0 {
      match Step(s, events[0])
      case Rejected =>
      case Accepted(t1) =>
        assert t1 == s;
        InjectedHelloRejected(t1, events[1..], i - 1);
    }
  }

  /** The renegotiation bookkeeping the channel owns and updates in place. */
  class SecureRenegotiationState {
    var initialHandshake: bool
    var secureRenegotiation: bool
    var clientVerify: seq<byte>
    var serverVerify: seq<byte>

    ghost function View(): State
      reads this
    {
      State(initialHandshake, secureRenegotiation, clientVerify, serverVerify)
    }

    /** Initial handshake, extension not supported, empty verify data. */
    constructor()
      ensures View() == InitialState
      ensures !Renegotiation() && !Supported() && ForClientHello() == []
    {
      initialHandshake := true;
      secureRenegotiation := false;
      clientVerify := [];
      serverVerify := [];
    }

    /** `for_client_hello()`: the stored client verify data, unchanged. */
    function ForClientHello(): (r: seq<byte>)
      reads this
      ensures r == View().ForClientHello()
    {
      clientVerify
    }

    /**
     * `for_server_hello()`: copies the client verify data into a local
     * buffer and appends the server verify data to it; no field changes.
     */
    method ForServerHello() returns (buf: seq<byte>)
      ensures buf == View().ForServerHello()
      ensures |buf| == |clientVerify| + |serverVerify|
      ensures buf[..|clientVerify|] == ForClientHello()
      ensures buf[|clientVerify|..] == serverVerify
    {
      buf := clientVerify;
      buf := buf + serverVerify;
    }

    /** `supported()`: whether secure renegotiation was agreed. */
    function Supported(): (r: bool)
      reads this
      ensures r == View().secureRenegotiation
    {
      secureRenegotiation
    }

    /** `renegotiation()`: whether the current handshake is not the initial one. */
    function Renegotiation(): (r: bool)
      reads this
      ensures r <==> !View().initialHandshake
    {
      !initialHandshake
    }

    /** `update(Client_Hello*)`; `false` stands for the `handshake_failure` exception. */
    method UpdateClientHello(hello: ClientHello) returns (accepted: bool)
      modifies this
      ensures accepted == AfterClientHello(old(View()), hello).Accepted?
      ensures View() == if accepted then AfterClientHello(old(View()), hello).next else old(View())
    {
      var offered := hello.renegotiationInfo.Some?;
      if initialHandshake {
        if offered && hello.renegotiationInfo.value != [] {
          return false;
        }
        secureRenegotiation := offered;
      } else {
        if offered != secureRenegotiation {
          return false;
        }
        if offered && hello.renegotiationInfo.value != clientVerify {
          return false;
        }
      }
      return true;
    }

    /** `update(Server_Hello*)`; `false` stands for the `handshake_failure` exception. */
    method UpdateServerHello(hello: ServerHello) returns (accepted: bool)
      modifies this
      ensures accepted == AfterServerHello(old(View()), hello).Accepted?
      ensures View() == if accepted then AfterServerHello(old(View()), hello).next else old(View())
    {
      var offered := hello.renegotiationInfo.Some?;
      if initialHandshake {
        if offered && hello.renegotiationInfo.value != [] {
          return false;
        }
        secureRenegotiation := secureRenegotiation && offered;
      } else {
        if offered != secureRenegotiation {
          return false;
        }
        if offered {
          var expected := ForServerHello();
          if hello.renegotiationInfo.value != expected {
            return false;
          }
        }
      }
      return true;
    }

    /** `update(Finished*, Finished*)`: store this handshake's verify data. */
    method UpdateFinished(client: Finished, server: Finished)
      modifies this
      ensures View() == AfterFinished(old(View()), client, server)
    {
      clientVerify := client.verifyData;
      serverVerify := server.verifyData;
      initialHandshake := false;
    }
  }
}
