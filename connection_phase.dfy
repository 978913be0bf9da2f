/** peer_recv_callback (libfreerdp-core/peer.c): the connection phase selects
    the handler of each inbound stream. */
module ConnectionPhase {
  import opened RdpTypes
  import opened PeerTrace
  import ActivePhase

  /** The acceptor that serves each handshake phase. */
  function AcceptorFor(st: ConnectionState): (a: Option<Acceptor>)
    ensures a.Some? <==> st.IsHandshake()
    ensures a.Some? ==> a.value.IsHandshake()
  {
    match st
    case Initial => Some(AcceptNego)
    case Nego => Some(AcceptMcsConnectInitial)
    case McsConnect => Some(AcceptMcsErectDomain)
    case McsErectDomain => Some(AcceptMcsAttachUser)
    case McsAttachUser => Some(AcceptMcsChannelJoin)
    case McsChannelJoin => Some(AcceptClientInfo)
    case License => Some(AcceptConfirmActive)
    case _ => None
  }

  /** No two phases share an acceptor. */
  lemma AcceptorForInjective(s1: ConnectionState, s2: ConnectionState)
    requires AcceptorFor(s1).Some? && AcceptorFor(s1) == AcceptorFor(s2)
    ensures s1 == s2
  {
  }

  /** Every handshake acceptor serves some phase. */
  lemma EveryHandshakeAcceptorHasPhase(a: Acceptor)
    requires a.IsHandshake()
    ensures exists st :: AcceptorFor(st) == Some(a)
  {
    var st := match a
      case AcceptNego => Initial
      case AcceptMcsConnectInitial => Nego
      case AcceptMcsErectDomain => McsConnect
      case AcceptMcsAttachUser => McsErectDomain
      case AcceptMcsChannelJoin => McsAttachUser
      case AcceptClientInfo => McsChannelJoin
      case _ => License;
    assert AcceptorFor(st) == Some(a);
  }

  /** peer_recv_callback: each handshake phase hands the stream to its own
      acceptor, the active phase to the demultiplexer, and any other phase
      value is rejected. The acceptor's verdict and the phase it leaves are
      given by the oracle. */
  function RecvCallback(ss: Session, s: Stream, o: Oracle): (r: Outcome)
    ensures ss.state.IsHandshake() ==> r.after == ss.(state := o.acceptor.next)
    ensures KeepsCallbacks(ss, r.after)
  {
    match AcceptorFor(ss.state)
    case Some(acceptor) =>
      Outcome(o.acceptor.ok, ss.(state := o.acceptor.next), [Accept(acceptor, o.acceptor.ok)])
    case None =>
      if ss.state == Active then ActivePhase.RecvPdu(ss, s, o)
      else Outcome(false, ss, [Reject(InvalidState)])
  }

  /** A handshake phase runs exactly its own acceptor, once, and nothing else;
      the result is that acceptor's verdict. */
  lemma HandshakeRunsOwnAcceptor(ss: Session, s: Stream, o: Oracle)
    requires ss.state.IsHandshake()
    ensures var r := RecvCallback(ss, s, o);
      AcceptorFor(ss.state).Some? &&
      r.trace == [Accept(AcceptorFor(ss.state).value, o.acceptor.ok)] &&
      r.ok == o.acceptor.ok && r.after == ss.(state := o.acceptor.next)
  {
  }

  /** The active phase runs the demultiplexer and no handshake acceptor. */
  lemma ActiveRunsDemultiplexer(ss: Session, s: Stream, o: Oracle)
    requires ss.state == Active
    ensures var r := RecvCallback(ss, s, o);
      r == ActivePhase.RecvPdu(ss, s, o) && forall e | e in r.trace :: !e.IsHandshake()
  {
    ActivePhase.PduContracts(ss, s, o);
  }

  /** A phase value outside the enumeration fails the delivery without
      reading anything or running any handler. */
  lemma UnknownStateFails(ss: Session, s: Stream, o: Oracle)
    requires ss.state.Unknown?
    ensures var r := RecvCallback(ss, s, o);
      !r.ok && r.after == ss && r.trace == [Reject(InvalidState)]
  {
  }

  /** Exactly one handler per phase: a handshake acceptor runs if and only if
      the phase is a handshake phase, and then it is that phase's acceptor. */
  lemma ExactlyOneHandler(ss: Session, s: Stream, o: Oracle)
    ensures var r := RecvCallback(ss, s, o);
      (ss.state.IsHandshake() <==> exists e | e in r.trace :: e.IsHandshake()) &&
      forall e | e in r.trace && e.IsHandshake() :: Some(e.acceptor) == AcceptorFor(ss.state)
  {
    var r := RecvCallback(ss, s, o);
    if ss.state.IsHandshake() {
      HandshakeRunsOwnAcceptor(ss, s, o);
      assert r.trace[0] in r.trace;
    } else if ss.state == Active {
      ActiveRunsDemultiplexer(ss, s, o);
    }
  }

  /** The callback keeps the engine's contracts in every phase. */
  lemma CallbackContracts(ss: Session, s: Stream, o: Oracle)
    ensures Obeys(ss, o, RecvCallback(ss, s, o))
  {
    var r := RecvCallback(ss, s, o);
    if ss.state == Active {
      ActivePhase.PduContracts(ss, s, o);
    } else {
      assert r.trace[0] in r.trace;
      HooklessContracts(ss, r);
    }
  }
}
