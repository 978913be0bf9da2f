/** The life of one session as the transport drives it: every reassembled
    inbound stream is handed to peer_recv_callback, and the first false ends
    the session (the transport tears the connection down). Over such a run
    the embedder's PostConnect callback fires at most once and Activate fires
    on every activation. */
module SessionRun {
  import opened RdpTypes
  import opened PeerTrace
  import ConnectionPhase

  /** One inbound stream and the answers of the foreign code it reaches. */
  datatype Delivery = Delivery(stream: Stream, oracle: Oracle)

  /** The deliveries handed to the receive callback in order, up to and
      including the first one that fails. */
  function Run(ss: Session, ds: seq<Delivery>): (r: Outcome)
    ensures KeepsCallbacks(ss, r.after)
  {
    RunFrom(ss, ds, 0)
  }

  /** The deliveries from index `i` on. */
  function RunFrom(ss: Session, ds: seq<Delivery>, i: nat): (r: Outcome)
    requires i <= |ds|
    ensures KeepsCallbacks(ss, r.after)
    decreases |ds| - i
  {
    if i == |ds| then Outcome(true, ss, [])
    else
      var r := ConnectionPhase.RecvCallback(ss, ds[i].stream, ds[i].oracle);
      if !r.ok then r else Then(r.trace, RunFrom(r.after, ds, i + 1))
  }

  /** Running from index `i` depends only on the deliveries from `i` on. */
  lemma {:induction false} RunFromShift(ss: Session, ds: seq<Delivery>, i: nat, k: nat)
    requires k <= i <= |ds|
    ensures RunFrom(ss, ds, i) == RunFrom(ss, ds[k..], i - k)
    decreases |ds| - i
  {
    if i < |ds| {
      assert ds[k..][i - k] == ds[i];
      var r := ConnectionPhase.RecvCallback(ss, ds[i].stream, ds[i].oracle);
      if r.ok {
        RunFromShift(r.after, ds, i + 1, k);
      }
    }
  }

  /** A session is its first delivery and, when that succeeds, the rest of
      the session from the state it leaves. */
  lemma RunStep(ss: Session, ds: seq<Delivery>)
    requires |ds| > 0
    ensures var r := ConnectionPhase.RecvCallback(ss, ds[0].stream, ds[0].oracle);
      Run(ss, ds) == if !r.ok then r else Then(r.trace, Run(r.after, ds[1..]))
  {
    var r := ConnectionPhase.RecvCallback(ss, ds[0].stream, ds[0].oracle);
    if r.ok {
      RunFromShift(r.after, ds, 1, 1);
    }
  }

  /** The callback discipline over a whole session: every callback call
      follows an accepted font list; PostConnect fires at most once and only
      while installed, before every Activate, and a success uninstalls it;
      Activate fires only while installed, never before PostConnect has
      succeeded, and once per accepted font list except the one whose
      PostConnect failed. */
  predicate HooksOverRun(ss: Session, r: Outcome) {
    CallbacksAfterFontList(r.trace) && PostConnectBeforeActivate(r.trace) &&
    PostConnectCalls(r.trace) <= (if ss.hasPostConnect then 1 else 0) &&
    (r.after.hasPostConnect <==> ss.hasPostConnect && PostConnectHook(true) !in r.trace) &&
    (!ss.hasActivate ==> ActivateCalls(r.trace) == 0) &&
    (ActivateCalls(r.trace) > 0 && ss.hasPostConnect ==> PostConnectHook(true) in r.trace) &&
    (ss.hasActivate ==>
      ActivateCalls(r.trace) + (if PostConnectHook(false) in r.trace then 1 else 0) == FontListAcceptances(r.trace)) &&
    r.after.hasActivate == ss.hasActivate
  }

  /** A session succeeds exactly when no terminal event happened, and a
      terminal event (a failed reader, acceptor or callback, the shutdown
      ultimatum, a rejection) is always the last thing in the session. */
  lemma {:induction false} RunFailsLast(ss: Session, ds: seq<Delivery>)
    ensures FailsLast(Run(ss, ds))
    decreases |ds|
  {
    if |ds| > 0 {
      RunStep(ss, ds);
      var r := ConnectionPhase.RecvCallback(ss, ds[0].stream, ds[0].oracle);
      ConnectionPhase.CallbackContracts(ss, ds[0].stream, ds[0].oracle);
      if r.ok {
        RunFailsLast(r.after, ds[1..]);
        ThenKeepsFailsLast(r.trace, Run(r.after, ds[1..]));
      }
    }
  }

  /** PostConnect fires at most once per session, only once a font list was
      accepted, and a success uninstalls it; Activate stays installed and,
      while installed, fires once per accepted font list, except the one
      whose PostConnect failed. */
  lemma {:induction false} RunHooksObeyed(ss: Session, ds: seq<Delivery>)
    ensures HooksOverRun(ss, Run(ss, ds))
    decreases |ds|
  {
    if |ds| > 0 {
      RunStep(ss, ds);
      var r := ConnectionPhase.RecvCallback(ss, ds[0].stream, ds[0].oracle);
      ConnectionPhase.CallbackContracts(ss, ds[0].stream, ds[0].oracle);
      if r.ok {
        var rest := Run(r.after, ds[1..]);
        RunHooksObeyed(r.after, ds[1..]);
        StepThenRest(ss, r, rest);
      }
    }
  }

  /** A successful delivery followed by the rest of the session keeps the
      callback discipline. */
  lemma {:induction false} StepThenRest(ss: Session, r: Outcome, rest: Outcome)
    requires r.ok && FailsLast(r) && HooksObeyed(ss, r)
    requires HooksOverRun(r.after, rest)
    ensures HooksOverRun(ss, Then(r.trace, rest))
  {
    StepThenRestCounts(ss, r, rest);
    StepThenRestOrder(ss, r, rest);
  }

  lemma {:induction false} StepThenRestCounts(ss: Session, r: Outcome, rest: Outcome)
    requires r.ok && FailsLast(r) && HooksObeyed(ss, r)
    requires HooksOverRun(r.after, rest)
    ensures var t := r.trace + rest.trace;
      PostConnectCalls(t) <= (if ss.hasPostConnect then 1 else 0) &&
      (!ss.hasActivate ==> ActivateCalls(t) == 0) &&
      (ss.hasActivate ==>
        ActivateCalls(t) + (if PostConnectHook(false) in t then 1 else 0) == FontListAcceptances(t))
  {
    var t := r.trace + rest.trace;
    assert multiset(t) == multiset(r.trace) + multiset(rest.trace);
    assert PostConnectHook(false) !in r.trace && ActivateHook(false) !in r.trace;
    assert PostConnectHook(false) in t <==> PostConnectHook(false) in rest.trace;
    if PostConnectCalls(r.trace) > 0 {
      assert PostConnectHook(true) in r.trace;
    }
  }

  lemma {:induction false} StepThenRestOrder(ss: Session, r: Outcome, rest: Outcome)
    requires r.ok && FailsLast(r) && HooksObeyed(ss, r)
    requires HooksOverRun(r.after, rest)
    ensures var t := r.trace + rest.trace;
      CallbacksAfterFontList(t) && PostConnectBeforeActivate(t) &&
      (ActivateCalls(t) > 0 && ss.hasPostConnect ==> PostConnectHook(true) in t) &&
      (r.after.hasPostConnect ==> ss.hasPostConnect) &&
      (rest.after.hasPostConnect <==> ss.hasPostConnect && PostConnectHook(true) !in t)
  {
    var t := r.trace + rest.trace;
    assert multiset(t) == multiset(r.trace) + multiset(rest.trace);
    CallbacksAfterFontListAppend(r.trace, rest.trace);
    if ActivateCalls(r.trace) > 0 {
      assert !r.after.hasPostConnect;
      assert PostConnectHook(true) !in rest.trace && PostConnectHook(false) !in rest.trace;
    } else {
      assert ActivateHook(true) !in r.trace && ActivateHook(false) !in r.trace;
    }
    PostConnectBeforeActivateAppend(r.trace, rest.trace);
  }

  /** PostConnect fires at most once in a session, whatever the client sends
      and however often it reactivates. */
  lemma PostConnectAtMostOnce(ss: Session, ds: seq<Delivery>)
    ensures PostConnectCalls(Run(ss, ds).trace) <= 1
  {
    RunHooksObeyed(ss, ds);
  }

  /** With PostConnect installed at the start, every Activate call of the
      session follows a successful PostConnect call and an accepted font
      list; with Activate not installed, Activate never fires. */
  lemma PostConnectPrecedesActivate(ss: Session, ds: seq<Delivery>)
    ensures var t := Run(ss, ds).trace;
      forall j | 0 <= j < |t| && t[j].ActivateHook? ::
        ss.hasActivate &&
        (ss.hasPostConnect ==> exists i | 0 <= i < j :: t[i] == PostConnectHook(true)) &&
        exists i | 0 <= i < j :: t[i] == Accept(AcceptClientFontList, true)
  {
    RunHooksObeyed(ss, ds);
    var t := Run(ss, ds).trace;
    forall j | 0 <= j < |t| && t[j].ActivateHook?
      ensures ss.hasActivate
      ensures ss.hasPostConnect ==> exists i | 0 <= i < j :: t[i] == PostConnectHook(true)
    {
      assert multiset(t)[t[j]] > 0;
      if ss.hasPostConnect {
        var i :| 0 <= i < |t| && t[i] == PostConnectHook(true);
        assert i < j;
      }
    }
  }

  /** Nothing happens in a session after a failed PostConnect: in particular
      Activate never fires after it. */
  lemma NoActivateAfterFailedPostConnect(ss: Session, ds: seq<Delivery>)
    ensures var t := Run(ss, ds).trace;
      forall i, j | 0 <= i < j < |t| && t[i] == PostConnectHook(false) :: !t[j].ActivateHook?
  {
    RunFailsLast(ss, ds);
  }

  /** The disconnect-provider ultimatum ends the session: it is its last
      event and the session fails. */
  lemma UltimatumEndsSession(ss: Session, ds: seq<Delivery>)
    ensures var r := Run(ss, ds);
      DisconnectUltimatum in r.trace ==> !r.ok && r.trace[|r.trace| - 1] == DisconnectUltimatum
  {
    RunFailsLast(ss, ds);
    var t := Run(ss, ds).trace;
    if DisconnectUltimatum in t {
      var i :| 0 <= i < |t| && t[i] == DisconnectUltimatum;
      assert t[i].Terminal();
    }
  }

  /** The finalization of a connection and one reactivation, with both
      callbacks installed and succeeding: the first accepted font list runs
      PostConnect then Activate, the second only Activate. */
  lemma ReactivationScenario(s: Stream)
    requires s.tpkt && s.rdpHeader == Some(MCS_GLOBAL_CHANNEL_ID)
    requires s.shareControl.Some? && s.shareControl.value.pduType == PDU_TYPE_DATA
    requires s.shareData == Some(DATA_PDU_TYPE_FONT_LIST)
    ensures var o := Oracle(Reply(true, Active), true, true, true);
      var ss := Session(Active, 0, true, true);
      var r := Run(ss, [Delivery(s, o), Delivery(s, o)]);
      r.ok && r.after == Session(Active, s.shareControl.value.pduSource, false, true) &&
      r.trace == [Read(RdpHeader, true), Read(ShareControlHeader, true), Read(ShareDataHeader, true),
                  Accept(AcceptClientFontList, true), PostConnectHook(true), ActivateHook(true),
                  Read(RdpHeader, true), Read(ShareControlHeader, true), Read(ShareDataHeader, true),
                  Accept(AcceptClientFontList, true), ActivateHook(true)]
  {
    var o := Oracle(Reply(true, Active), true, true, true);
    var ds := [Delivery(s, o), Delivery(s, o)];
    var ss := Session(Active, 0, true, true);
    var sourced := ss.(pduSource := s.shareControl.value.pduSource);
    var hdrs := [Read(RdpHeader, true), Read(ShareControlHeader, true), Read(ShareDataHeader, true)];
    var first := ConnectionPhase.RecvCallback(ss, s, o);
    assert first == Outcome(true, sourced.(hasPostConnect := false),
      hdrs + [Accept(AcceptClientFontList, true), PostConnectHook(true), ActivateHook(true)]);
    var second := ConnectionPhase.RecvCallback(first.after, s, o);
    assert second == Outcome(true, first.after, hdrs + [Accept(AcceptClientFontList, true), ActivateHook(true)]);
    RunStep(ss, ds);
    RunStep(first.after, ds[1..]);
    assert ds[1..][1..] == [];
  }

  /** The handshake phases in the order the acceptors leave them, and the
      acceptor that serves each. */
  const Phases: seq<ConnectionState> :=
    [Initial, Nego, McsConnect, McsErectDomain, McsAttachUser, McsChannelJoin, License, Active]
  const HandshakeAcceptors: seq<Acceptor> :=
    [AcceptNego, AcceptMcsConnectInitial, AcceptMcsErectDomain, AcceptMcsAttachUser,
     AcceptMcsChannelJoin, AcceptClientInfo, AcceptConfirmActive]

  /** The events of successful acceptor calls, in order. */
  function Accepted(acceptors: seq<Acceptor>): seq<Event> {
    seq(|acceptors|, i requires 0 <= i < |acceptors| => Accept(acceptors[i], true))
  }

  lemma AcceptedCons(acceptors: seq<Acceptor>)
    requires |acceptors| > 0
    ensures Accepted(acceptors) == [Accept(acceptors[0], true)] + Accepted(acceptors[1..])
  {
    assert forall i | 0 <= i < |acceptors| :: Accepted(acceptors)[i] == Accept(acceptors[i], true);
  }

  /** Handshake phase k is served by the k-th handshake acceptor. */
  lemma PhaseAcceptor(k: nat)
    requires k < |HandshakeAcceptors|
    ensures Phases[k].IsHandshake() && ConnectionPhase.AcceptorFor(Phases[k]) == Some(HandshakeAcceptors[k])
  {
  }

  /** Handing the session the deliveries one list after another is handing it
      their concatenation: a failure in the first list ends the session. */
  lemma RunAppend(ss: Session, ds1: seq<Delivery>, ds2: seq<Delivery>)
    ensures var r1 := Run(ss, ds1);
      Run(ss, ds1 + ds2) == if r1.ok then Then(r1.trace, Run(r1.after, ds2)) else r1
  {
    RunFromAppend(ss, ds1, ds2, 0);
  }

  /** `RunAppend` from index `i` of the first list on. */
  lemma {:induction false} RunFromAppend(ss: Session, ds1: seq<Delivery>, ds2: seq<Delivery>, i: nat)
    requires i <= |ds1|
    ensures var r1 := RunFrom(ss, ds1, i);
      RunFrom(ss, ds1 + ds2, i) == if r1.ok then Then(r1.trace, Run(r1.after, ds2)) else r1
    decreases |ds1| - i
  {
    var ds := ds1 + ds2;
    if i == |ds1| {
      RunFromShift(ss, ds, i, i);
      assert ds[i..] == ds2;
    } else {
      assert ds[i] == ds1[i];
      var r := ConnectionPhase.RecvCallback(ss, ds1[i].stream, ds1[i].oracle);
      if r.ok {
        RunFromAppend(r.after, ds1, ds2, i + 1);
        var r1 := RunFrom(r.after, ds1, i + 1);
        if r1.ok {
          var r2 := Run(r1.after, ds2);
          assert r.trace + (r1.trace + r2.trace) == (r.trace + r1.trace) + r2.trace;
        }
      }
    }
  }

  /** When every acceptor accepts and leaves the next phase of the handshake,
      the session walks from phase k to the active phase, running each
      phase's own acceptor once and in order. */
  lemma HandshakeWalk(ss: Session, ds: seq<Delivery>, k: nat)
    requires k < |Phases| && ss.state == Phases[k] && |ds| == |HandshakeAcceptors| - k
    requires forall i | 0 <= i < |ds| :: ds[i].oracle.acceptor == Reply(true, Phases[k + i + 1])
    ensures Run(ss, ds) == Outcome(true, ss.(state := Active), Accepted(HandshakeAcceptors[k..]))
  {
    HandshakeWalkFrom(ss, ds, k, 0);
  }

  /** `HandshakeWalk` from delivery `i` on, in phase `k + i`. */
  lemma {:induction false} HandshakeWalkFrom(ss: Session, ds: seq<Delivery>, k: nat, i: nat)
    requires k + |ds| == |HandshakeAcceptors| && i <= |ds| && ss.state == Phases[k + i]
    requires forall j | 0 <= j < |ds| :: ds[j].oracle.acceptor == Reply(true, Phases[k + j + 1])
    ensures RunFrom(ss, ds, i) == Outcome(true, ss.(state := Active), Accepted(HandshakeAcceptors[k + i..]))
    decreases |ds| - i
  {
    if i < |ds| {
      PhaseAcceptor(k + i);
      ConnectionPhase.HandshakeRunsOwnAcceptor(ss, ds[i].stream, ds[i].oracle);
      var r := ConnectionPhase.RecvCallback(ss, ds[i].stream, ds[i].oracle);
      assert r == Outcome(true, ss.(state := Phases[k + i + 1]), [Accept(HandshakeAcceptors[k + i], true)]);
      HandshakeWalkFrom(r.after, ds, k, i + 1);
      AcceptedCons(HandshakeAcceptors[k + i..]);
      assert HandshakeAcceptors[k + i..][1..] == HandshakeAcceptors[k + i + 1..];
    } else {
      assert HandshakeAcceptors[k + i..] == [];
    }
  }

  /** The font list that finalizes the connection, with both callbacks
      installed and succeeding: PostConnect runs, is uninstalled, and
      Activate runs. */
  lemma FinalizingFontList(ss: Session, fontList: Stream, o: Oracle)
    requires ss.state == Active && ss.hasPostConnect && ss.hasActivate
    requires fontList.tpkt && fontList.rdpHeader == Some(MCS_GLOBAL_CHANNEL_ID)
    requires fontList.shareControl.Some? && fontList.shareControl.value.pduType == PDU_TYPE_DATA
    requires fontList.shareData == Some(DATA_PDU_TYPE_FONT_LIST)
    requires o.acceptor == Reply(true, Active) && o.postConnect && o.activate
    ensures Run(ss, [Delivery(fontList, o)]) ==
      Outcome(true, ss.(pduSource := fontList.shareControl.value.pduSource, hasPostConnect := false),
              [Read(RdpHeader, true), Read(ShareControlHeader, true), Read(ShareDataHeader, true),
               Accept(AcceptClientFontList, true), PostConnectHook(true), ActivateHook(true)])
  {
    var last := ConnectionPhase.RecvCallback(ss, fontList, o);
    assert last == Outcome(true, ss.(pduSource := fontList.shareControl.value.pduSource, hasPostConnect := false),
      [Read(RdpHeader, true), Read(ShareControlHeader, true), Read(ShareDataHeader, true),
       Accept(AcceptClientFontList, true), PostConnectHook(true), ActivateHook(true)]);
    RunStep(ss, [Delivery(fontList, o)]);
    assert [Delivery(fontList, o)][1..] == [];
  }

  /** The happy path: seven accepted handshake streams then an accepted font
      list, with both callbacks installed, end in the active phase with one
      PostConnect (then uninstalled) and one Activate. */
  lemma HappyPath(ss: Session, hs: seq<Delivery>, fontList: Stream, o: Oracle)
    requires ss.state == Initial && ss.hasPostConnect && ss.hasActivate
    requires |hs| == |HandshakeAcceptors|
    requires forall i | 0 <= i < |hs| :: hs[i].oracle.acceptor == Reply(true, Phases[i + 1])
    requires fontList.tpkt && fontList.rdpHeader == Some(MCS_GLOBAL_CHANNEL_ID)
    requires fontList.shareControl.Some? && fontList.shareControl.value.pduType == PDU_TYPE_DATA
    requires fontList.shareData == Some(DATA_PDU_TYPE_FONT_LIST)
    requires o.acceptor == Reply(true, Active) && o.postConnect && o.activate
    ensures Run(ss, hs + [Delivery(fontList, o)]) ==
      Outcome(true, ss.(state := Active, pduSource := fontList.shareControl.value.pduSource, hasPostConnect := false),
              Accepted(HandshakeAcceptors) +
              [Read(RdpHeader, true), Read(ShareControlHeader, true), Read(ShareDataHeader, true),
               Accept(AcceptClientFontList, true), PostConnectHook(true), ActivateHook(true)])
  {
    HandshakeWalk(ss, hs, 0);
    RunAppend(ss, hs, [Delivery(fontList, o)]);
    FinalizingFontList(ss.(state := Active), fontList, o);
  }
}
