/** peer_recv_data_pdu (libfreerdp-core/peer.c): the share-data handler of the
    active phase, with the one-shot PostConnect and the Activate callbacks. */
module DataPdu {
  import opened RdpTypes
  import opened PeerTrace
  /** What follows an accepted font list: the one-shot PostConnect callback,
      uninstalled after its first success, then Activate, which stays
      installed. A callback that returns false ends the delivery. */
  function ConnectHooks(ss: Session, o: Oracle): (r: Outcome)
    ensures r.after == ss.(hasPostConnect := ss.hasPostConnect && PostConnectHook(true) !in r.trace)
  {
    if ss.hasPostConnect && !o.postConnect then
      Outcome(false, ss, [PostConnectHook(false)])
    else
      var connected := ss.(hasPostConnect := false);
      if ss.hasPostConnect && ss.hasActivate then
        Outcome(o.activate, connected, [PostConnectHook(true), ActivateHook(o.activate)])
      else if ss.hasPostConnect then
        Outcome(true, connected, [PostConnectHook(true)])
      else if ss.hasActivate then
        Outcome(o.activate, connected, [ActivateHook(o.activate)])
      else
        Outcome(true, connected, [])
  }

  lemma ConnectHooksContracts(ss: Session, o: Oracle)
    ensures var h := ConnectHooks(ss, o);
      FailsLast(h) &&
      (h.ok <==> (ss.hasPostConnect ==> o.postConnect) && (ss.hasActivate ==> o.activate)) &&
      PostConnectCalls(h.trace) == (if ss.hasPostConnect then 1 else 0) &&
      ActivateCalls(h.trace) == (if ss.hasActivate && (ss.hasPostConnect ==> o.postConnect) then 1 else 0) &&
      (PostConnectHook(false) in h.trace <==> ss.hasPostConnect && !o.postConnect) &&
      h.after == ss.(hasPostConnect := ss.hasPostConnect && PostConnectHook(true) !in h.trace) &&
      PostConnectBeforeActivate(h.trace) &&
      forall e | e in h.trace :: e.IsCallback()
  {
    var h := ConnectHooks(ss, o);
    if |h.trace| > 0 {
      assert h.trace[|h.trace| - 1] in h.trace;
    }
  }

  /** FONT_LIST: the font-list acceptor and, when it succeeds, the callbacks. */
  function RecvFontList(ss: Session, o: Oracle): (r: Outcome)
    ensures r.after.state == o.acceptor.next && r.after.pduSource == ss.pduSource
    ensures KeepsCallbacks(ss, r.after)
  {
    var accepted := ss.(state := o.acceptor.next);
    if !o.acceptor.ok then
      Outcome(false, accepted, [Accept(AcceptClientFontList, false)])
    else
      Then([Accept(AcceptClientFontList, true)], ConnectHooks(accepted, o))
  }

  lemma FontListContracts(ss: Session, o: Oracle)
    ensures var r := RecvFontList(ss, o);
      FailsLast(r) && HooksObeyed(ss, r) && StateFrame(ss, o, r) &&
      r.after.state == o.acceptor.next && r.after.pduSource == ss.pduSource &&
      (r.ok <==> o.acceptor.ok && (ss.hasPostConnect ==> o.postConnect) && (ss.hasActivate ==> o.activate)) &&
      Accept(AcceptClientFontList, o.acceptor.ok) in r.trace
  {
    var r := RecvFontList(ss, o);
    if o.acceptor.ok {
      var accepted := ss.(state := o.acceptor.next);
      ConnectHooksContracts(accepted, o);
      HooksAfterAcceptance(ss, o, ConnectHooks(accepted, o));
      assert r.trace[0] in r.trace;
    } else {
      assert r.trace[0] in r.trace;
    }
  }

  /** The font-list handler runs the font-list acceptor and the callbacks,
      nothing else. */
  lemma FontListEventKinds(ss: Session, o: Oracle)
    ensures forall e | e in RecvFontList(ss, o).trace ::
      e == Accept(AcceptClientFontList, o.acceptor.ok) || e.PostConnectHook? || e.ActivateHook?
  {
    if o.acceptor.ok {
      var h := ConnectHooks(ss.(state := o.acceptor.next), o);
      assert RecvFontList(ss, o).trace == [Accept(AcceptClientFontList, true)] + h.trace;
    }
  }

  /** An accepted font list followed by the callbacks keeps the contracts. */
  lemma {:induction false} HooksAfterAcceptance(ss: Session, o: Oracle, h: Outcome)
    requires o.acceptor.ok && FailsLast(h)
    requires h.ok <==> (ss.hasPostConnect ==> o.postConnect) && (ss.hasActivate ==> o.activate)
    requires PostConnectCalls(h.trace) == if ss.hasPostConnect then 1 else 0
    requires ActivateCalls(h.trace) == if ss.hasActivate && (ss.hasPostConnect ==> o.postConnect) then 1 else 0
    requires PostConnectHook(false) in h.trace <==> ss.hasPostConnect && !o.postConnect
    requires h.after == ss.(state := o.acceptor.next, hasPostConnect := ss.hasPostConnect && PostConnectHook(true) !in h.trace)
    requires PostConnectBeforeActivate(h.trace)
    requires forall e | e in h.trace :: e.IsCallback()
    ensures var r := Then([Accept(AcceptClientFontList, true)], h);
      FailsLast(r) && HooksObeyed(ss, r) && StateFrame(ss, o, r) &&
      forall e | e in r.trace :: e == Accept(AcceptClientFontList, true) || e.PostConnectHook? || e.ActivateHook?
  {
    var acc := [Accept(AcceptClientFontList, true)];
    ThenKeepsFailsLast(acc, h);
    var t := acc + h.trace;
    assert t[0] in t;
    assert multiset(t) == multiset(acc) + multiset(h.trace);
    assert Accept(AcceptClientFontList, true) !in h.trace;
    assert PostConnectHook(true) in t <==> PostConnectHook(true) in h.trace;
    assert PostConnectHook(false) in t <==> PostConnectHook(false) in h.trace;
    forall i | 0 <= i < |t| && t[i].IsCallback()
      ensures exists j | 0 <= j < i :: t[j] == Accept(AcceptClientFontList, true)
    {
      assert t[0] == Accept(AcceptClientFontList, true);
    }
    PostConnectBeforeActivateAppend(acc, h.trace);
    if ActivateCalls(h.trace) > 0 && ss.hasPostConnect {
      assert PostConnectHook(true) in h.trace;
    }
  }

  /** peer_recv_data_pdu: read the share-data header and act on its type. */
  function RecvDataPdu(ss: Session, s: Stream, o: Oracle): (r: Outcome)
    ensures r.after.state == ss.state || r.after.state == o.acceptor.next
    ensures r.after.pduSource == ss.pduSource && KeepsCallbacks(ss, r.after)
  {
    match s.shareData
    case None => Outcome(false, ss, [Read(ShareDataHeader, false)])
    case Some(t) =>
      if t == DATA_PDU_TYPE_SYNCHRONIZE then
        Outcome(o.acceptor.ok, ss, [Read(ShareDataHeader, true), Accept(RecvClientSynchronize, o.acceptor.ok)])
      else if t == DATA_PDU_TYPE_CONTROL then
        Outcome(o.acceptor.ok, ss.(state := o.acceptor.next),
                [Read(ShareDataHeader, true), Accept(AcceptClientControl, o.acceptor.ok)])
      else if t == DATA_PDU_TYPE_BITMAP_CACHE_PERSISTENT_LIST then
        Outcome(true, ss, [Read(ShareDataHeader, true)])
      else if t == DATA_PDU_TYPE_FONT_LIST then
        Then([Read(ShareDataHeader, true)], RecvFontList(ss, o))
      else if t == DATA_PDU_TYPE_SHUTDOWN_REQUEST then
        Outcome(false, ss, [Read(ShareDataHeader, true), DisconnectUltimatum])
      else
        Outcome(true, ss, [Read(ShareDataHeader, true)])
  }

  /** A share-data header that cannot be read fails the delivery. */
  lemma DataPduHeaderFails(ss: Session, s: Stream, o: Oracle)
    requires s.shareData.None?
    ensures var r := RecvDataPdu(ss, s, o);
      Obeys(ss, o, r) && NoHandshakeNorFastPath(r) && !r.ok && r.after == ss
  {
    var r := RecvDataPdu(ss, s, o);
    assert r.trace[0] in r.trace;
    HooklessContracts(ss, r);
  }

  /** SYNCHRONIZE and CONTROL return the verdict of their acceptor. */
  lemma DataPduAcceptorVerdict(ss: Session, s: Stream, o: Oracle)
    requires s.shareData == Some(DATA_PDU_TYPE_SYNCHRONIZE) || s.shareData == Some(DATA_PDU_TYPE_CONTROL)
    ensures var r := RecvDataPdu(ss, s, o);
      Obeys(ss, o, r) && NoHandshakeNorFastPath(r) && r.after.pduSource == ss.pduSource &&
      r.ok == o.acceptor.ok &&
      Accept(if s.shareData == Some(DATA_PDU_TYPE_SYNCHRONIZE) then RecvClientSynchronize else AcceptClientControl,
             o.acceptor.ok) in r.trace
  {
    var r := RecvDataPdu(ss, s, o);
    assert r.trace[1] in r.trace;
    HooklessContracts(ss, r);
  }

  /** SHUTDOWN_REQUEST sends the disconnect-provider ultimatum, as the last
      thing, and always fails the delivery. */
  lemma ShutdownRequestFails(ss: Session, s: Stream, o: Oracle)
    requires s.shareData == Some(DATA_PDU_TYPE_SHUTDOWN_REQUEST)
    ensures var r := RecvDataPdu(ss, s, o);
      Obeys(ss, o, r) && NoHandshakeNorFastPath(r) && !r.ok && r.after == ss &&
      |r.trace| > 0 && r.trace[|r.trace| - 1] == DisconnectUltimatum
  {
    var r := RecvDataPdu(ss, s, o);
    assert r.trace[1] in r.trace;
    HooklessContracts(ss, r);
  }

  /** BITMAP_CACHE_PERSISTENT_LIST and every type the engine does not act on
      succeed without any acceptor or callback. */
  lemma DataPduIgnored(ss: Session, s: Stream, o: Oracle)
    requires s.shareData.Some? && s.shareData.value !in ActedOnDataTypes
    ensures var r := RecvDataPdu(ss, s, o);
      Obeys(ss, o, r) && NoHandshakeNorFastPath(r) && r.ok && r.after == ss &&
      forall e | e in r.trace :: !e.Accept? && !e.PostConnectHook? && !e.ActivateHook?
  {
    var r := RecvDataPdu(ss, s, o);
    assert r.trace == [Read(ShareDataHeader, true)];
    HooklessContracts(ss, r);
  }

  /** FONT_LIST succeeds exactly when the acceptor and every installed callback
      do. */
  lemma DataPduFontList(ss: Session, s: Stream, o: Oracle)
    requires s.shareData == Some(DATA_PDU_TYPE_FONT_LIST)
    ensures var r := RecvDataPdu(ss, s, o);
      Obeys(ss, o, r) && r.after.pduSource == ss.pduSource &&
      (r.ok <==> o.acceptor.ok && (ss.hasPostConnect ==> o.postConnect) && (ss.hasActivate ==> o.activate))
  {
    FontListContracts(ss, o);
    ThenKeepsContracts([Read(ShareDataHeader, true)], ss, o, RecvFontList(ss, o));
  }

  lemma DataPduFontListEvents(ss: Session, s: Stream, o: Oracle)
    requires s.shareData == Some(DATA_PDU_TYPE_FONT_LIST)
    ensures NoHandshakeNorFastPath(RecvDataPdu(ss, s, o))
  {
    var f := RecvFontList(ss, o);
    FontListEventKinds(ss, o);
    var r := RecvDataPdu(ss, s, o);
    assert r.trace == [Read(ShareDataHeader, true)] + f.trace;
    forall e | e in r.trace ensures !e.IsHandshake() && !OnFastPath(e) {
      if e != Read(ShareDataHeader, true) {
        assert e in f.trace;
      }
    }
  }

  /** Whatever the share-data type, the handler keeps the contracts and
      leaves `pdu_source` alone. */
  lemma DataPduContracts(ss: Session, s: Stream, o: Oracle)
    ensures var r := RecvDataPdu(ss, s, o);
      Obeys(ss, o, r) && NoHandshakeNorFastPath(r) && r.after.pduSource == ss.pduSource
  {
    match s.shareData
    case None => DataPduHeaderFails(ss, s, o);
    case Some(t) =>
      if t == DATA_PDU_TYPE_FONT_LIST {
        DataPduFontList(ss, s, o);
        DataPduFontListEvents(ss, s, o);
      } else if t == DATA_PDU_TYPE_SYNCHRONIZE || t == DATA_PDU_TYPE_CONTROL {
        DataPduAcceptorVerdict(ss, s, o);
      } else if t == DATA_PDU_TYPE_SHUTDOWN_REQUEST {
        ShutdownRequestFails(ss, s, o);
      } else {
        DataPduIgnored(ss, s, o);
      }
  }
}
