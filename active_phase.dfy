/** peer_recv_tpkt_pdu, peer_recv_fastpath_pdu and peer_recv_pdu
    (libfreerdp-core/peer.c): the demultiplexer of the active phase, which
    tells the TPKT framing (ITU-T T.123) from the RDP fast-path framing. */
module ActivePhase {
  import opened RdpTypes
  import opened PeerTrace
  import DataPdu

  /** peer_recv_tpkt_pdu: read the RDP header; ignore other channels than the
      MCS global channel; on the global channel read the share-control header,
      which also stores `pdu_source`, and accept only data PDUs. */
  function RecvTpktPdu(ss: Session, s: Stream, o: Oracle): (r: Outcome)
    ensures r.after.pduSource == ss.pduSource ||
      (s.shareControl.Some? && r.after.pduSource == s.shareControl.value.pduSource)
    ensures KeepsCallbacks(ss, r.after)
  {
    match s.rdpHeader
    case None => Outcome(false, ss, [Read(RdpHeader, false)])
    case Some(channelId) =>
      if channelId != MCS_GLOBAL_CHANNEL_ID then
        Outcome(true, ss, [Read(RdpHeader, true)])
      else
        match s.shareControl
        case None => Outcome(false, ss, [Read(RdpHeader, true), Read(ShareControlHeader, false)])
        case Some(sc) =>
          var sourced := ss.(pduSource := sc.pduSource);
          if sc.pduType == PDU_TYPE_DATA then
            Then([Read(RdpHeader, true), Read(ShareControlHeader, true)], DataPdu.RecvDataPdu(sourced, s, o))
          else
            Outcome(false, sourced, [Read(RdpHeader, true), Read(ShareControlHeader, true), Reject(UnexpectedPduType)])
  }

  /** An RDP header that cannot be read fails the delivery. */
  lemma TpktHeaderFails(ss: Session, s: Stream, o: Oracle)
    requires s.rdpHeader.None?
    ensures var r := RecvTpktPdu(ss, s, o);
      Obeys(ss, o, r) && NoHandshakeNorFastPath(r) && !r.ok && r.after == ss
  {
    var r := RecvTpktPdu(ss, s, o);
    assert r.trace[0] in r.trace;
    HooklessContracts(ss, r);
  }

  /** Data for any channel but the global one is accepted and ignored: the
      share-control header is not read and nothing is dispatched. */
  lemma NonGlobalChannelIgnored(ss: Session, s: Stream, o: Oracle)
    requires s.rdpHeader.Some? && s.rdpHeader.value != MCS_GLOBAL_CHANNEL_ID
    ensures var r := RecvTpktPdu(ss, s, o);
      Obeys(ss, o, r) && NoHandshakeNorFastPath(r) && r.ok && r.after == ss &&
      forall e | e in r.trace :: e == Read(RdpHeader, true)
  {
    HooklessContracts(ss, RecvTpktPdu(ss, s, o));
  }

  /** A share-control header that cannot be read fails the delivery. */
  lemma ShareControlHeaderFails(ss: Session, s: Stream, o: Oracle)
    requires s.rdpHeader == Some(MCS_GLOBAL_CHANNEL_ID) && s.shareControl.None?
    ensures var r := RecvTpktPdu(ss, s, o);
      Obeys(ss, o, r) && NoHandshakeNorFastPath(r) && !r.ok && r.after == ss
  {
    var r := RecvTpktPdu(ss, s, o);
    assert r.trace[1] in r.trace;
    HooklessContracts(ss, r);
  }

  /** On the global channel any share-control PDU but a data PDU is a protocol
      violation: the delivery fails without reaching the share-data handler,
      having stored the PDU's source. */
  lemma NonDataPduRejected(ss: Session, s: Stream, o: Oracle)
    requires s.rdpHeader == Some(MCS_GLOBAL_CHANNEL_ID)
    requires s.shareControl.Some? && s.shareControl.value.pduType != PDU_TYPE_DATA
    ensures var r := RecvTpktPdu(ss, s, o);
      Obeys(ss, o, r) && NoHandshakeNorFastPath(r) && !r.ok &&
      r.after == ss.(pduSource := s.shareControl.value.pduSource) &&
      forall e | e in r.trace :: !e.Accept? && !e.PostConnectHook? && !e.ActivateHook?
  {
    var r := RecvTpktPdu(ss, s, o);
    assert r.trace[2] in r.trace;
    HooklessContracts(ss, r);
  }

  /** A data PDU on the global channel stores its source and goes to the
      share-data handler, whose verdict is the result. */
  lemma TpktDataPdu(ss: Session, s: Stream, o: Oracle)
    requires s.rdpHeader == Some(MCS_GLOBAL_CHANNEL_ID)
    requires s.shareControl.Some? && s.shareControl.value.pduType == PDU_TYPE_DATA
    ensures var r := RecvTpktPdu(ss, s, o);
      var d := DataPdu.RecvDataPdu(ss.(pduSource := s.shareControl.value.pduSource), s, o);
      Obeys(ss, o, r) && NoHandshakeNorFastPath(r) &&
      r.ok == d.ok && r.after == d.after && r.after.pduSource == s.shareControl.value.pduSource
  {
    var sourced := ss.(pduSource := s.shareControl.value.pduSource);
    var d := DataPdu.RecvDataPdu(sourced, s, o);
    var pre := [Read(RdpHeader, true), Read(ShareControlHeader, true)];
    DataPdu.DataPduContracts(sourced, s, o);
    ThenKeepsContracts(pre, sourced, o, d);
    var r := RecvTpktPdu(ss, s, o);
    assert r == Then(pre, d);
    assert Read(ShareControlHeader, true) in r.trace by {
      assert r.trace[1] == Read(ShareControlHeader, true);
    }
    forall e | e in r.trace ensures !e.IsHandshake() && !OnFastPath(e) {
      if e !in pre {
        assert e in d.trace;
      }
    }
  }

  /** The TPKT path keeps the contracts and causes no fast-path event. */
  lemma TpktContracts(ss: Session, s: Stream, o: Oracle)
    ensures var r := RecvTpktPdu(ss, s, o);
      Obeys(ss, o, r) && NoHandshakeNorFastPath(r)
  {
    match s.rdpHeader
    case None => TpktHeaderFails(ss, s, o);
    case Some(channelId) =>
      if channelId != MCS_GLOBAL_CHANNEL_ID {
        NonGlobalChannelIgnored(ss, s, o);
      } else {
        match s.shareControl
        case None => ShareControlHeaderFails(ss, s, o);
        case Some(sc) =>
          if sc.pduType == PDU_TYPE_DATA {
            TpktDataPdu(ss, s, o);
          } else {
            NonDataPduRejected(ss, s, o);
          }
      }
  }

  /** peer_recv_fastpath_pdu: the length from the fast-path header must be
      positive and fit in what is left of the stream; the payload is then
      decrypted when the header says it is encrypted, and handed to the
      fast-path input decoder, whose verdict is the result. */
  function RecvFastPathPdu(ss: Session, s: Stream, o: Oracle): (r: Outcome)
    ensures r.after == ss
    ensures r.ok ==> 0 < s.fastPath.length <= s.left
    ensures s.fastPath.length == 0 || s.fastPath.length > s.left ==>
      !r.ok && forall e | e in r.trace :: !e.Decrypt? && !e.FastPathInputs?
    ensures 0 < s.fastPath.length <= s.left ==>
      r.ok == o.inputs && |r.trace| >= 2 && r.trace[|r.trace| - 1] == FastPathInputs(o.inputs) &&
      (Decrypt(s.fastPath.length) in r.trace <==> s.fastPath.encryptionFlags & FASTPATH_OUTPUT_ENCRYPTED != 0) &&
      (Decrypt(s.fastPath.length) in r.trace ==> r.trace[|r.trace| - 2] == Decrypt(s.fastPath.length))
  {
    var length := s.fastPath.length;
    if length == 0 || length > s.left then
      Outcome(false, ss, [Read(FastPathHeader, true), Reject(BadFastPathLength)])
    else if s.fastPath.encryptionFlags & FASTPATH_OUTPUT_ENCRYPTED != 0 then
      Outcome(o.inputs, ss, [Read(FastPathHeader, true), Decrypt(length), FastPathInputs(o.inputs)])
    else
      Outcome(o.inputs, ss, [Read(FastPathHeader, true), FastPathInputs(o.inputs)])
  }

  /** The fast-path path keeps the contracts and causes only fast-path
      events. */
  lemma FastPathContracts(ss: Session, s: Stream, o: Oracle)
    ensures var r := RecvFastPathPdu(ss, s, o);
      Obeys(ss, o, r) && forall e | e in r.trace :: OnFastPath(e)
  {
    var r := RecvFastPathPdu(ss, s, o);
    if s.fastPath.length == 0 || s.fastPath.length > s.left {
      assert r.trace == [Read(FastPathHeader, true), Reject(BadFastPathLength)];
      assert r.trace[1] in r.trace;
    } else if s.fastPath.encryptionFlags & FASTPATH_OUTPUT_ENCRYPTED != 0 {
      assert r.trace == [Read(FastPathHeader, true), Decrypt(s.fastPath.length), FastPathInputs(o.inputs)];
      assert r.trace[2] in r.trace;
    } else {
      assert r.trace == [Read(FastPathHeader, true), FastPathInputs(o.inputs)];
      assert r.trace[1] in r.trace;
    }
    HooklessContracts(ss, r);
  }

  /** peer_recv_pdu: a stream with a valid TPKT header takes the TPKT path,
      any other stream the fast-path path. */
  function RecvPdu(ss: Session, s: Stream, o: Oracle): (r: Outcome)
    ensures !s.tpkt ==> r.after == ss
    ensures KeepsCallbacks(ss, r.after)
  {
    if s.tpkt then RecvTpktPdu(ss, s, o) else RecvFastPathPdu(ss, s, o)
  }

  /** Exactly one framing runs: a stream that passes the TPKT check causes no
      fast-path event, any other stream causes nothing but fast-path events. */
  lemma FramingChoice(ss: Session, s: Stream, o: Oracle)
    ensures var r := RecvPdu(ss, s, o);
      (s.tpkt ==> r == RecvTpktPdu(ss, s, o) && forall e | e in r.trace :: !OnFastPath(e)) &&
      (!s.tpkt ==> r == RecvFastPathPdu(ss, s, o) && forall e | e in r.trace :: OnFastPath(e))
  {
    if s.tpkt {
      TpktContracts(ss, s, o);
    } else {
      FastPathContracts(ss, s, o);
    }
  }

  /** The demultiplexer keeps the contracts and runs no handshake acceptor. */
  lemma PduContracts(ss: Session, s: Stream, o: Oracle)
    ensures var r := RecvPdu(ss, s, o);
      Obeys(ss, o, r) && forall e | e in r.trace :: !e.IsHandshake()
  {
    if s.tpkt {
      TpktContracts(ss, s, o);
    } else {
      FastPathContracts(ss, s, o);
    }
  }
}
