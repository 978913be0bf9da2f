/** The peer handle of libfreerdp-core/peer.c as objects updated in place:
    construction (freerdp_peer_new), the wiring of the context
    (freerdp_peer_context_new), the readiness surface (Initialize,
    GetFileDescriptor, CheckFileDescriptor) and the receive path, whose
    methods change the peer exactly as the dispatch functions of
    ConnectionPhase, ActivePhase and DataPdu say. */
module PeerHandle {
  import opened RdpTypes
  import opened PeerTrace
  import DataPdu
  import ActivePhase
  import ConnectionPhase

  /** `sizeof(rdpContext)`, the size of the engine's own context record. */
  const RdpContextSize: nat

  /** The operations the engine installs in every new handle. */
  datatype Operation = Initialize | GetFileDescriptor | CheckFileDescriptor | Disconnect

  const EngineOperations: set<Operation> := {Initialize, GetFileDescriptor, CheckFileDescriptor, Disconnect}

  /** rdpSettings, reduced to the two fields the peer writes. */
  class Settings {
    var serverMode: bool
    var pduSource: uint16

    constructor ()
      ensures !serverMode && pduSource == 0
    {
      serverMode := false;
      pduSource := 0;
    }
  }

  /** rdpUpdate and rdpInput, reduced to their back-reference to the context. */
  class Update {
    var context: Context?

    constructor ()
      ensures context == null
    {
      context := null;
    }

    method Bind(ctx: Context)
      modifies this
      ensures context == ctx
    {
      context := ctx;
    }
  }

  class Input {
    var context: Context?

    constructor ()
      ensures context == null
    {
      context := null;
    }

    method Bind(ctx: Context)
      modifies this
      ensures context == ctx
    {
      context := ctx;
    }
  }

  /** rdpTransport, reduced to the socket it is attached to, its blocking
      mode and the receive callback with its `extra` argument. */
  class Transport {
    var sockfd: int
    var blocking: bool
    var hasRecvCallback: bool
    var recvExtra: Peer?

    constructor ()
      ensures sockfd == -1 && blocking && !hasRecvCallback && recvExtra == null
    {
      sockfd := -1;
      blocking := true;
      hasRecvCallback := false;
      recvExtra := null;
    }

    /** transport_attach to the peer's socket, the receive callback with the
        peer as its `extra` argument, and non-blocking mode. */
    method AttachPeer(peer: Peer)
      modifies this
      ensures sockfd == peer.sockfd && hasRecvCallback && recvExtra == peer && !blocking
    {
      sockfd := peer.sockfd;
      hasRecvCallback := true;
      recvExtra := peer;
      blocking := false;
    }
  }

  /** rdpRdp: the connection phase and the components it owns. */
  class RdpCore {
    var state: ConnectionState
    const settings: Settings
    const update: Update
    const input: Input
    const transport: Transport

    /** Stands for rdp_new: fresh components, in the initial phase. */
    constructor ()
      ensures state == Initial
      ensures fresh(settings) && fresh(update) && fresh(input) && fresh(transport)
      ensures !settings.serverMode && settings.pduSource == 0
      ensures update.context == null && input.context == null
      ensures transport.blocking && !transport.hasRecvCallback && transport.recvExtra == null
    {
      state := Initial;
      settings := new Settings();
      update := new Update();
      input := new Input();
      transport := new Transport();
    }
  }

  /** rdpContext: the record of `context_size` bytes that holds the engine
      and the back-reference to the peer. */
  class Context {
    const size: nat
    var rdp: RdpCore?
    var peer: Peer?

    constructor (size: nat, rdp: RdpCore, peer: Peer)
      ensures this.size == size && this.rdp == rdp && this.peer == peer
    {
      this.size := size;
      this.rdp := rdp;
      this.peer := peer;
    }
  }

  /** freerdp_peer. The embedder's callbacks are represented by whether they
      are installed; `log` records what the engine caused, in order. */
  class Peer {
    var sockfd: int
    var contextSize: nat
    var operations: set<Operation>
    var context: Context?
    var settings: Settings?
    var update: Update?
    var input: Input?
    var hasContextNew: bool
    var hasContextFree: bool
    var hasPostConnect: bool
    var hasActivate: bool
    ghost var log: seq<Event>

    /** The context is wired: it holds an engine and points back to this
        peer, and the peer's settings, update and input are the engine's. */
    ghost predicate Bound()
      reads this, context
    {
      context != null && context.rdp != null && context.peer == this &&
      settings == context.rdp.settings && update == context.rdp.update && input == context.rdp.input
    }

    /** The part of the peer that the receive path reads and changes. */
    ghost function View(): Session
      requires Bound()
      reads this, context, context.rdp, settings
    {
      Session(context.rdp.state, settings.pduSource, hasPostConnect, hasActivate)
    }

    /** freerdp_peer_new: a zeroed handle on the accepted socket, with the
        engine's four operations and the base context size. */
    constructor (sockfd: int)
      ensures this.sockfd == sockfd && contextSize == RdpContextSize && operations == EngineOperations
      ensures context == null && settings == null && update == null && input == null
      ensures !hasContextNew && !hasContextFree && !hasPostConnect && !hasActivate
      ensures log == []
    {
      this.sockfd := sockfd;
      contextSize := RdpContextSize;
      operations := EngineOperations;
      context := null;
      settings := null;
      update := null;
      input := null;
      hasContextNew := false;
      hasContextFree := false;
      hasPostConnect := false;
      hasActivate := false;
      log := [];
    }

    /** freerdp_peer_context_new: create the engine and a context of
        `context_size` bytes, wire the back-references, attach the transport
        to the peer's socket in non-blocking mode with the receive callback,
        then call the embedder's ContextNew when installed. */
    method ContextNew()
      modifies this`context, this`settings, this`update, this`input, this`log
      ensures Bound() && fresh(context) && fresh(context.rdp)
      ensures fresh(settings) && fresh(update) && fresh(input) && fresh(context.rdp.transport)
      ensures context.size == contextSize && context.rdp.state == Initial
      ensures update.context == context && input.context == context
      ensures context.rdp.transport.sockfd == sockfd && !context.rdp.transport.blocking
      ensures context.rdp.transport.hasRecvCallback && context.rdp.transport.recvExtra == this
      ensures !settings.serverMode && settings.pduSource == 0
      ensures log == old(log) + (if hasContextNew then [ContextNewHook] else [])
      ensures sockfd == old(sockfd) && contextSize == old(contextSize) && operations == old(operations)
      ensures hasContextNew == old(hasContextNew) && hasContextFree == old(hasContextFree)
      ensures hasPostConnect == old(hasPostConnect) && hasActivate == old(hasActivate)
    {
      var rdp := new RdpCore();
      var ctx := new Context(contextSize, rdp, this);
      rdp.update.Bind(ctx);
      rdp.input.Bind(ctx);
      rdp.transport.AttachPeer(this);
      input := rdp.input;
      update := rdp.update;
      settings := rdp.settings;
      context := ctx;
      if hasContextNew {
        log := log + [ContextNewHook];
      }
    }

    /** freerdp_peer_context_free: call the embedder's ContextFree when
        installed. */
    method ContextFree()
      modifies this`log
      ensures log == old(log) + (if hasContextFree then [ContextFreeHook] else [])
    {
      if hasContextFree {
        log := log + [ContextFreeHook];
      }
    }

    /** freerdp_peer_initialize: switch the settings to server mode and the
        engine to the initial phase; nothing else changes. */
    method Initialize() returns (ok: bool)
      requires Bound()
      modifies context.rdp`state, context.rdp.settings`serverMode
      ensures ok && context.rdp.settings.serverMode && View() == old(View()).(state := Initial)
    {
      context.rdp.settings.serverMode := true;
      context.rdp.state := Initial;
      ok := true;
    }

    /** freerdp_peer_get_fds: store the transport's socket at `rfds[rcount]`
        and count it. The caller must leave room for it. */
    method GetFileDescriptor(rfds: array<int>, rcount: nat) returns (ok: bool, count: nat)
      requires Bound() && rcount < rfds.Length
      modifies rfds
      ensures ok && count == rcount + 1
      ensures rfds[rcount] == context.rdp.transport.sockfd
      ensures forall i | 0 <= i < rfds.Length && i != rcount :: rfds[i] == old(rfds[i])
    {
      rfds[rcount] := context.rdp.transport.sockfd;
      count := rcount + 1;
      ok := true;
    }

    /** freerdp_peer_check_fds: the status of the transport's check (which
        drives the receive callback) is fatal exactly when negative. */
    method CheckFileDescriptor(status: int) returns (ok: bool)
      requires Bound()
      ensures ok <==> 0 <= status
    {
      if status < 0 {
        return false;
      }
      return true;
    }

    /** One acceptor call: the acceptor may move the phase, and its verdict
        is the result. */
    method RunAcceptor(a: Acceptor, o: Oracle) returns (ok: bool)
      requires Bound()
      modifies context.rdp`state, this`log
      ensures ok == o.acceptor.ok && context.rdp.state == o.acceptor.next
      ensures log == old(log) + [Accept(a, ok)]
    {
      context.rdp.state := o.acceptor.next;
      ok := o.acceptor.ok;
      log := log + [Accept(a, ok)];
    }

    /** peer_recv_data_pdu on the peer: the one-shot PostConnect is
        uninstalled after its first success. */
    method RecvDataPdu(s: Stream, o: Oracle) returns (ok: bool)
      requires Bound()
      modifies context.rdp`state, this`hasPostConnect, this`log
      ensures Bound()
      ensures var r := DataPdu.RecvDataPdu(old(View()), s, o);
        ok == r.ok && View() == r.after && log == old(log) + r.trace
    {
      if s.shareData.None? {
        log := log + [Read(ShareDataHeader, false)];
        return false;
      }
      log := log + [Read(ShareDataHeader, true)];
      var t := s.shareData.value;
      if t == DATA_PDU_TYPE_SYNCHRONIZE {
        ok := o.acceptor.ok;
        log := log + [Accept(RecvClientSynchronize, ok)];
      } else if t == DATA_PDU_TYPE_CONTROL {
        ok := RunAcceptor(AcceptClientControl, o);
      } else if t == DATA_PDU_TYPE_BITMAP_CACHE_PERSISTENT_LIST {
        ok := true;
      } else if t == DATA_PDU_TYPE_FONT_LIST {
        ok := RecvFontList(o);
      } else if t == DATA_PDU_TYPE_SHUTDOWN_REQUEST {
        log := log + [DisconnectUltimatum];
        ok := false;
      } else {
        ok := true;
      }
    }

    /** The FONT_LIST case: the acceptor, then PostConnect (uninstalled after
        its first success), then Activate. */
    method RecvFontList(o: Oracle) returns (ok: bool)
      requires Bound()
      modifies context.rdp`state, this`hasPostConnect, this`log
      ensures Bound()
      ensures var r := DataPdu.RecvFontList(old(View()), o);
        ok == r.ok && View() == r.after && log == old(log) + r.trace
    {
      ok := RunAcceptor(AcceptClientFontList, o);
      if !ok {
        return;
      }
      if hasPostConnect {
        log := log + [PostConnectHook(o.postConnect)];
        if !o.postConnect {
          return false;
        }
        hasPostConnect := false;
      }
      if hasActivate {
        log := log + [ActivateHook(o.activate)];
        if !o.activate {
          return false;
        }
      }
      ok := true;
    }

    /** peer_recv_tpkt_pdu on the peer: reading the share-control header
        stores the PDU's source in the settings. */
    method RecvTpktPdu(s: Stream, o: Oracle) returns (ok: bool)
      requires Bound()
      modifies context.rdp`state, settings`pduSource, this`hasPostConnect, this`log
      ensures Bound()
      ensures var r := ActivePhase.RecvTpktPdu(old(View()), s, o);
        ok == r.ok && View() == r.after && log == old(log) + r.trace
    {
      if s.rdpHeader.None? {
        log := log + [Read(RdpHeader, false)];
        return false;
      }
      if s.rdpHeader.value != MCS_GLOBAL_CHANNEL_ID {
        log := log + [Read(RdpHeader, true)];
        return true;
      }
      ok := RecvGlobalChannel(s, o);
    }

    /** The global-channel part of peer_recv_tpkt_pdu, from the successful
        read of the RDP header on. */
    method RecvGlobalChannel(s: Stream, o: Oracle) returns (ok: bool)
      requires Bound() && s.rdpHeader == Some(MCS_GLOBAL_CHANNEL_ID)
      modifies context.rdp`state, settings`pduSource, this`hasPostConnect, this`log
      ensures Bound()
      ensures var r := ActivePhase.RecvTpktPdu(old(View()), s, o);
        ok == r.ok && View() == r.after && log == old(log) + r.trace
    {
      log := log + [Read(RdpHeader, true)];
      if s.shareControl.None? {
        log := log + [Read(ShareControlHeader, false)];
        return false;
      }
      settings.pduSource := s.shareControl.value.pduSource;
      log := log + [Read(ShareControlHeader, true)];
      if s.shareControl.value.pduType == PDU_TYPE_DATA {
        ghost var sourced := View();
        assert sourced == old(View()).(pduSource := s.shareControl.value.pduSource);
        ghost var d := DataPdu.RecvDataPdu(sourced, s, o);
        assert ActivePhase.RecvTpktPdu(old(View()), s, o)
            == Then([Read(RdpHeader, true), Read(ShareControlHeader, true)], d);
        ok := RecvDataPdu(s, o);
        assert log == old(log) + ([Read(RdpHeader, true), Read(ShareControlHeader, true)] + d.trace);
      } else {
        log := log + [Reject(UnexpectedPduType)];
        ok := false;
      }
    }

    /** peer_recv_fastpath_pdu on the peer. */
    method RecvFastPathPdu(s: Stream, o: Oracle) returns (ok: bool)
      requires Bound()
      modifies this`log
      ensures var r := ActivePhase.RecvFastPathPdu(old(View()), s, o);
        ok == r.ok && View() == r.after && log == old(log) + r.trace
    {
      var length := s.fastPath.length;
      log := log + [Read(FastPathHeader, true)];
      if length == 0 || length > s.left {
        log := log + [Reject(BadFastPathLength)];
        return false;
      }
      if s.fastPath.encryptionFlags & FASTPATH_OUTPUT_ENCRYPTED != 0 {
        log := log + [Decrypt(length)];
      }
      ok := o.inputs;
      log := log + [FastPathInputs(ok)];
    }

    /** peer_recv_pdu on the peer. */
    method RecvPdu(s: Stream, o: Oracle) returns (ok: bool)
      requires Bound()
      modifies context.rdp`state, settings`pduSource, this`hasPostConnect, this`log
      ensures Bound()
      ensures var r := ActivePhase.RecvPdu(old(View()), s, o);
        ok == r.ok && View() == r.after && log == old(log) + r.trace
    {
      if s.tpkt {
        ok := RecvTpktPdu(s, o);
      } else {
        ok := RecvFastPathPdu(s, o);
      }
    }

    /** peer_recv_callback on the peer: the receive callback the transport
        calls with this peer as its `extra` argument. */
    method RecvCallback(s: Stream, o: Oracle) returns (ok: bool)
      requires Bound()
      modifies context.rdp`state, settings`pduSource, this`hasPostConnect, this`log
      ensures Bound()
      ensures var r := ConnectionPhase.RecvCallback(old(View()), s, o);
        ok == r.ok && View() == r.after && log == old(log) + r.trace
    {
      match context.rdp.state
      case Initial => ok := RunAcceptor(AcceptNego, o);
      case Nego => ok := RunAcceptor(AcceptMcsConnectInitial, o);
      case McsConnect => ok := RunAcceptor(AcceptMcsErectDomain, o);
      case McsErectDomain => ok := RunAcceptor(AcceptMcsAttachUser, o);
      case McsAttachUser => ok := RunAcceptor(AcceptMcsChannelJoin, o);
      case McsChannelJoin => ok := RunAcceptor(AcceptClientInfo, o);
      case License => ok := RunAcceptor(AcceptConfirmActive, o);
      case Active => ok := RecvPdu(s, o);
      case Unknown(_) =>
        log := log + [Reject(InvalidState)];
        ok := false;
    }
  }

  /** The life of a handle as an embedder drives it: freerdp_peer_new, the
      context, Initialize, registration of the socket, then one inbound
      stream handed to the receive callback. */
  method Lifecycle(sockfd: int, rfds: array<int>, s: Stream, o: Oracle) returns (p: Peer, ok: bool)
    requires 0 < rfds.Length
    modifies rfds
    ensures fresh(p) && p.Bound() && p.context.peer == p && p.context.rdp.settings.serverMode
    ensures rfds[0] == sockfd && p.context.rdp.transport.sockfd == sockfd
    ensures var r := ConnectionPhase.RecvCallback(Session(Initial, 0, false, false), s, o);
      ok == r.ok && p.View() == r.after && p.log == r.trace
  {
    p := new Peer(sockfd);
    p.ContextNew();
    var _ := p.Initialize();
    var _, _ := p.GetFileDescriptor(rfds, 0);
    ok := p.RecvCallback(s, o);
  }

}
