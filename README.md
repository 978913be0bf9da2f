# FreeRDP server peer engine (libfreerdp-core/peer.c) in Dafny

This project models the server-side peer engine of FreeRDP, which covers:

- the peer handle an embedder creates for each accepted socket;
- the wiring of its context;
- the readiness surface (Initialize, GetFileDescriptor, CheckFileDescriptor);
- the receive callback the transport calls with every reassembled inbound stream.

The receive callback has two jobs:

- In the seven handshake phases it hands the stream to the phase's own acceptor.
- In the active phase it demultiplexes the stream. Its main duties there:
  - tell TPKT framing (ITU-T T.123) from RDP fast-path framing;
  - keep only data PDUs on the MCS global channel;
  - dispatch on the share-data type;
  - on the font list that ends a (re)activation, run the embedder's one-shot PostConnect and its Activate callback.

Modules, in dependency order:

- `RdpTypes`: the values the engine works with.
  - The connection phase. A raw value outside the eight named phases is kept as `Unknown(code)`.
  - The already-parsed view of one stream, `Stream`. A header reader that fails yields `None`.
  - The answers of the foreign code one delivery reaches, `Oracle`:
    - the verdict of the acceptor that runs and the phase it leaves;
    - the verdicts of PostConnect and Activate;
    - the verdict of the fast-path input decoder.
  - The events the engine causes.
- `PeerTrace`: the result of one delivery, `Outcome`. It holds the boolean returned, the `Session` left behind (phase, `pdu_source`, which callbacks are installed) and the ordered event trace. The module also defines the properties every handler keeps:
  - `FailsLast`: false exactly when a terminal event happened, and that event comes last;
  - `HooksObeyed`: the callback discipline;
  - `StateFrame`: what a delivery may change.
- `DataPdu`, `ActivePhase`, `ConnectionPhase`: `peer_recv_data_pdu`, `peer_recv_tpkt_pdu`, `peer_recv_fastpath_pdu`, `peer_recv_pdu` and `peer_recv_callback`. Each is a pure function from session, stream and oracle to an `Outcome`, with lemmas per branch.
- `SessionRun`: a session is a list of deliveries handed to the callback in order, up to the first false. After a false the transport tears the connection down. Over a session the module proves:
  - every callback call follows an accepted font list, and PostConnect precedes every Activate;
  - PostConnect fires at most once;
  - nothing happens after a failed PostConnect;
  - the happy-path handshake ends active with one PostConnect and one Activate;
  - a reactivation runs Activate again but not PostConnect.
- `PeerHandle`: the handle as objects updated in place:
  - `Peer`, `Context`, `RdpCore`, `Settings`, `Update`, `Input`, `Transport`;
  - `Peer` methods for `freerdp_peer_new`, `freerdp_peer_context_new`, `freerdp_peer_context_free`, Initialize, GetFileDescriptor and CheckFileDescriptor;
  - one method per receive function. Each is proved to return, leave and log exactly what its pure counterpart says: `ok == r.ok`, `View() == r.after`, `log == old(log) + r.trace`.

The acceptors, the header readers, the decryptor, the fast-path input decoder and the embedder callbacks are foreign code. The model treats them as oracle answers and records each call as an event. `rdp_check_fds` becomes the integer status passed to `CheckFileDescriptor`.

Two points where the source says less than a reader might expect. The model follows the code:

- Phase transitions:
  - `state` is assigned in this file only by Initialize, at libfreerdp-core/peer.c:25.
  - Every other transition is made by the acceptors. The model gives no order to the phases: each acceptor's answer names the phase it leaves.
- When Activate runs:
  - The comment at libfreerdp-core/peer.c:95 ties Activate to each activation or reactivation.
  - The code calls it after every accepted font list while it is installed.
  - `HooksObeyed` and `HooksOverRun` count it that way: activations plus one failed PostConnect equal accepted font lists.

## Model

| member | source | states |
|---|---|---|
| DataPdu.ConnectHooks | libfreerdp-core/peer.c:83-98 | the callbacks after an accepted font list change nothing but PostConnect, which is uninstalled exactly when it succeeded (full contract in `ConnectHooksContracts`) |
| DataPdu.ConnectHooksContracts | libfreerdp-core/peer.c:83-98 | PostConnect runs before Activate; PostConnect runs exactly when installed, Activate exactly when installed and PostConnect did not fail; a failed PostConnect is recorded iff one was installed and refused; the result is true iff every installed callback succeeds; PostConnect is uninstalled iff it succeeded |
| DataPdu.RecvFontList | libfreerdp-core/peer.c:80-99 | the font-list case takes the phase the acceptor leaves, keeps `pdu_source`, never installs a callback and never uninstalls Activate (full contract in `FontListContracts`) |
| DataPdu.FontListContracts | libfreerdp-core/peer.c:80-99 | the font-list case keeps the failure semantics, the callback discipline and the frame; it succeeds iff the acceptor and every installed callback succeed; the acceptor's call is always recorded |
| DataPdu.FontListEventKinds | libfreerdp-core/peer.c:80-99 | the font-list case runs only the font-list acceptor and the two callbacks |
| DataPdu.RecvDataPdu | libfreerdp-core/peer.c:52-111 | the share-data handler keeps the phase or takes the acceptor's, keeps `pdu_source`, never installs a callback and never uninstalls Activate (per-type contracts in the lemmas below, all of them in `DataPduContracts`) |
| DataPdu.DataPduHeaderFails | libfreerdp-core/peer.c:61-62 | an unreadable share-data header fails the delivery and changes nothing |
| DataPdu.DataPduAcceptorVerdict | libfreerdp-core/peer.c:66-74 | SYNCHRONIZE and CONTROL return their own acceptor's verdict, and that acceptor is recorded |
| DataPdu.ShutdownRequestFails | libfreerdp-core/peer.c:101-103 | SHUTDOWN_REQUEST always fails, changes nothing, and the disconnect-provider ultimatum is the last event |
| DataPdu.DataPduIgnored | libfreerdp-core/peer.c:64-110 | BITMAP_CACHE_PERSISTENT_LIST and every type not acted on succeed and change nothing, with no acceptor and no callback |
| DataPdu.DataPduFontList | libfreerdp-core/peer.c:80-99 | FONT_LIST succeeds iff the font-list acceptor and every installed callback succeed |
| DataPdu.DataPduFontListEvents | libfreerdp-core/peer.c:80-99 | FONT_LIST runs no handshake acceptor and nothing of the fast-path framing |
| DataPdu.DataPduContracts | libfreerdp-core/peer.c:52-111 | whatever the share-data type, the handler keeps the failure semantics, the callback discipline and the frame, and leaves `pdu_source` alone |
| ActivePhase.RecvTpktPdu | libfreerdp-core/peer.c:113-149 | `pdu_source` is unchanged or becomes the share-control header's; no callback is installed and Activate is never uninstalled (per-branch contracts in the lemmas below, all of them in `TpktContracts`) |
| ActivePhase.TpktHeaderFails | libfreerdp-core/peer.c:120-124 | an unreadable RDP header fails the delivery and changes nothing |
| ActivePhase.NonGlobalChannelIgnored | libfreerdp-core/peer.c:126-129 | data for any channel but the MCS global channel succeeds, changes nothing, and only the RDP header is read |
| ActivePhase.ShareControlHeaderFails | libfreerdp-core/peer.c:132-133 | an unreadable share-control header on the global channel fails the delivery |
| ActivePhase.NonDataPduRejected | libfreerdp-core/peer.c:135-145 | any share-control PDU type but DATA fails, with no acceptor and no callback, after storing the PDU's source |
| ActivePhase.TpktDataPdu | libfreerdp-core/peer.c:132-140 | a DATA PDU stores its source in `pdu_source` and the result and new state are those of the share-data handler |
| ActivePhase.TpktContracts | libfreerdp-core/peer.c:113-149 | the TPKT path keeps the engine's contracts and causes no fast-path event |
| ActivePhase.RecvFastPathPdu | libfreerdp-core/peer.c:151-173 | success requires `0 < length <= left`; a bad length fails with no decrypt and no input delivery; otherwise the result is the input decoder's verdict, decryption happens iff the encrypted flag is set, and it comes just before the input delivery |
| ActivePhase.FastPathContracts | libfreerdp-core/peer.c:151-173 | the fast-path path keeps the engine's contracts and causes only fast-path events |
| ActivePhase.RecvPdu | libfreerdp-core/peer.c:175-181 | a stream that fails the TPKT check leaves the peer state alone; no callback is installed and Activate is never uninstalled (framing in `FramingChoice`) |
| ActivePhase.FramingChoice | libfreerdp-core/peer.c:175-181 | a stream that passes the TPKT check takes only the TPKT path, any other stream only the fast-path path |
| ActivePhase.PduContracts | libfreerdp-core/peer.c:175-181 | the demultiplexer keeps the engine's contracts and runs no handshake acceptor |
| ConnectionPhase.AcceptorFor | libfreerdp-core/peer.c:187-222 | a phase has an acceptor iff it is one of the seven handshake phases, and that acceptor is a handshake acceptor |
| ConnectionPhase.AcceptorForInjective | libfreerdp-core/peer.c:187-222 | no two phases share an acceptor |
| ConnectionPhase.EveryHandshakeAcceptorHasPhase | libfreerdp-core/peer.c:187-222 | every handshake acceptor serves some phase |
| ConnectionPhase.RecvCallback | libfreerdp-core/peer.c:183-235 | a handshake phase changes only the phase, to the acceptor's; no callback is installed and Activate is never uninstalled (handler choice in `ExactlyOneHandler`, rules in `CallbackContracts`) |
| ConnectionPhase.HandshakeRunsOwnAcceptor | libfreerdp-core/peer.c:189-222 | a handshake phase runs its own acceptor once and nothing else; the result and new phase are the acceptor's |
| ConnectionPhase.ActiveRunsDemultiplexer | libfreerdp-core/peer.c:224-227 | the active phase runs the demultiplexer, whose result is the callback's, and no handshake acceptor |
| ConnectionPhase.UnknownStateFails | libfreerdp-core/peer.c:229-231 | a phase value outside the enumeration fails, changes nothing and runs no handler |
| ConnectionPhase.ExactlyOneHandler | libfreerdp-core/peer.c:187-234 | a handshake acceptor runs iff the phase is a handshake phase, and then only that phase's acceptor |
| ConnectionPhase.CallbackContracts | libfreerdp-core/peer.c:183-235 | in every phase the callback keeps the failure semantics, the callback discipline and the frame |
| SessionRun.Run | libfreerdp-core/peer.c:183-235 | a session, the deliveries up to the first false: no callback is ever installed and Activate is never uninstalled (failure semantics in `RunFailsLast`, callback discipline in `RunHooksObeyed`) |
| SessionRun.RunStep | libfreerdp-core/peer.c:183-235 | a session is its first delivery handed to the callback and, when that returns true, the rest of the session from the state it leaves; a false ends the session with that delivery's outcome |
| SessionRun.RunFailsLast | libfreerdp-core/peer.c:183-235 | a session succeeds iff no terminal event happened, and a terminal event is always the session's last |
| SessionRun.RunHooksObeyed | libfreerdp-core/peer.c:80-99 | over a whole session every callback call is preceded by an accepted font list and every PostConnect call precedes every Activate call; PostConnect fires at most once, only while installed, and a success uninstalls it; Activate never fires while not installed nor, with PostConnect installed, before PostConnect succeeded; while installed, activations plus a failed PostConnect equal accepted font lists |
| SessionRun.PostConnectPrecedesActivate | libfreerdp-core/peer.c:80-99 | every Activate call of a session happens while Activate is installed, after an accepted font list and, when PostConnect was installed, after a successful PostConnect |
| SessionRun.PostConnectAtMostOnce | libfreerdp-core/peer.c:83-92 | PostConnect fires at most once in a session, across any number of reactivations |
| SessionRun.NoActivateAfterFailedPostConnect | libfreerdp-core/peer.c:85-86 | no Activate call ever follows a failed PostConnect |
| SessionRun.UltimatumEndsSession | libfreerdp-core/peer.c:101-103 | once the ultimatum is sent the session fails and the ultimatum is its last event |
| SessionRun.ReactivationScenario | libfreerdp-core/peer.c:80-99 | two accepted font lists with both callbacks installed: the first runs PostConnect then Activate, the second only Activate |
| SessionRun.RunAppend | libfreerdp-core/peer.c:183-235 | handing a session two lists of deliveries one after the other equals handing it their concatenation, the first failure ending it |
| SessionRun.HandshakeWalk | libfreerdp-core/peer.c:187-222 | when each acceptor accepts and leaves the next handshake phase, the session walks to the active phase running each phase's own acceptor once, in order |
| SessionRun.FinalizingFontList | libfreerdp-core/peer.c:80-99 | the finalizing font list with both callbacks installed and succeeding runs PostConnect, uninstalls it and runs Activate |
| SessionRun.HappyPath | libfreerdp-core/peer.c:183-235 | seven accepted handshake streams and a font list end in the active phase after the seven acceptors, one PostConnect (then uninstalled) and one Activate |
| PeerHandle.Update.Bind | libfreerdp-core/peer.c:255 | the update component points back to the context |
| PeerHandle.Input.Bind | libfreerdp-core/peer.c:256 | the input component points back to the context |
| PeerHandle.Transport.AttachPeer | libfreerdp-core/peer.c:260-264 | the transport is attached to the peer's socket, calls the receive callback with the peer as `extra`, and is non-blocking |
| PeerHandle.RdpCore.constructor | libfreerdp-core/peer.c:246 | a fresh engine in the initial phase, with fresh settings, update, input and transport |
| PeerHandle.Context.constructor | libfreerdp-core/peer.c:251-253 | the context has the handle's `context_size` and holds the engine and the back-reference to the peer |
| PeerHandle.Peer.constructor | libfreerdp-core/peer.c:274-291 | a zeroed handle on the socket with the base context size and the four engine operations, no context and no callbacks |
| PeerHandle.Peer.ContextNew | libfreerdp-core/peer.c:242-267 | the context, the engine and the engine's settings, update, input and transport are fresh; the peer shares the engine's settings, update and input; the context points to engine and peer and both components point back to it; the transport is attached non-blocking with the callback; ContextNew is called iff installed; with the embedder's ContextNew taken to leave the handle alone, nothing else of the handle changes |
| PeerHandle.Peer.ContextFree | libfreerdp-core/peer.c:269-272 | ContextFree is called iff installed |
| PeerHandle.Peer.Initialize | libfreerdp-core/peer.c:22-28 | returns true with server mode on and the initial phase, and nothing else the receive path sees changes |
| PeerHandle.Peer.GetFileDescriptor | libfreerdp-core/peer.c:30-36 | returns true, writes the transport's socket at `rfds[rcount]`, counts one more, and leaves every other slot alone |
| PeerHandle.Peer.CheckFileDescriptor | libfreerdp-core/peer.c:38-50 | fails exactly when the transport's status is negative |
| PeerHandle.Peer.RunAcceptor | libfreerdp-core/peer.c:189-222 | one acceptor call: its verdict is the result, its phase the new phase, and the call is logged |
| PeerHandle.Peer.RecvDataPdu | libfreerdp-core/peer.c:52-111 | result, new peer state and log are exactly those of `DataPdu.RecvDataPdu` |
| PeerHandle.Peer.RecvFontList | libfreerdp-core/peer.c:80-99 | result, new peer state (PostConnect uninstalled after its success) and log are exactly those of `DataPdu.RecvFontList` |
| PeerHandle.Peer.RecvTpktPdu | libfreerdp-core/peer.c:113-149 | result, new peer state (`pdu_source` stored) and log are exactly those of `ActivePhase.RecvTpktPdu` |
| PeerHandle.Peer.RecvGlobalChannel | libfreerdp-core/peer.c:130-146 | on the MCS global channel, result, new peer state (`pdu_source` stored) and log are exactly those of `ActivePhase.RecvTpktPdu` |
| PeerHandle.Peer.RecvFastPathPdu | libfreerdp-core/peer.c:151-173 | result, unchanged peer state and log are exactly those of `ActivePhase.RecvFastPathPdu` |
| PeerHandle.Peer.RecvPdu | libfreerdp-core/peer.c:175-181 | result, new peer state and log are exactly those of `ActivePhase.RecvPdu` |
| PeerHandle.Peer.RecvCallback | libfreerdp-core/peer.c:183-235 | result, new peer state and log are exactly those of `ConnectionPhase.RecvCallback` |
| PeerHandle.Lifecycle | libfreerdp-core/peer.c:274-291 | a handle made by freerdp_peer_new, given its context, initialized and registered is fresh, wired back to itself and in server mode; its socket is the one registered; one stream handed to its receive callback yields exactly the result, state and log of `ConnectionPhase.RecvCallback` from the initial session without callbacks |

## Left out

- The acceptors (`rdp_server_accept_*`, `rdp_recv_client_synchronize_pdu`) and the phase transitions they make. They are foreign code, so each acceptor's verdict and the phase it leaves are oracle answers.
- The header readers and codecs (`tpkt_verify_header`, `rdp_read_header`, `rdp_read_share_control_header`, `rdp_read_share_data_header`, `fastpath_read_header_rdp`). A stream is modelled by what they would read, with `None` for a reader that fails.
- `rdp_decrypt`, `fastpath_recv_inputs` and `mcs_send_disconnect_provider_ultimatum` are recorded as events only, with the decoder's verdict as an oracle answer.
- `rdp_check_fds`: the transport I/O that drives the receive callback. Its status is the parameter of `CheckFileDescriptor`.
- `freerdp_peer_disconnect` and `freerdp_peer_free` are not modelled. They only call into the transport and the allocator (`transport_disconnect`, `rdp_free`, `xfree`); the Disconnect operation appears only as one of the four installed operations.
- Memory allocation failure (`xnew` returning NULL) and the byte layout of the `context_size` block. The context is an object holding the engine and the peer.
- The exact value of `sizeof(rdpContext)` is left unspecified (`RdpContextSize`).
- `update_register_server_callbacks` and the update and input subsystems. Only their back-reference to the context is modelled.
- `rdp_new` is stood for by `RdpCore.constructor`, reduced to the fields the peer touches.
- The diagnostic `printf` lines: each engine rejection is a `Reject` event instead.
- Embedder callbacks that change the peer: PostConnect, Activate, ContextNew and ContextFree receive the peer and could change its fields. The model takes them to touch nothing but what they return.
- PeerHandle.Peer.ContextNew: states the handle's callback fields unchanged. The embedder's ContextNew, which receives the peer at libfreerdp-core/peer.c:266, could install or clear PostConnect or Activate; the model does not capture that.
- `PeerHandle.Peer.RecvTpktPdu`: a share-control header that cannot be read leaves `pdu_source` unchanged in the model. The source passes the field to the reader, which may already have written it.
- `PeerHandle.Peer.GetFileDescriptor`: requires room at `rfds[rcount]`. The source writes there without a check and the caller must size the array.
- `SessionRun.PostConnectAtMostOnce`: proved over a session, which ends at the first false. A failed PostConnect stays installed. If an embedder kept feeding the callback after a false, a later font list would call it again.
