/** Values the server-side peer engine works with: the connection phase, the
    already-parsed view of one inbound stream, the verdicts of the foreign
    acceptors and callbacks, and the events the engine causes. */
module RdpTypes {

  datatype Option<T> = None | Some(value: T)

  type uint8 = x: int | 0 <= x < 0x100
  type uint16 = x: int | 0 <= x < 0x1_0000

  /** Channel id of the MCS global channel (1003 in the engine's MCS layer). */
  const MCS_GLOBAL_CHANNEL_ID: uint16 := 1003

  /** Share-control pduType of a data PDU (MS-RDPBCGR section 2.2.8.1.1.1.1). */
  const PDU_TYPE_DATA: uint16 := 0x7

  /** Share-data pduType2 values (MS-RDPBCGR section 2.2.8.1.1.1.2). */
  const DATA_PDU_TYPE_CONTROL: uint8 := 0x14
  const DATA_PDU_TYPE_SYNCHRONIZE: uint8 := 0x1F
  const DATA_PDU_TYPE_SHUTDOWN_REQUEST: uint8 := 0x24
  const DATA_PDU_TYPE_FONT_LIST: uint8 := 0x27
  const DATA_PDU_TYPE_BITMAP_CACHE_PERSISTENT_LIST: uint8 := 0x2B

  /** Encryption flag of a fast-path header (MS-RDPBCGR section 2.2.8.1.2). */
  const FASTPATH_OUTPUT_ENCRYPTED: bv8 := 0x2

  /** The connection phase held in `rdp->state`. Any value other than the eight
      named phases is kept as `Unknown` with its raw code. */
  datatype ConnectionState =
    | Initial
    | Nego
    | McsConnect
    | McsErectDomain
    | McsAttachUser
    | McsChannelJoin
    | License
    | Active
    | Unknown(code: int)
  {
    /** The seven phases of the handshake, each served by one acceptor. */
    predicate IsHandshake() {
      !Active? && !Unknown?
    }
  }

  /** The foreign acceptors the engine can invoke. */
  datatype Acceptor =
    | AcceptNego
    | AcceptMcsConnectInitial
    | AcceptMcsErectDomain
    | AcceptMcsAttachUser
    | AcceptMcsChannelJoin
    | AcceptClientInfo
    | AcceptConfirmActive
    | RecvClientSynchronize
    | AcceptClientControl
    | AcceptClientFontList
  {
    predicate IsHandshake() {
      !RecvClientSynchronize? && !AcceptClientControl? && !AcceptClientFontList?
    }
  }

  /** The wire headers the engine asks the codecs to read. */
  datatype Header = RdpHeader | ShareControlHeader | ShareDataHeader | FastPathHeader

  /** Why the engine itself rejects a stream (each case is one diagnostic line
      the engine prints before returning false). */
  datatype Rejection = InvalidState | UnexpectedPduType | BadFastPathLength

  /** What the engine causes, in order, while it handles one stream. */
  datatype Event =
    | Read(header: Header, ok: bool)
    | Accept(acceptor: Acceptor, ok: bool)
    | PostConnectHook(ok: bool)
    | ActivateHook(ok: bool)
    | Decrypt(length: int)
    | FastPathInputs(ok: bool)
    | DisconnectUltimatum
    | Reject(reason: Rejection)
    | ContextNewHook
    | ContextFreeHook
  {
    /** An event after which the engine returns false at once. */
    predicate Terminal() {
      match this
      case Read(_, ok) => !ok
      case Accept(_, ok) => !ok
      case PostConnectHook(ok) => !ok
      case ActivateHook(ok) => !ok
      case FastPathInputs(ok) => !ok
      case DisconnectUltimatum => true
      case Reject(_) => true
      case _ => false
    }

    /** One of the embedder's PostConnect and Activate callbacks ran. */
    predicate IsCallback() {
      PostConnectHook? || ActivateHook?
    }

    /** A handshake acceptor ran. */
    predicate IsHandshake() {
      Accept? && acceptor.IsHandshake()
    }
  }

  datatype ShareControl = ShareControl(pduType: uint16, pduSource: uint16)
  datatype FastPath = FastPath(length: uint16, encryptionFlags: bv8)

  /** One reassembled inbound stream, as the codecs would read it. A header
      reader that fails yields `None`; `left` is the number of bytes that remain
      in the stream once the fast-path header has been read. */
  datatype Stream = Stream(
    tpkt: bool,
    rdpHeader: Option<uint16>,
    shareControl: Option<ShareControl>,
    shareData: Option<uint8>,
    fastPath: FastPath,
    left: nat)

  /** The verdict of an acceptor and the connection phase it leaves behind. */
  datatype Reply = Reply(ok: bool, next: ConnectionState)

  /** The answers of the foreign code reached while one stream is handled: the
      acceptor that runs (at most one does), the embedder's PostConnect and
      Activate callbacks, and the fast-path input decoder. */
  datatype Oracle = Oracle(acceptor: Reply, postConnect: bool, activate: bool, inputs: bool)
}
