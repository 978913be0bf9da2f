/** The observable result of handing one inbound stream to the server peer:
    the boolean it returns, the peer state it leaves and the events it causes,
    with the properties every receive handler keeps. */
module PeerTrace {
  import opened RdpTypes

  /** The part of the peer that the receive path reads or changes: the
      connection phase, `settings->pdu_source`, and whether the embedder's
      PostConnect and Activate callbacks are installed (non-NULL). */
  datatype Session = Session(state: ConnectionState, pduSource: uint16, hasPostConnect: bool, hasActivate: bool)

  /** The result of handling one stream. */
  datatype Outcome = Outcome(ok: bool, after: Session, trace: seq<Event>)

  /** The share-data types the engine acts on; every other type is ignored. */
  const ActedOnDataTypes: set<uint8> :=
    {DATA_PDU_TYPE_SYNCHRONIZE, DATA_PDU_TYPE_CONTROL, DATA_PDU_TYPE_FONT_LIST, DATA_PDU_TYPE_SHUTDOWN_REQUEST}

  function PostConnectCalls(trace: seq<Event>): nat {
    multiset(trace)[PostConnectHook(true)] + multiset(trace)[PostConnectHook(false)]
  }

  function ActivateCalls(trace: seq<Event>): nat {
    multiset(trace)[ActivateHook(true)] + multiset(trace)[ActivateHook(false)]
  }

  /** Failure semantics: the result is false exactly when a terminal event
      (a failed reader, acceptor or callback, the shutdown ultimatum or a
      rejection by the engine) happened, and such an event is always the last
      one. */
  predicate FailsLast(r: Outcome) {
    (forall i | 0 <= i < |r.trace| && r.trace[i].Terminal() :: i == |r.trace| - 1) &&
    (r.ok <==> forall e | e in r.trace :: !e.Terminal())
  }

  function FontListAcceptances(trace: seq<Event>): nat {
    multiset(trace)[Accept(AcceptClientFontList, true)]
  }

  /** Every callback call is preceded by an accepted font list. */
  predicate CallbacksAfterFontList(t: seq<Event>) {
    forall i | 0 <= i < |t| && t[i].IsCallback() ::
      exists j | 0 <= j < i :: t[j] == Accept(AcceptClientFontList, true)
  }

  /** Every PostConnect call comes before every Activate call. */
  predicate PostConnectBeforeActivate(t: seq<Event>) {
    forall i, j | 0 <= i < |t| && 0 <= j < |t| && t[i].PostConnectHook? && t[j].ActivateHook? :: i < j
  }

  /** The embedder callbacks run as promised during one delivery: each only
      after an accepted font list, and PostConnect before Activate;
      PostConnect only while installed, at most once, and a successful call
      uninstalls it; Activate only while installed, never after a failed
      PostConnect nor before PostConnect has succeeded, and, while installed,
      once per accepted font list except the one whose PostConnect failed. */
  predicate HooksObeyed(ss: Session, r: Outcome) {
    CallbacksAfterFontList(r.trace) && PostConnectBeforeActivate(r.trace) &&
    PostConnectCalls(r.trace) <= (if ss.hasPostConnect then 1 else 0) &&
    (r.after.hasPostConnect <==> ss.hasPostConnect && PostConnectHook(true) !in r.trace) &&
    ActivateCalls(r.trace) <= (if ss.hasActivate then 1 else 0) &&
    (ActivateCalls(r.trace) > 0 ==> PostConnectHook(false) !in r.trace) &&
    (ActivateCalls(r.trace) > 0 && ss.hasPostConnect ==> PostConnectHook(true) in r.trace) &&
    (ss.hasActivate ==>
      ActivateCalls(r.trace) + (if PostConnectHook(false) in r.trace then 1 else 0) == FontListAcceptances(r.trace)) &&
    r.after.hasActivate == ss.hasActivate
  }

  /** Appending keeps every callback behind an accepted font list. */
  lemma {:induction false} CallbacksAfterFontListAppend(a: seq<Event>, b: seq<Event>)
    requires CallbacksAfterFontList(a) && CallbacksAfterFontList(b)
    ensures CallbacksAfterFontList(a + b)
  {
    var t := a + b;
    forall i | 0 <= i < |t| && t[i].IsCallback()
      ensures exists j | 0 <= j < i :: t[j] == Accept(AcceptClientFontList, true)
    {
      if i < |a| {
        assert t[i] == a[i];
        var j :| 0 <= j < i && a[j] == Accept(AcceptClientFontList, true);
        assert t[j] == a[j];
      } else {
        assert t[i] == b[i - |a|];
        var j :| 0 <= j < i - |a| && b[j] == Accept(AcceptClientFontList, true);
        assert t[j + |a|] == b[j];
      }
    }
  }

  /** Appending keeps PostConnect before Activate, provided no Activate call
      of the first part precedes a PostConnect call of the second. */
  lemma {:induction false} PostConnectBeforeActivateAppend(a: seq<Event>, b: seq<Event>)
    requires PostConnectBeforeActivate(a) && PostConnectBeforeActivate(b)
    requires (forall e | e in a :: !e.ActivateHook?) || (forall e | e in b :: !e.PostConnectHook?)
    ensures PostConnectBeforeActivate(a + b)
  {
    var t := a + b;
    assert forall k | 0 <= k < |a| :: t[k] == a[k] && a[k] in a;
    assert forall k | |a| <= k < |t| :: t[k] == b[k - |a|] && b[k - |a|] in b;
  }

  /** The engine leaves the phase alone or takes the one the acceptor left,
      and changes `pdu_source` only by reading a share-control header. */
  predicate StateFrame(ss: Session, o: Oracle, r: Outcome) {
    (r.after.state == ss.state || r.after.state == o.acceptor.next) &&
    (r.after.pduSource == ss.pduSource || Read(ShareControlHeader, true) in r.trace)
  }

  /** The engine never installs a callback and never uninstalls Activate;
      it may only uninstall PostConnect. */
  predicate KeepsCallbacks(ss: Session, after: Session) {
    after.hasActivate == ss.hasActivate && (after.hasPostConnect ==> ss.hasPostConnect)
  }

  /** Events that belong to the fast-path framing. */
  predicate OnFastPath(e: Event) {
    e == Read(FastPathHeader, true) || e.Decrypt? || e.FastPathInputs? || e == Reject(BadFastPathLength)
  }

  /** Events that happen before a handler and neither fail nor involve an
      acceptor or a callback (header reads that succeeded). */
  predicate Neutral(pre: seq<Event>) {
    forall e | e in pre :: !e.Terminal() && !e.Accept? && !e.PostConnectHook? && !e.ActivateHook?
  }

  /** Outcome `r` preceded by the events `pre`. */
  function Then(pre: seq<Event>, r: Outcome): Outcome {
    r.(trace := pre + r.trace)
  }

  lemma {:induction false} ThenKeepsFailsLast(pre: seq<Event>, r: Outcome)
    requires forall e | e in pre :: !e.Terminal()
    requires FailsLast(r)
    ensures FailsLast(Then(pre, r))
  {
    var t := pre + r.trace;
    assert forall i | 0 <= i < |pre| :: t[i] == pre[i] && t[i] in pre;
    assert forall i | |pre| <= i < |t| :: t[i] == r.trace[i - |pre|];
  }

  lemma {:induction false} ThenKeepsContracts(pre: seq<Event>, ss: Session, o: Oracle, r: Outcome)
    requires Neutral(pre)
    requires FailsLast(r) && HooksObeyed(ss, r) && StateFrame(ss, o, r)
    ensures FailsLast(Then(pre, r)) && HooksObeyed(ss, Then(pre, r)) && StateFrame(ss, o, Then(pre, r))
  {
    ThenKeepsFailsLast(pre, r);
    var t := pre + r.trace;
    assert multiset(t) == multiset(pre) + multiset(r.trace);
    assert PostConnectHook(true) !in pre && PostConnectHook(false) !in pre;
    assert ActivateHook(true) !in pre && ActivateHook(false) !in pre;
    assert PostConnectCalls(t) == PostConnectCalls(r.trace);
    assert ActivateCalls(t) == ActivateCalls(r.trace);
    assert CallbacksAfterFontList(pre);
    CallbacksAfterFontListAppend(pre, r.trace);
    assert PostConnectBeforeActivate(pre);
    PostConnectBeforeActivateAppend(pre, r.trace);
  }

  /** A delivery that reaches no callback and no font-list acceptance leaves the
      callbacks alone. */
  lemma HooklessContracts(ss: Session, r: Outcome)
    requires forall e | e in r.trace :: !e.PostConnectHook? && !e.ActivateHook? && e != Accept(AcceptClientFontList, true)
    requires r.after.hasPostConnect == ss.hasPostConnect && r.after.hasActivate == ss.hasActivate
    ensures HooksObeyed(ss, r)
  {
    assert PostConnectHook(true) !in r.trace && PostConnectHook(false) !in r.trace;
    assert ActivateHook(true) !in r.trace && ActivateHook(false) !in r.trace;
    assert Accept(AcceptClientFontList, true) !in r.trace;
  }

  /** What every delivery keeps: the failure semantics, the callback
      discipline and the frame. */
  predicate Obeys(ss: Session, o: Oracle, r: Outcome) {
    FailsLast(r) && HooksObeyed(ss, r) && StateFrame(ss, o, r)
  }

  /** Events of the TPKT path and of the share-data handler: neither a
      handshake acceptor nor anything of the fast-path framing. */
  predicate NoHandshakeNorFastPath(r: Outcome) {
    forall e | e in r.trace :: !e.IsHandshake() && !OnFastPath(e)
  }
}
