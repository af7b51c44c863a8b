/**
  The recording-session state machine of `JireconRecorder` as functions on
  values: the recorder's two mutable fields form a `Session`, and each entry
  point is a function from the old session (and its inputs) to what the
  entry point returns, the new session and the commands it sends.
 */
module RecorderSpec {
  import opened JireconProtocol

  /** The two fields `status` and `recordingId`. */
  datatype Session = Session(status: Status, recordingId: JString)

  /** A freshly constructed recorder. */
  const InitialSession := Session(Undefined, Null)

  /** Values fixed when the recorder is constructed: the recorder component's
      address, the focus's room JID and the configured token. */
  datatype Config = Config(recorderComponentJid: JString, mucRoomJid: JString, token: JString)

  /** The arguments of one `setRecording` call. */
  datatype Request = Request(from: JString, token: JString, doRecord: RecordingState, path: JString)

  /** What `setRecording` returns, the session afterwards and the commands sent. */
  datatype SetOutcome = SetOutcome(ok: bool, session: Session, sent: seq<Command>)

  /** `isRecording`: a session that is initiating or started. */
  predicate IsRecording(status: Status)
    ensures IsRecording(status) <==> status != Undefined && status != Stopping && status != Stopped
  {
    status == Initiating || status == Started
  }

  /** The token check: an absent or empty configured token admits everyone,
      otherwise the presented token must equal it. */
  predicate Authorized(configured: JString, presented: JString)
  {
    IsNullOrEmpty(configured) || JavaEquals(configured, presented)
  }

  /** The request asks to start while no session is live. */
  predicate StartsSession(s: Session, req: Request)
  {
    !IsRecording(s.status) && req.doRecord == On
  }

  /** The request asks to stop a live session. */
  predicate StopsSession(s: Session, req: Request)
  {
    IsRecording(s.status) && req.doRecord == Off
  }

  /** The START command sent to the recorder component. */
  function StartCommand(cfg: Config, req: Request): (cmd: Command)
  {
    Command(to := cfg.recorderComponentJid, iqType := Set, from := req.from,
            mucJid := cfg.mucRoomJid, action := Start, rid := Null, output := req.path)
  }

  /** The STOP command for session `rid`. */
  function StopCommand(cfg: Config, req: Request, rid: JString): (cmd: Command)
  {
    Command(to := cfg.recorderComponentJid, iqType := Set, from := req.from,
            mucJid := cfg.mucRoomJid, action := Stop, rid := rid, output := Null)
  }

  /** The reply to a START is a Jirecon IQ announcing `Initiating`. */
  predicate AcknowledgesStart(reply: ReplyOutcome)
  {
    reply.Replied? && reply.reply.JireconPacket? && reply.reply.iq.status == Initiating
  }

  /** A command is addressed to the recorder component, on behalf of the
      requester, for the focus's room, as an IQ of type `set`. */
  predicate Addressed(cmd: Command, cfg: Config, req: Request)
  {
    cmd.to == cfg.recorderComponentJid && cmd.iqType == Set &&
    cmd.from == req.from && cmd.mucJid == cfg.mucRoomJid
  }

  /** `setRecording(from, token, doRecord, path)` on session `s`, where
      `reply` is what the connection yields if a START is sent. */
  function StepSetRecording(cfg: Config, s: Session, req: Request, reply: ReplyOutcome): (r: SetOutcome)
    // a rejected token: false, nothing sent, nothing changed
    ensures !Authorized(cfg.token, req.token) ==> !r.ok && r.session == s && r.sent == []
    // false exactly on a rejected token or a failed START exchange
    ensures r.ok <==> Authorized(cfg.token, req.token) && !(StartsSession(s, req) && reply.TransportFailure?)
    // ON while recording, OFF while not recording: an idempotent no-op
    ensures Authorized(cfg.token, req.token) && !StartsSession(s, req) && !StopsSession(s, req) ==>
              r.ok && r.session == s && r.sent == []
    // ON while not recording: one START, and the session is adopted only on an INITIATING reply
    ensures Authorized(cfg.token, req.token) && StartsSession(s, req) ==>
              r.sent == [StartCommand(cfg, req)] &&
              r.session == (if AcknowledgesStart(reply) then Session(Initiating, reply.reply.iq.rid) else s)
    // OFF while recording: one STOP tagged with the tracked id, and STOPPING
    ensures Authorized(cfg.token, req.token) && StopsSession(s, req) ==>
              r.ok && r.sent == [StopCommand(cfg, req, s.recordingId)] &&
              r.session == Session(Stopping, s.recordingId)
    // at most one command, addressed to the recorder; START only when no session is live
    ensures |r.sent| <= 1
    ensures forall cmd :: cmd in r.sent ==> Addressed(cmd, cfg, req)
    ensures forall cmd :: cmd in r.sent && cmd.action == Start ==> !IsRecording(s.status)
    ensures forall cmd :: cmd in r.sent && cmd.action == Stop ==> cmd.rid == s.recordingId
    // the id changes only by adopting a START acknowledgement
    ensures r.session.recordingId != s.recordingId ==> r.session.status == Initiating && AcknowledgesStart(reply)
    // the status only ever moves to INITIATING or STOPPING here
    ensures r.session.status in {s.status, Initiating, Stopping}
  {
    if !Authorized(cfg.token, req.token) then
      SetOutcome(false, s, [])
    else if StartsSession(s, req) then
      var cmd := StartCommand(cfg, req);
      match reply
      case TransportFailure => SetOutcome(false, s, [cmd])
      case Replied(p) =>
        if p.JireconPacket? && p.iq.status == Initiating then
          SetOutcome(true, Session(Initiating, p.iq.rid), [cmd])
        else
          SetOutcome(true, s, [cmd])
    else if StopsSession(s, req) then
      SetOutcome(true, Session(Stopping, s.recordingId), [StopCommand(cfg, req, s.recordingId)])
    else
      SetOutcome(true, s, [])
  }

  /** The first filter of `processPacket`: a non-INFO result, or an IQ
      without a session id (`&&` binds tighter than `||`). */
  predicate Discarded(iq: InboundIq)
  {
    (iq.action != Info && iq.iqType == Result) || IsNullOrEmpty(iq.rid)
  }

  /** An IQ that gets past both filters: it names the tracked session. */
  predicate Correlated(s: Session, iq: InboundIq)
  {
    !Discarded(iq) && iq.rid == s.recordingId
  }

  /** `processPacket` applied to an accepted Jirecon IQ. */
  function StepProcessPacket(s: Session, iq: InboundIq): (r: Session)
    // dropped when filtered out, when the session is foreign, or when nothing changes
    ensures Discarded(iq) ==> r == s
    ensures iq.rid != s.recordingId ==> r == s
    ensures IsNullOrEmpty(s.recordingId) ==> r == s
    ensures iq.status == s.status ==> r == s
    ensures r != s <==> Correlated(s, iq) && iq.status != s.status
    // an applied report: the reported status, and the id cleared exactly on STOPPED
    ensures r != s ==> r.status == iq.status
    ensures r != s ==> (r.recordingId.Null? <==> iq.status == Stopped)
    ensures r != s && iq.status != Stopped ==> r.recordingId == s.recordingId
    ensures r != s && iq.status == Stopped ==> r == Session(Stopped, Null)
  {
    if Discarded(iq) then
      s
    else if !JavaEquals(iq.rid, s.recordingId) then
      s
    else if s.status != iq.status then
      Session(iq.status, if iq.status == Stopped then Null else s.recordingId)
    else
      s
  }

  /** The invariant both entry points keep: a started session has an id
      (only a correlated report can start it), and a stopped session has none. */
  predicate SessionInvariant(s: Session)
  {
    (s.status == Started ==> !IsNullOrEmpty(s.recordingId)) &&
    (s.status == Stopped ==> s.recordingId.Null?)
  }

  lemma InitialSessionInvariant()
    ensures SessionInvariant(InitialSession) && !IsRecording(InitialSession.status)
  {
  }

  lemma SetRecordingPreservesInvariant(cfg: Config, s: Session, req: Request, reply: ReplyOutcome)
    requires SessionInvariant(s)
    ensures SessionInvariant(StepSetRecording(cfg, s, req, reply).session)
  {
  }

  lemma ProcessPacketPreservesInvariant(s: Session, iq: InboundIq)
    requires SessionInvariant(s)
    ensures SessionInvariant(StepProcessPacket(s, iq))
  {
  }

  /** Applying the same status report twice is the same as applying it once. */
  lemma ProcessPacketIdempotent(s: Session, iq: InboundIq)
    ensures StepProcessPacket(StepProcessPacket(s, iq), iq) == StepProcessPacket(s, iq)
  {
  }

  /** A configured token made only of blanks trims to empty, so it admits
      every caller, even one who presents no token at all. */
  lemma BlankTokenAdmitsEveryone(blank: string, presented: JString)
    requires forall i :: 0 <= i < |blank| ==> blank[i] <= ' '
    ensures Authorized(Str(blank), presented)
  {
  }

  /** An inbound IQ whose rid is only blanks is dropped by the first filter. */
  lemma BlankRidDiscarded(s: Session, blank: string, action: Action, iqType: IqType, status: Status)
    requires forall i :: 0 <= i < |blank| ==> blank[i] <= ' '
    ensures Discarded(InboundIq(action, iqType, Str(blank), status))
    ensures StepProcessPacket(s, InboundIq(action, iqType, Str(blank), status)) == s
  {
  }

  /** A stopped session is quiescent: no inbound IQ changes it. */
  lemma StoppedIgnoresReports(s: Session, iq: InboundIq)
    requires SessionInvariant(s) && s.status == Stopped
    ensures StepProcessPacket(s, iq) == s
  {
  }
}
