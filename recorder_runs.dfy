/**
  Runs of the recorder: any interleaving of `setRecording` calls and
  delivered Jirecon IQs, and what holds of the session along every run.
 */
module RecorderRuns {
  import opened JireconProtocol
  import opened RecorderSpec

  /** One thing that happens to a recorder: a caller's `setRecording`
      (with the reply the connection yields), or an accepted Jirecon IQ. */
  datatype Event = Call(req: Request, reply: ReplyOutcome) | Deliver(iq: InboundIq)

  function Step(cfg: Config, s: Session, e: Event): (t: Session)
  {
    match e
    case Call(req, reply) => StepSetRecording(cfg, s, req, reply).session
    case Deliver(iq) => StepProcessPacket(s, iq)
  }

  /** The session after the events `evs`, in order. */
  function Run(cfg: Config, s: Session, evs: seq<Event>): (t: Session)
    decreases |evs|
  {
    if evs == [] then s else Run(cfg, Step(cfg, s, evs[0]), evs[1..])
  }

  /** Any run from a session that satisfies the invariant (a started
      session has an id, a stopped one has none) ends in one that does. */
  lemma {:induction false} RunPreservesInvariant(cfg: Config, s: Session, evs: seq<Event>)
    requires SessionInvariant(s)
    ensures SessionInvariant(Run(cfg, s, evs))
    decreases |evs|
  {
    if evs != [] {
      match evs[0] {
        case Call(req, reply) => SetRecordingPreservesInvariant(cfg, s, req, reply);
        case Deliver(iq) => ProcessPacketPreservesInvariant(s, iq);
      }
      RunPreservesInvariant(cfg, Step(cfg, s, evs[0]), evs[1..]);
    }
  }

  /** In particular every session reachable from a new recorder keeps it. */
  lemma ReachableInvariant(cfg: Config, evs: seq<Event>)
    ensures SessionInvariant(Run(cfg, InitialSession, evs))
  {
    InitialSessionInvariant();
    RunPreservesInvariant(cfg, InitialSession, evs);
  }

  /** Once the tracked id is cleared (or was never set), no sequence of
      inbound IQs changes the session: only a new START can. */
  lemma {:induction false} ClearedSessionIgnoresReports(cfg: Config, s: Session, evs: seq<Event>)
    requires IsNullOrEmpty(s.recordingId)
    requires forall i :: 0 <= i < |evs| ==> evs[i].Deliver?
    ensures Run(cfg, s, evs) == s
    decreases |evs|
  {
    if evs != [] {
      assert Step(cfg, s, evs[0]) == s;
      ClearedSessionIgnoresReports(cfg, s, evs[1..]);
    }
  }

  /** After an accepted STOPPED report, the recorder is not recording and
      stays so whatever IQs follow. */
  lemma StoppedReportEndsSession(cfg: Config, s: Session, iq: InboundIq, later: seq<Event>)
    requires Correlated(s, iq) && iq.status == Stopped && s.status != Stopped
    requires forall i :: 0 <= i < |later| ==> later[i].Deliver?
    ensures Run(cfg, s, [Deliver(iq)] + later) == Session(Stopped, Null)
    ensures !IsRecording(Run(cfg, s, [Deliver(iq)] + later).status)
  {
    var t := StepProcessPacket(s, iq);
    assert ([Deliver(iq)] + later)[1..] == later;
    ClearedSessionIgnoresReports(cfg, t, later);
  }

  /** A report whose id is not the tracked one never changes the session,
      however often it is repeated. */
  lemma {:induction false} ForeignReportsIgnored(cfg: Config, s: Session, evs: seq<Event>)
    requires forall i :: 0 <= i < |evs| ==> evs[i].Deliver? && evs[i].iq.rid != s.recordingId
    ensures Run(cfg, s, evs) == s
    decreases |evs|
  {
    if evs != [] {
      assert Step(cfg, s, evs[0]) == s;
      ForeignReportsIgnored(cfg, s, evs[1..]);
    }
  }

  /** A full session: start without a configured token, the component
      acknowledges with id "abc", reports STARTED, a report for "xyz" is
      ignored, the caller stops, and the component reports STOPPED. */
  lemma Lifecycle(cfg: Config, from: JString, path: JString)
    requires IsNullOrEmpty(cfg.token)
    ensures var abc := Str("abc");
            var on := Request(from, Null, On, path);
            var off := Request(from, Null, Off, path);
            var a := StepSetRecording(cfg, InitialSession, on, Replied(JireconPacket(InboundIq(Info, Result, abc, Initiating))));
            var b := StepProcessPacket(a.session, InboundIq(Info, Set, abc, Started));
            var c := StepProcessPacket(b, InboundIq(Info, Set, Str("xyz"), Started));
            var d := StepSetRecording(cfg, c, off, TransportFailure);
            var e := StepProcessPacket(d.session, InboundIq(Info, Set, abc, Stopped));
            a.ok && a.session == Session(Initiating, abc) && IsRecording(a.session.status) &&
            b == Session(Started, abc) &&
            c == b &&
            d.ok && d.sent == [StopCommand(cfg, off, abc)] && d.session == Session(Stopping, abc) &&
            e == Session(Stopped, Null) && !IsRecording(e.status)
  {
    assert !IsNullOrEmpty(Str("abc")) by { assert "abc"[0] == 'a'; }
  }

  /** A live session need not have an id: an `INITIATING` acknowledgement
      without a rid is adopted as it is. */
  lemma AcknowledgementWithoutId(cfg: Config, from: JString, path: JString)
    requires IsNullOrEmpty(cfg.token)
    ensures var a := StepSetRecording(cfg, InitialSession, Request(from, Null, On, path),
                                      Replied(JireconPacket(InboundIq(Info, Result, Null, Initiating))));
            a.ok && IsRecording(a.session.status) && a.session.recordingId == Null
  {
  }

  /** A session that is no longer live may keep its id: an `UNDEFINED`
      report for the tracked session is applied without clearing it. */
  lemma UndefinedReportKeepsId(s: Session, iq: InboundIq)
    requires Correlated(s, iq) && iq.status == Undefined && s.status != Undefined
    ensures StepProcessPacket(s, iq) == Session(Undefined, s.recordingId)
    ensures !IsNullOrEmpty(s.recordingId) && !IsRecording(Undefined)
  {
  }
}
