/**
  `JireconRecorder`: the recorder object whose `status` and `recordingId`
  fields are updated in place by `setRecording` and `processPacket`. The
  XMPP connection is replaced by a `reply` argument (what a blocking send
  yields) and a ghost log `sent` of every command handed to the connection.
 */
module Recorder {
  import opened JireconProtocol
  import opened RecorderSpec

  class JireconRecorder {
    /** Address of the Jirecon component. */
    const recorderComponentJid: JString
    /** The focus's room JID. */
    const mucRoomJid: JString
    /** The configured recording token; null or empty disables the check. */
    const token: JString

    var status: Status
    var recordingId: JString

    /** Every command handed to the XMPP connection, oldest first. */
    ghost var sent: seq<Command>

    ghost predicate Valid()
      reads this
    {
      SessionInvariant(State())
    }

    /** The abstract value of the mutable fields. */
    function State(): (s: Session)
      reads this
    {
      Session(status, recordingId)
    }

    function Cfg(): (cfg: Config)
    {
      Config(recorderComponentJid, mucRoomJid, token)
    }

    constructor (mucRoomJid: JString, recorderComponentJid: JString, token: JString)
      ensures Valid()
      ensures State() == InitialSession && sent == []
      ensures Cfg() == Config(recorderComponentJid, mucRoomJid, token)
    {
      this.recorderComponentJid := recorderComponentJid;
      this.mucRoomJid := mucRoomJid;
      this.token := token;
      status := Undefined;
      recordingId := Null;
      sent := [];
    }

    /** `isRecording`. */
    function IsRecording(): (r: bool)
      reads this
      ensures r <==> status == Initiating || status == Started
    {
      RecorderSpec.IsRecording(status)
    }

    /** `setRecording(from, token, doRecord, path)`; `reply` is what the
        connection yields if a START has to be sent. */
    method SetRecording(from: JString, presented: JString, doRecord: RecordingState, path: JString,
                        reply: ReplyOutcome) returns (ok: bool)
      requires Valid()
      modifies this
      ensures Valid()
      ensures var r := StepSetRecording(Cfg(), old(State()), Request(from, presented, doRecord, path), reply);
              ok == r.ok && State() == r.session && sent == old(sent) + r.sent
    {
      if !IsNullOrEmpty(token) && !JavaEquals(token, presented) {
        return false;
      }

      if !IsRecording() && doRecord == On {
        var recording := StartCommand(Cfg(), Request(from, presented, doRecord, path));
        sent := sent + [recording];
        if reply.TransportFailure? {
          return false;
        }
        var response := reply.reply;
        if response.JireconPacket? {
          if response.iq.status == Initiating {
            recordingId := response.iq.rid;
            status := Initiating;
          }
        }
      } else if IsRecording() && doRecord == Off {
        var recording := StopCommand(Cfg(), Request(from, presented, doRecord, path), recordingId);
        sent := sent + [recording];
        status := Stopping;
      }

      return true;
    }

    /** `accept`: the connection routes only Jirecon IQs to this recorder. */
    function Accept(packet: Packet): (r: bool)
      ensures r <==> exists iq :: packet == JireconPacket(iq)
    {
      packet.JireconPacket?
    }

    /** `processPacket` for a packet that `Accept` let through (the source
        casts it to a Jirecon IQ). */
    method ProcessPacket(packet: Packet)
      requires Valid() && Accept(packet)
      modifies this
      ensures Valid()
      ensures State() == StepProcessPacket(old(State()), packet.iq) && sent == old(sent)
    {
      var recording := packet.iq;

      if (recording.action != Info && recording.iqType == Result) || IsNullOrEmpty(recording.rid) {
        return;
      }

      if !JavaEquals(recording.rid, recordingId) {
        return;
      }

      if status != recording.status {
        status := recording.status;
        if status == Stopped {
          recordingId := Null;
        }
      }
    }
  }
}
