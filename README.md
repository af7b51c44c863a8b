# Jicofo `JireconRecorder`: the recording-session state machine

Jicofo, the Jitsi conference focus, controls media recording through
Jirecon, an external recorder component reached over XMPP. `JireconRecorder`
tracks one recording session per conference in two fields: `status`, which
holds the Jirecon status (`UNDEFINED`, `INITIATING`, `STARTED`, `STOPPING`,
`STOPPED`), and `recordingId`, the session id that Jirecon assigns. Callers
drive it through `setRecording`. That method checks a shared token, sends a
START IQ and waits for the acknowledgement, or sends a STOP IQ. Jirecon's
unsolicited status IQs arrive through `accept`/`processPacket`. They are
filtered, matched against the tracked session id, and applied.

The model has four modules:

- `JireconProtocol` (`jirecon_protocol.dfy`) holds the vocabulary. A Java
  string reference is `JString = Null | Str(chars)`, so null and empty
  strings stay distinct as they are in the source. `IsNullOrEmpty` follows
  libjitsi's `StringUtils.isNullOrEmpty`, which trims before testing the
  length, so a string of blanks counts as empty. The file also has the
  status, action and IQ-type enumerations (IQ types as in section 8.2.3 of
  RFC 6120), the outbound `Command`, the inbound `InboundIq`, the delivered
  `Packet`, and `ReplyOutcome`, which is what a blocking send-and-wait
  yields.
- `RecorderSpec` (`recorder_spec.dfy`) holds the state machine as functions
  on a `Session` value (`status`, `recordingId`). `StepSetRecording` returns
  the boolean result, the new session and the commands sent.
  `StepProcessPacket` returns the new session. Both carry the source's
  promises as postconditions. The file also states the invariant both keep:
  a started session has an id and a stopped session has none.
- `Recorder` (`jirecon_recorder.dfy`) holds the class `JireconRecorder`.
  Its mutable fields `status` and `recordingId` are assigned in place by
  `SetRecording` and `ProcessPacket`, and a ghost field `sent` logs every
  command handed to the connection. Each method's postcondition ties the
  new fields and the log to the `RecorderSpec` function of the old fields.
  The class's `IsRecording` states which values of `status` count as
  recording.
- `RecorderRuns` (`recorder_runs.dfy`) covers arbitrary interleavings of
  calls and delivered IQs. Over every run, the invariant holds, a cleared
  session ignores all reports, and a foreign session's reports are never
  applied. It also proves a full start–report–stop lifecycle.

One might expect the session id to be present exactly while a session is
live (`INITIATING`, `STARTED`, `STOPPING`), but the code does not maintain
that. Two lemmas show it. In `RecorderRuns.AcknowledgementWithoutId`, a
START acknowledgement without an id yields a live session with a null id.
In `RecorderRuns.UndefinedReportKeepsId`, any tracked session that Jirecon
reports as `UNDEFINED` keeps its id. The code keeps two halves of that
expectation (`RecorderSpec.SessionInvariant`). A `STARTED` session always has
a non-blank id, because only a report that matched the tracked id can start
it. A `STOPPED` session always has a null id.

## Model

| member | source | states |
|---|---|---|
| `JireconProtocol.JavaEquals` | src/main/java/org/jitsi/jicofo/recording/JireconRecorder.java:123-124 | `equals` on a non-null string is true exactly when the argument is the same non-null string, so a null presented token or a null tracked id never matches |
| `RecorderSpec.IsRecording` | src/main/java/org/jitsi/jicofo/recording/JireconRecorder.java:110-114 | recording exactly when the status is neither `UNDEFINED`, `STOPPING` nor `STOPPED` (that is, `INITIATING` or `STARTED`) |
| `Recorder.JireconRecorder.IsRecording` | src/main/java/org/jitsi/jicofo/recording/JireconRecorder.java:110-114 | the recorder's `isRecording()` is true exactly when its `status` field is `INITIATING` or `STARTED` |
| `RecorderSpec.StepSetRecording` | src/main/java/org/jitsi/jicofo/recording/JireconRecorder.java:120-193 | a rejected token (configured non-null, not blank, and different) gives false with nothing sent and nothing changed; the result is false exactly on a rejected token or a transport failure of the START exchange; ON while not recording sends one START and adopts `(INITIATING, reply rid)` only for a Jirecon reply saying `INITIATING`, otherwise leaves the session and still returns true; OFF while recording sends one STOP tagged with the tracked id, moves to `STOPPING`, keeps the id and returns true; ON while recording and OFF while not recording send nothing, change nothing and return true; at most one command, addressed to the recorder as a `set` IQ from the requester for the focus's room; START only when not recording; the id changes only by adopting an acknowledgement; the status only moves to `INITIATING` or `STOPPING` |
| `RecorderSpec.StepProcessPacket` | src/main/java/org/jitsi/jicofo/recording/JireconRecorder.java:212-247 | the session changes exactly when the IQ passes the filter `(action ≠ INFO ∧ type = RESULT) ∨ rid empty`, its rid equals the tracked id, and its status differs from the current one; a foreign rid, a cleared id or an equal status changes nothing; an applied report sets the reported status and clears the id exactly when that status is `STOPPED`, so an applied `STOPPED` report yields `(STOPPED, null)` |
| `RecorderSpec.InitialSessionInvariant` | src/main/java/org/jitsi/jicofo/recording/JireconRecorder.java:76-81 | a new recorder (`UNDEFINED`, null id) satisfies the session invariant (a started session has an id, a stopped one has none) and is not recording |
| `RecorderSpec.SetRecordingPreservesInvariant` | src/main/java/org/jitsi/jicofo/recording/JireconRecorder.java:153-190 | `setRecording` keeps the invariant: it never produces a `STARTED` session without an id or a `STOPPED` session with one |
| `RecorderSpec.ProcessPacketPreservesInvariant` | src/main/java/org/jitsi/jicofo/recording/JireconRecorder.java:231-242 | `processPacket` keeps the invariant: `STARTED` is adopted only from a report carrying the tracked non-blank id, and adopting `STOPPED` nulls the id |
| `RecorderSpec.ProcessPacketIdempotent` | src/main/java/org/jitsi/jicofo/recording/JireconRecorder.java:231-246 | applying the same status IQ twice is the same as applying it once |
| `RecorderSpec.BlankTokenAdmitsEveryone` | src/main/java/org/jitsi/jicofo/recording/JireconRecorder.java:123-127 | for every configured token whose characters are all at most U+0020 (including the empty string), the token trims to empty, so the check is skipped and every presented token, null included, is admitted |
| `RecorderSpec.BlankRidDiscarded` | src/main/java/org/jitsi/jicofo/recording/JireconRecorder.java:216-222 | for every rid whose characters are all at most U+0020, an inbound IQ carrying it is `Discarded` by the first filter and leaves the session unchanged, whatever its action, type and status |
| `RecorderSpec.StoppedIgnoresReports` | src/main/java/org/jitsi/jicofo/recording/JireconRecorder.java:224-241 | in a reachable `STOPPED` session no inbound IQ changes anything |
| `Recorder.JireconRecorder.constructor` | src/main/java/org/jitsi/jicofo/recording/JireconRecorder.java:91-104 | a new recorder holds the given component address, room JID and token, starts in `UNDEFINED` with a null id and has sent nothing |
| `Recorder.JireconRecorder.SetRecording` | src/main/java/org/jitsi/jicofo/recording/JireconRecorder.java:120-193 | the returned boolean, the new `status`/`recordingId` and the commands appended to the send log are those of `StepSetRecording` on the old fields; the invariant is kept |
| `Recorder.JireconRecorder.Accept` | src/main/java/org/jitsi/jicofo/recording/JireconRecorder.java:201-204 | accepts exactly the packets that are Jirecon IQs; `ProcessPacket` requires it, as the source's cast does |
| `Recorder.JireconRecorder.ProcessPacket` | src/main/java/org/jitsi/jicofo/recording/JireconRecorder.java:212-247 | the new `status`/`recordingId` are those of `StepProcessPacket` on the old fields, nothing is sent, and the invariant is kept |
| `RecorderRuns.RunPreservesInvariant` | src/main/java/org/jitsi/jicofo/recording/JireconRecorder.java:120-247 | any interleaving of `setRecording` calls and delivered IQs keeps "a `STARTED` session has an id and a `STOPPED` session has none" |
| `RecorderRuns.ReachableInvariant` | src/main/java/org/jitsi/jicofo/recording/JireconRecorder.java:76-247 | every session reachable from a new recorder satisfies the invariant |
| `RecorderRuns.ClearedSessionIgnoresReports` | src/main/java/org/jitsi/jicofo/recording/JireconRecorder.java:216-229 | once the id is null or blank, no sequence of inbound IQs changes the session |
| `RecorderRuns.StoppedReportEndsSession` | src/main/java/org/jitsi/jicofo/recording/JireconRecorder.java:237-241 | after an accepted `STOPPED` report the session is `(STOPPED, null)` and not recording, whatever IQs follow |
| `RecorderRuns.ForeignReportsIgnored` | src/main/java/org/jitsi/jicofo/recording/JireconRecorder.java:224-229 | IQs whose rid differs from the tracked id never change the session, however many arrive |
| `RecorderRuns.Lifecycle` | src/main/java/org/jitsi/jicofo/recording/JireconRecorder.java:120-247 | with no token configured: START acknowledged with id "abc" gives `(INITIATING, "abc")`; a `STARTED` report for "abc" gives `STARTED`; a report for "xyz" is ignored; OFF sends STOP with rid "abc" and gives `STOPPING`; a `STOPPED` report clears the id and ends recording |
| `RecorderRuns.AcknowledgementWithoutId` | src/main/java/org/jitsi/jicofo/recording/JireconRecorder.java:153-161 | an `INITIATING` acknowledgement with a null rid is adopted: `setRecording` returns true and the recorder is recording with no id |
| `RecorderRuns.UndefinedReportKeepsId` | src/main/java/org/jitsi/jicofo/recording/JireconRecorder.java:231-241 | for every session not already `UNDEFINED`, a report that passes both filters and says `UNDEFINED` yields `(UNDEFINED, id)` with the tracked non-blank id kept, so a session that is no longer recording still has an id |

## Left out

- Logging: the class logger and every `info`/`warn`/`error` call. They have no effect on state.
- Reading the token from the configuration service (`MEDIA_RECORDING_TOKEN_PNAME`) and obtaining the room JID from the conference. Both are constructor arguments of the model.
- The XMPP connection. `sendPacketAndGetReply` becomes the `reply: ReplyOutcome` argument: an `OperationFailedException` is `TransportFailure`, and a null or non-Jirecon reply is `Replied(OtherPacket)`. `sendPacket` becomes an append to the ghost `sent` log. A START is logged as handed to the connection even when the exchange then fails.
- Concurrency between `setRecording` and the connection's delivery thread, and any reply timeout. The source has no locking, so the model treats each call as atomic.
- IQ construction and XML serialisation (`toXML`, `IQUtils.responseToXML`). An outbound command keeps only the fields the recorder sets, and an inbound IQ keeps only action, type, rid and status.
- `StringUtils` is not part of this model. `IsNullOrEmpty` models libjitsi's one-argument `isNullOrEmpty` as "null, or empty after Java's `trim`".
- The `Recorder` base class and the `JireconIq` class are not part of this model. The model assumes that an inbound IQ's action and status are never null. It adds `UnspecifiedAction` for an IQ that carries none of START, STOP or INFO.
- The requested recording state is modelled as `On | Off`. Any further value of that enumeration is not part of this model.
- A null `doRecord` is not modelled. On it, `setRecording` throws a `NullPointerException` after the token check: at the `equals(State.ON)` test when not recording, and at the `equals(State.OFF)` test when recording.
