/**
  The vocabulary the recorder shares with the Jirecon recording component:
  Java string references (which may be null), the Jirecon status and action
  enumerations, the IQ types of section 8.2.3 of RFC 6120, the outbound
  commands the recorder builds and the inbound IQs it reads.
 */
module JireconProtocol {

  /** A Java `String` reference: either null or a sequence of characters. */
  datatype JString = Null | Str(chars: string)

  /** `StringUtils.isNullOrEmpty`, which trims the string before testing
      its length: Java's `trim` strips every leading and trailing character
      up to U+0020, so the trimmed string is empty exactly when every
      character is at most U+0020. */
  predicate IsNullOrEmpty(s: JString)
  {
    s.Null? || forall i :: 0 <= i < |s.chars| ==> s.chars[i] <= ' '
  }

  /** `receiver.equals(arg)` for a non-null `receiver`: a null argument is
      never equal, otherwise the characters are compared. */
  function JavaEquals(receiver: JString, arg: JString): (r: bool)
    requires receiver.Str?
    ensures r <==> receiver == arg
  {
    arg.Str? && arg.chars == receiver.chars
  }

  /** Recording status reported by Jirecon; a recorder starts in `Undefined`. */
  datatype Status = Undefined | Initiating | Started | Stopping | Stopped

  /** The action a Jirecon IQ carries; `UnspecifiedAction` stands for an IQ
      that carries none of the three. */
  datatype Action = Start | Stop | Info | UnspecifiedAction

  /** The `type` attribute of an IQ stanza (section 8.2.3 of RFC 6120). */
  datatype IqType = Get | Set | Result | Error

  /** The recording state a caller asks for. */
  datatype RecordingState = On | Off

  /** An outbound Jirecon command: the fields the recorder sets on it before
      handing it to the XMPP connection; a field it does not set is `Null`. */
  datatype Command = Command(
    to: JString,
    iqType: IqType,
    from: JString,
    mucJid: JString,
    action: Action,
    rid: JString,
    output: JString)

  /** The fields of an inbound Jirecon IQ that the recorder reads. */
  datatype InboundIq = InboundIq(action: Action, iqType: IqType, rid: JString, status: Status)

  /** A packet delivered by the XMPP connection: a Jirecon IQ, or anything
      else (another IQ, a message, or no packet at all). */
  datatype Packet = JireconPacket(iq: InboundIq) | OtherPacket

  /** What a blocking send-and-wait-for-reply yields: the connection failed,
      or some reply (possibly not a Jirecon IQ) came back. */
  datatype ReplyOutcome = TransportFailure | Replied(reply: Packet)
}
