/**
 * The realtime protocol vocabulary of a live session (src/lib/realtime/events.ts):
 * the event identifiers, the payload records and the channel-name encoder and decoder.
 */
module SessionEvents {
  import opened Wrappers

  // ---------------------------------------------------------------------------
  // Event identifiers (the SESSION_EVENTS record)
  // ---------------------------------------------------------------------------

  /** One constructor per key of SESSION_EVENTS. */
  datatype EventKind =
    | State | Play | Pause | Seek | Volume | End
    | ParticipantJoined | ParticipantLeft | ParticipantCount

  /** The six transport and state events, as opposed to the three presence events. */
  predicate IsSessionEvent(k: EventKind) {
    !(k.ParticipantJoined? || k.ParticipantLeft? || k.ParticipantCount?)
  }

  predicate StartsWith(s: string, prefix: string) {
    |prefix| <= |s| && s[..|prefix|] == prefix
  }

  /** The wire identifier of an event kind. */
  function EventName(k: EventKind): (name: string)
    ensures IsSessionEvent(k) ==> StartsWith(name, "session:")
    ensures !IsSessionEvent(k) ==> StartsWith(name, "participant:")
  {
    match k
    case State => "session:state"
    case Play => "session:play"
    case Pause => "session:pause"
    case Seek => "session:seek"
    case Volume => "session:volume"
    case End => "session:end"
    case ParticipantJoined => "participant:joined"
    case ParticipantLeft => "participant:left"
    case ParticipantCount => "participant:count"
  }

  /** No two event kinds share an identifier, so a receiver can tell every event apart. */
  lemma EventNamesDistinct(a: EventKind, b: EventKind)
    ensures EventName(a) == EventName(b) ==> a == b
  {
  }

  // ---------------------------------------------------------------------------
  // Payloads
  // ---------------------------------------------------------------------------

  datatype SessionStatus = Live | Paused | Ended

  /** Full session state, sent to newcomers; times in seconds, timestamp in epoch milliseconds. */
  datatype SessionState = SessionState(
    sessionId: string,
    status: SessionStatus,
    isPlaying: bool,
    currentTime: real,
    volume: real,
    mediaUrl: Option<string>,
    coachId: string,
    timestamp: int)

  datatype PlayEvent = PlayEvent(sessionId: string, currentTime: real, timestamp: int)
  datatype PauseEvent = PauseEvent(sessionId: string, currentTime: real, timestamp: int)
  datatype SeekEvent = SeekEvent(sessionId: string, currentTime: real, timestamp: int)
  datatype VolumeEvent = VolumeEvent(sessionId: string, volume: real)
  datatype ParticipantEvent = ParticipantEvent(sessionId: string, userId: string, userName: string, count: real)

  // ---------------------------------------------------------------------------
  // Channel names
  // ---------------------------------------------------------------------------

  const ChannelPrefix: string := "presence-session-"

  /** The characters that the regular-expression `.` does not match. */
  predicate IsLineTerminator(c: char) {
    c == '\n' || c == '\r' || c == '\U{2028}' || c == '\U{2029}'
  }

  /** What the capture group `(.+)` accepts when it must reach the end of the input. */
  predicate CapturableId(s: string) {
    |s| > 0 && forall i :: 0 <= i < |s| ==> !IsLineTerminator(s[i])
  }

  /** The channel that carries a session: the fixed prefix followed by the session id. */
  function ChannelName(sessionId: string): (channel: string)
    ensures StartsWith(channel, ChannelPrefix)
    ensures channel[|ChannelPrefix|..] == sessionId
  {
    ChannelPrefix + sessionId
  }

  /**
   * The session id carried by a channel name, by the anchored match `^presence-session-(.+)$`:
   * without the multiline flag `^` and `$` only match at the ends of the input, so the match
   * succeeds exactly when the name starts with the prefix and the rest is a non-empty run
   * of characters that `.` matches; the capture is that rest.
   */
  function SessionIdFromChannel(channel: string): (id: Option<string>)
    ensures !StartsWith(channel, ChannelPrefix) ==> id.None?
    ensures id.Some? ==> ChannelName(id.value) == channel
    ensures id.Some? ==> CapturableId(id.value)
  {
    if StartsWith(channel, ChannelPrefix) && CapturableId(channel[|ChannelPrefix|..]) then
      Some(channel[|ChannelPrefix|..])
    else
      None
  }

  /** Decoding an encoded name gives back the id exactly when the id is capturable. */
  lemma ChannelRoundTrip(sessionId: string)
    ensures CapturableId(sessionId) ==> SessionIdFromChannel(ChannelName(sessionId)) == Some(sessionId)
    ensures !CapturableId(sessionId) ==> SessionIdFromChannel(ChannelName(sessionId)) == None
  {
  }

  /** The decoder is the exact inverse of the encoder on capturable ids, in both directions. */
  lemma ChannelDecodeCharacterised(channel: string, sessionId: string)
    ensures SessionIdFromChannel(channel) == Some(sessionId)
        <==> channel == ChannelName(sessionId) && CapturableId(sessionId)
  {
  }

  /** A session id never comes out of a name with nothing after the prefix. */
  lemma BarePrefixHasNoSession()
    ensures SessionIdFromChannel(ChannelPrefix) == None
  {
  }

  /** Concrete cases: an ordinary id round-trips; a foreign name and a multi-line id do not. */
  lemma ChannelExamples()
    ensures SessionIdFromChannel(ChannelName("abc123")) == Some("abc123")
    ensures SessionIdFromChannel("not-a-channel") == None
    ensures SessionIdFromChannel(ChannelName("a\nb")) == None
  {
    ChannelRoundTrip("abc123");
    assert ChannelName("a\nb")[|ChannelPrefix| + 1] == '\n';
  }
}
