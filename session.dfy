/** The session entity of the recorder: its status enumeration, its record
    (`MeetingSession`) and the duration bookkeeping on it. Times are readings of an integer clock. */
module Domain {
  import opened Outcomes

  /** `SessionStatus`: a session is in exactly one of these six states. */
  datatype SessionStatus = Initializing | Joining | Recording | Stopping | Stopped | Error

  /** The string value of each status constant, as it appears in JSON. */
  function StatusName(s: SessionStatus): (name: string)
    ensures |name| > 0
  {
    match s
    case Initializing => "initializing"
    case Joining => "joining"
    case Recording => "recording"
    case Stopping => "stopping"
    case Stopped => "stopped"
    case Error => "error"
  }

  /** The six constants have six different string values. */
  lemma StatusNameInjective(a: SessionStatus, b: SessionStatus)
    requires StatusName(a) == StatusName(b)
    ensures a == b
  {
    assert StatusName(a)[0] == StatusName(b)[0];
    if StatusName(a)[0] == 's' {
      assert StatusName(a)[5] == StatusName(b)[5];
    }
  }

  /** Position along the normal lifecycle
      initializing, joining, recording, stopping, stopped. */
  function Stage(s: SessionStatus): nat
  {
    match s
    case Initializing => 0
    case Joining => 1
    case Recording => 2
    case Stopping => 3
    case Stopped => 4
    case Error => 5
  }

  /** A status change that keeps to the lifecycle: forwards along the normal
      path, or into `error`, which is never left. */
  predicate Advances(from: SessionStatus, to: SessionStatus)
  {
    to == Error || (from != Error && Stage(from) <= Stage(to))
  }

  /** `MeetingSession`. Optional timestamps are the source's nil-able
      `*time.Time`; `duration` is None where the formatted `Duration` string
      is empty, otherwise the length of the interval in clock ticks. */
  datatype MeetingSession = MeetingSession(
    id: string,
    meetingUrl: string,
    participantName: string,
    status: SessionStatus,
    startTime: Option<int>,
    endTime: Option<int>,
    filePath: string,
    duration: Option<int>,
    error: string)

  /** `CalculateDuration`: with both timestamps set, the duration becomes
      end minus start; with either one unset, nothing changes. No field but
      the duration is touched. */
  function CalculateDuration(s: MeetingSession): (r: MeetingSession)
    ensures r.(duration := s.duration) == s
    ensures s.startTime.Some? && s.endTime.Some? ==> r.duration == Some(s.endTime.value - s.startTime.value)
    ensures s.startTime.None? || s.endTime.None? ==> r == s
  {
    if s.startTime.Some? && s.endTime.Some? then
      s.(duration := Some(s.endTime.value - s.startTime.value))
    else
      s
  }

  /** Calculating the duration a second time changes nothing more. */
  lemma CalculateDurationIdempotent(s: MeetingSession)
    ensures CalculateDuration(CalculateDuration(s)) == CalculateDuration(s)
  {
  }
}
