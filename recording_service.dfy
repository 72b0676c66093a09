/** The recording orchestrator: the registry of sessions keyed by id and the
    state machine that `StartRecording`'s background goroutines, the stop
    handler and the status read drive. The registry holds each session's
    value; every write the source makes through a `*MeetingSession` is an
    update of the map entry. The collaborators (browser automator,
    media recorder) are represented by the results they return, passed in
    as parameters; `time.Now()` reads the service's integer `clock`. */
module Services {
  import opened Outcomes
  import opened Domain

  /** How far the detached goroutines started by `StartRecording` have come
      for one session. */
  datatype Task =
    | AwaitingJoin     // the join goroutine has not run yet
    | JoinInFlight     // status set to joining, `JoinMeeting` has not returned
    | StreamsInFlight  // join succeeded, the stream goroutine has not finished
    | Done             // no goroutine left for this session

  /** A call from the service into one of its collaborators. */
  datatype Call = GetMeetingStreams | RecorderStart | RecorderStop | StopMeeting

  /** The message of a collaborator error wrapped with `fmt.Sprintf(prefix + "%v", err)`. */
  function Wrap(prefix: string, err: Outcome): string
    requires err.Fail?
  {
    prefix + err.message
  }

  /** What holds of every stored session, given where its goroutines are
      and what the clock reads. */
  ghost predicate Consistent(v: MeetingSession, task: Task, clock: int)
  {
    // times are never in the future, and an end is never before its start
    && (v.startTime.Some? ==> v.startTime.value <= clock)
    && (v.endTime.Some? ==> v.startTime.Some? && v.startTime.value <= v.endTime.value <= clock)
    && (v.duration.Some? ==> v.duration.value >= 0)
    // an error message is present exactly in the error state
    && (v.status == Error <==> v.error != "")
    // before the join succeeds nothing but the status has been written
    && ((v.status == Initializing || v.status == Joining) ==>
          v.startTime.None? && v.endTime.None? && v.filePath == "" && v.duration.None?)
    && ((v.status == Recording || v.status == Stopping) ==> v.startTime.Some? && v.endTime.None?)
    && (v.status == Stopped ==>
          v.startTime.Some? && v.endTime.Some? &&
          v.duration == Some(v.endTime.value - v.startTime.value))
    // the goroutines run in program order
    && (v.status == Initializing <==> task == AwaitingJoin)
    && (v.status == Joining <==> task == JoinInFlight)
  }

  /** The entry under `k` is a session stored under its own id, with a
      goroutine position, and consistent with it. */
  ghost predicate EntryOk(snap: map<string, MeetingSession>, tasks: map<string, Task>, clock: int, k: string)
  {
    k in snap && k in tasks && snap[k].id == k && Consistent(snap[k], tasks[k], clock)
  }

  /** The invariant of the registry: one goroutine position per stored
      session, and every entry as `EntryOk` says. The quantifier is
      instantiated only where an entry is named (by `Entry` below), which
      keeps the reasoning about each operation local to the entry it
      touches. */
  ghost predicate Invariant(snap: map<string, MeetingSession>, tasks: map<string, Task>, clock: int)
  {
    && snap.Keys == tasks.Keys
    && forall k {:trigger EntryOk(snap, tasks, clock, k)} :: k in snap ==> EntryOk(snap, tasks, clock, k)
  }

  /** What the invariant says about one stored session. */
  lemma Entry(snap: map<string, MeetingSession>, tasks: map<string, Task>, clock: int, id: string)
    requires Invariant(snap, tasks, clock)
    requires id in snap
    ensures id in tasks && snap[id].id == id && Consistent(snap[id], tasks[id], clock)
  {
    assert EntryOk(snap, tasks, clock, id);
  }

  /** Replacing one entry, or adding one, by a consistent session keeps the
      invariant. */
  lemma InvariantUpdate(snap: map<string, MeetingSession>, tasks: map<string, Task>, clock: int,
                        id: string, v: MeetingSession, t: Task)
    requires Invariant(snap, tasks, clock)
    requires v.id == id && Consistent(v, t, clock)
    ensures Invariant(snap[id := v], tasks[id := t], clock)
  {
    var snap', tasks' := snap[id := v], tasks[id := t];
    forall k | k in snap'
      ensures EntryOk(snap', tasks', clock, k)
    {
      if k != id {
        assert EntryOk(snap, tasks, clock, k);
      }
    }
  }

  /** Putting a session into error keeps the invariant, provided none of
      its goroutines is still before or inside the join. */
  lemma FailKeeps(snap: map<string, MeetingSession>, tasks: map<string, Task>, clock: int,
                  id: string, msg: string, t: Task)
    requires Invariant(snap, tasks, clock)
    requires id in snap && msg != "" && t != AwaitingJoin && t != JoinInFlight
    ensures Invariant(snap[id := snap[id].(status := Error, error := msg)], tasks[id := t], clock)
  {
    Entry(snap, tasks, clock, id);
    InvariantUpdate(snap, tasks, clock, id, snap[id].(status := Error, error := msg), t);
  }

  /** A successful join, stamped with the current time, keeps the
      invariant. */
  lemma JoinKeeps(snap: map<string, MeetingSession>, tasks: map<string, Task>, clock: int, id: string)
    requires Invariant(snap, tasks, clock)
    requires id in tasks && tasks[id] == JoinInFlight
    ensures id in snap
    ensures Invariant(snap[id := snap[id].(status := Recording, startTime := Some(clock))],
                      tasks[id := StreamsInFlight], clock)
  {
    Entry(snap, tasks, clock, id);
    InvariantUpdate(snap, tasks, clock, id, snap[id].(status := Recording, startTime := Some(clock)),
                    StreamsInFlight);
  }

  /** Stopping a recording session now keeps the invariant: it has a start
      time, and the stopped value carries the file path, the end time and
      the duration from start to end. */
  lemma HaltKeeps(snap: map<string, MeetingSession>, tasks: map<string, Task>, clock: int,
                  id: string, path: string)
    requires Invariant(snap, tasks, clock)
    requires id in snap && snap[id].status == Recording
    ensures snap[id].startTime.Some?
    ensures Invariant(snap[id := snap[id].(status := Stopped, filePath := path, endTime := Some(clock),
                                           duration := Some(clock - snap[id].startTime.value))],
                      tasks, clock)
  {
    Entry(snap, tasks, clock, id);
    var v := snap[id].(status := Stopped, filePath := path, endTime := Some(clock),
                       duration := Some(clock - snap[id].startTime.value));
    InvariantUpdate(snap, tasks, clock, id, v, tasks[id]);
    assert tasks[id := tasks[id]] == tasks;
  }

  /** Refreshing the duration of a recording session keeps the invariant. */
  lemma RefreshKeeps(snap: map<string, MeetingSession>, tasks: map<string, Task>, clock: int, id: string)
    requires Invariant(snap, tasks, clock)
    requires id in snap && snap[id].status == Recording && snap[id].startTime.Some?
    ensures Invariant(snap[id := snap[id].(duration := Some(clock - snap[id].startTime.value))], tasks, clock)
  {
    Entry(snap, tasks, clock, id);
    InvariantUpdate(snap, tasks, clock, id, snap[id].(duration := Some(clock - snap[id].startTime.value)),
                    tasks[id]);
    assert tasks[id := tasks[id]] == tasks;
  }

  /** The invariant survives the clock moving forward. */
  lemma InvariantTick(snap: map<string, MeetingSession>, tasks: map<string, Task>, clock: int, later: int)
    requires Invariant(snap, tasks, clock)
    requires clock <= later
    ensures Invariant(snap, tasks, later)
  {
    forall k | k in snap
      ensures EntryOk(snap, tasks, later, k)
    {
      assert EntryOk(snap, tasks, clock, k);
    }
  }

  /** A stored stopped session has both timestamps, in order and not in
      the future, and the non-negative duration between them. */
  lemma StoppedSessionDuration(snap: map<string, MeetingSession>, tasks: map<string, Task>, clock: int, id: string)
    requires Invariant(snap, tasks, clock)
    requires id in snap && snap[id].status == Stopped
    ensures snap[id].startTime.Some? && snap[id].endTime.Some?
    ensures snap[id].startTime.value <= snap[id].endTime.value <= clock
    ensures snap[id].duration == Some(snap[id].endTime.value - snap[id].startTime.value)
    ensures snap[id].duration.value >= 0
  {
    Entry(snap, tasks, clock, id);
  }

  class RecordingService {
    var sessions: map<string, MeetingSession>
    var clock: int
    ghost var tasks: map<string, Task>

    ghost predicate Valid()
      reads this
    {
      Invariant(sessions, tasks, clock)
    }

    /** `NewRecordingService`: an empty registry. */
    constructor (now: int)
      ensures Valid()
      ensures sessions == map[] && tasks == map[] && clock == now
    {
      sessions := map[];
      tasks := map[];
      clock := now;
    }

    /** The passage of time between two operations. */
    method AdvanceClock(elapsed: nat)
      requires Valid()
      modifies this
      ensures Valid()
      ensures clock == old(clock) + elapsed
      ensures sessions == old(sessions) && tasks == old(tasks)
    {
      InvariantTick(sessions, tasks, clock, clock + elapsed);
      clock := clock + elapsed;
    }

    /** `updateStatus`: sets the status of a stored session; an unknown id
        leaves the registry as it is. */
    method UpdateStatus(id: string, status: SessionStatus)
      modifies this
      ensures id in old(sessions) ==> sessions == old(sessions)[id := old(sessions)[id].(status := status)]
      ensures id !in old(sessions) ==> sessions == old(sessions)
      ensures tasks == old(tasks) && clock == old(clock)
    {
      if id in sessions {
        sessions := sessions[id := sessions[id].(status := status)];
      }
    }

    /** `updateError`: puts a stored session into the error state with the
        given message; an unknown id leaves the registry as it is. */
    method UpdateError(id: string, msg: string)
      modifies this
      ensures id in old(sessions) ==>
                sessions == old(sessions)[id := old(sessions)[id].(status := Error, error := msg)]
      ensures id !in old(sessions) ==> sessions == old(sessions)
      ensures tasks == old(tasks) && clock == old(clock)
    {
      if id in sessions {
        sessions := sessions[id := sessions[id].(status := Error, error := msg)];
      }
    }

    /** `StartRecording`, synchronous part: a new session in the initializing
        state, without a start time, stored under the fresh id (the uuid the
        source draws). No other entry changes. The error result of the
        source is always nil and is not modelled. */
    method StartRecording(id: string, meetingUrl: string, participantName: string)
      returns (session: MeetingSession)
      requires Valid()
      requires id !in sessions
      modifies this
      ensures Valid()
      ensures session == MeetingSession(id, meetingUrl, participantName, Initializing, None, None, "", None, "")
      ensures sessions == old(sessions)[id := session]
      ensures tasks == old(tasks)[id := AwaitingJoin] && clock == old(clock)
    {
      session := MeetingSession(id, meetingUrl, participantName, Initializing, None, None, "", None, "");
      InvariantUpdate(sessions, tasks, clock, id, session, AwaitingJoin);
      sessions := sessions[id := session];
      tasks := tasks[id := AwaitingJoin];
    }

    /** The join goroutine, up to its call of `JoinMeeting`: the session
        becomes joining. */
    method BeginJoin(id: string)
      requires Valid()
      requires id in tasks && tasks[id] == AwaitingJoin
      modifies this
      ensures Valid()
      ensures sessions == old(sessions)[id := old(sessions)[id].(status := Joining)]
      ensures tasks == old(tasks)[id := JoinInFlight] && clock == old(clock)
      ensures Advances(old(sessions)[id].status, sessions[id].status)
    {
      Entry(sessions, tasks, clock, id);
      var v := sessions[id].(status := Joining);
      InvariantUpdate(sessions, tasks, clock, id, v, JoinInFlight);
      sessions, tasks := sessions[id := v], tasks[id := JoinInFlight];
    }

    /** The join goroutine after `JoinMeeting` returned `joined`. A failure
        puts the session into error with "Failed to join: ..." and ends the
        goroutine, the start time staying unset; a success makes it
        recording with the start time stamped now, and starts the stream
        goroutine. */
    method FinishJoin(id: string, joined: Outcome)
      requires Valid()
      requires id in tasks && tasks[id] == JoinInFlight
      modifies this
      ensures Valid()
      ensures clock == old(clock)
      ensures joined.Fail? ==>
                && tasks == old(tasks)[id := Done]
                && sessions == old(sessions)[id := old(sessions)[id].(status := Error,
                                                                     error := Wrap("Failed to join: ", joined))]
      ensures joined.Pass? ==>
                && tasks == old(tasks)[id := StreamsInFlight]
                && sessions == old(sessions)[id := old(sessions)[id].(status := Recording,
                                                                     startTime := Some(clock))]
      ensures Advances(old(sessions)[id].status, sessions[id].status)
    {
      Entry(sessions, tasks, clock, id);
      if joined.Fail? {
        FailKeeps(sessions, tasks, clock, id, Wrap("Failed to join: ", joined), Done);
        UpdateError(id, Wrap("Failed to join: ", joined));
        tasks := tasks[id := Done];
        return;
      }
      JoinKeeps(sessions, tasks, clock, id);
      UpdateStatus(id, Recording);
      sessions := sessions[id := sessions[id].(startTime := Some(clock))];
      tasks := tasks[id := StreamsInFlight];
      assert sessions == old(sessions)[id := old(sessions)[id].(status := Recording, startTime := Some(clock))];
    }

    /** The stream goroutine: `GetMeetingStreams` returned `streams` and, if
        that succeeded, the recorder's `Start` returned `recorderStart`. A
        failure of either puts the session into error whatever state it has
        reached meanwhile; nothing restores an earlier status. */
    method RunStreams(id: string, streams: Outcome, recorderStart: Outcome) returns (calls: seq<Call>)
      requires Valid()
      requires id in tasks && tasks[id] == StreamsInFlight
      modifies this
      ensures Valid()
      ensures tasks == old(tasks)[id := Done] && clock == old(clock)
      ensures streams.Fail? ==>
                && calls == [GetMeetingStreams]
                && sessions == old(sessions)[id := old(sessions)[id].(status := Error,
                                                                     error := Wrap("Failed to get streams: ", streams))]
      ensures streams.Pass? ==> calls == [GetMeetingStreams, RecorderStart]
      ensures streams.Pass? && recorderStart.Fail? ==>
                sessions == old(sessions)[id := old(sessions)[id].(status := Error,
                                                                  error := Wrap("Recorder failed: ", recorderStart))]
      ensures streams.Pass? && recorderStart.Pass? ==> sessions == old(sessions)
      ensures Advances(old(sessions)[id].status, sessions[id].status)
    {
      Entry(sessions, tasks, clock, id);
      if streams.Fail? {
        calls := [GetMeetingStreams];
        FailKeeps(sessions, tasks, clock, id, Wrap("Failed to get streams: ", streams), Done);
        UpdateError(id, Wrap("Failed to get streams: ", streams));
      } else {
        calls := [GetMeetingStreams, RecorderStart];
        if recorderStart.Fail? {
          FailKeeps(sessions, tasks, clock, id, Wrap("Recorder failed: ", recorderStart), Done);
          UpdateError(id, Wrap("Recorder failed: ", recorderStart));
        } else {
          InvariantUpdate(sessions, tasks, clock, id, sessions[id], Done);
          assert sessions[id := sessions[id]] == sessions;
        }
      }
      tasks := tasks[id := Done];
    }

    /** `StopRecording`. The recorder's `Stop` returns (`stopPath`,
        `stopErr`); the automator's `StopMeeting` returns `meetingStop`,
        which is ignored. An unknown id is an error. A session that is not
        recording is returned unchanged and no collaborator is called. A
        recorder failure leaves the session in error with "Failed to stop
        recorder: ...", skips the automator and the end time, and is
        returned. Otherwise the session ends stopped, with the recorder's
        path, the end time now and the duration from start to now. */
    method StopRecording(id: string, stopPath: string, stopErr: Outcome, meetingStop: Outcome)
      returns (session: Option<MeetingSession>, err: Outcome, calls: seq<Call>)
      requires Valid()
      modifies this
      ensures Valid()
      ensures tasks == old(tasks) && clock == old(clock)
      ensures id !in old(sessions) ==>
                session == None && err == Fail("session not found") && calls == [] && sessions == old(sessions)
      ensures id in old(sessions) ==> id in sessions && session == Some(sessions[id])
      ensures id in old(sessions) && old(sessions)[id].status != Recording ==>
                err == Pass && calls == [] && sessions == old(sessions)
      ensures id in old(sessions) && old(sessions)[id].status == Recording && stopErr.Fail? ==>
                && err == stopErr && calls == [RecorderStop]
                && sessions == old(sessions)[id := old(sessions)[id].(status := Error,
                                                                     error := Wrap("Failed to stop recorder: ", stopErr))]
      ensures id in old(sessions) && old(sessions)[id].status == Recording && stopErr.Pass? ==>
                && err == Pass && calls == [RecorderStop, StopMeeting]
                && old(sessions)[id].startTime.Some?
                && sessions == old(sessions)[id := old(sessions)[id].(
                                 status := Stopped, filePath := stopPath, endTime := Some(clock),
                                 duration := Some(clock - old(sessions)[id].startTime.value))]
      ensures id in old(sessions) ==> Advances(old(sessions)[id].status, sessions[id].status)
    {
      if id !in sessions {
        return None, Fail("session not found"), [];
      }
      if sessions[id].status != Recording {
        return Some(sessions[id]), Pass, [];
      }
      Entry(sessions, tasks, clock, id);
      // the stop is taken as one step: no other operation observes the
      // transient stopping status in between
      var v := sessions[id].(status := Stopping);
      if stopErr.Fail? {
        FailKeeps(sessions, tasks, clock, id, Wrap("Failed to stop recorder: ", stopErr), tasks[id]);
        assert tasks[id := tasks[id]] == tasks;
        v := v.(status := Error, error := Wrap("Failed to stop recorder: ", stopErr));
        sessions := sessions[id := v];
        return Some(v), stopErr, [RecorderStop];
      }
      HaltKeeps(sessions, tasks, clock, id, stopPath);
      v := v.(filePath := stopPath);
      calls := [RecorderStop, StopMeeting];
      v := v.(endTime := Some(clock));
      v := CalculateDuration(v);
      v := v.(status := Stopped);
      sessions := sessions[id := v];
      session, err := Some(v), Pass;
    }

    /** `GetSessionPlatform`: the stored session, its duration recomputed as
        now minus the start time when it is recording and has a start time;
        otherwise nothing changes. An unknown id is an error. */
    method GetSessionPlatform(id: string) returns (session: Option<MeetingSession>, err: Outcome)
      requires Valid()
      modifies this
      ensures Valid()
      ensures tasks == old(tasks) && clock == old(clock)
      ensures id !in old(sessions) ==> session == None && err == Fail("session not found") && sessions == old(sessions)
      ensures id in old(sessions) ==> id in sessions && session == Some(sessions[id]) && err == Pass
      ensures id in old(sessions) && old(sessions)[id].status == Recording && old(sessions)[id].startTime.Some? ==>
                sessions == old(sessions)[id := old(sessions)[id].(
                              duration := Some(clock - old(sessions)[id].startTime.value))]
      ensures id in old(sessions) && (old(sessions)[id].status != Recording || old(sessions)[id].startTime.None?) ==>
                sessions == old(sessions)
    {
      if id !in sessions {
        return None, Fail("session not found");
      }
      if sessions[id].status == Recording && sessions[id].startTime.Some? {
        RefreshKeeps(sessions, tasks, clock, id);
        sessions := sessions[id := sessions[id].(duration := Some(clock - sessions[id].startTime.value))];
      }
      session, err := Some(sessions[id]), Pass;
    }
  }

  /** A status only ever moves forward along the lifecycle, and once in
      error a session never leaves it. */
  lemma ErrorIsFinal(to: SessionStatus)
    requires Advances(Error, to)
    ensures to == Error
  {
  }

  /** Advancing is transitive, so a chain of operations that each advance
      a session's status advances it overall. */
  lemma AdvancesTransitive(a: SessionStatus, b: SessionStatus, c: SessionStatus)
    requires Advances(a, b) && Advances(b, c)
    ensures Advances(a, c)
  {
  }

  /** A join whose browser launch fails: the session reports the error
      "Failed to join: launch failed" and never gets a start time. */
  method JoinFailure() returns (started: MeetingSession, reported: Option<MeetingSession>, err: Outcome)
    ensures started.status == Initializing && started.startTime.None?
    ensures err == Pass && reported.Some?
    ensures reported.value.status == Error
    ensures reported.value.error == "Failed to join: launch failed"
    ensures reported.value.startTime.None? && reported.value.duration.None?
  {
    var svc := new RecordingService(0);
    started := svc.StartRecording("s1", "https://teams.live.com/meet/42?p=x", "Bot");
    svc.BeginJoin("s1");
    svc.FinishJoin("s1", Fail("launch failed"));
    reported, err := svc.GetSessionPlatform("s1");
  }

  /** While a session records, the duration read back is the time since
      the join, and so grows with the clock. */
  method DurationGrows(start: int, first: nat, second: nat) returns (early: int, late: int)
    ensures early == first && late == first + second && early <= late
  {
    var svc := new RecordingService(start);
    var _ := svc.StartRecording("s1", "u", "Bot");
    svc.BeginJoin("s1");
    svc.FinishJoin("s1", Pass);
    svc.AdvanceClock(first);
    var a, _ := svc.GetSessionPlatform("s1");
    svc.AdvanceClock(second);
    var b, _ := svc.GetSessionPlatform("s1");
    early, late := a.value.duration.value, b.value.duration.value;
  }

  /** A recording that joins, streams and is stopped: the stopped session
      carries the recorder's file path, an end time after its start time and
      the duration between them. A failing `StopMeeting` does not matter. */
  method RecordThenStop() returns (stopped: MeetingSession, calls: seq<Call>)
    ensures stopped.status == Stopped && stopped.error == ""
    ensures stopped.filePath == "recordings/meeting-s1.mp4"
    ensures stopped.startTime == Some(100) && stopped.endTime == Some(110)
    ensures stopped.duration == Some(10)
    ensures calls == [RecorderStop, StopMeeting]
  {
    var svc := new RecordingService(100);
    var _ := svc.StartRecording("s1", "https://teams.live.com/meet/42?p=x", "Bot");
    svc.BeginJoin("s1");
    svc.FinishJoin("s1", Pass);
    var _ := svc.RunStreams("s1", Pass, Pass);
    svc.AdvanceClock(10);
    var st, _, c := svc.StopRecording("s1", "recordings/meeting-s1.mp4", Pass, Fail("browser already closed"));
    stopped, calls := st.value, c;
  }

  /** Stopping twice runs the stop sequence once: the second call reports
      success, calls no collaborator and changes nothing. Stopping an
      unknown session is an error. */
  method StopTwice() returns (first: seq<Call>, second: seq<Call>, again: Option<MeetingSession>,
                               missing: Outcome)
    ensures first == [RecorderStop, StopMeeting]
    ensures second == []
    ensures again.Some? && again.value.status == Stopped && again.value.endTime == Some(7)
    ensures missing == Fail("session not found")
  {
    var svc := new RecordingService(0);
    var _ := svc.StartRecording("s1", "u", "Bot");
    svc.BeginJoin("s1");
    svc.FinishJoin("s1", Pass);
    svc.AdvanceClock(7);
    var _, _, c1 := svc.StopRecording("s1", "f.mp4", Pass, Pass);
    svc.AdvanceClock(1);
    var s2, _, c2 := svc.StopRecording("s1", "g.mp4", Pass, Pass);
    var _, e3, _ := svc.StopRecording("nope", "h.mp4", Pass, Pass);
    first, second, again, missing := c1, c2, s2, e3;
  }

  /** A stop requested while the join is still in flight does nothing; the
      join then completes and the recording goes on. A late stream failure
      puts even a stopped session into error. */
  method EarlyStopAndLateFailure() returns (early: seq<Call>, status: SessionStatus, final: MeetingSession)
    ensures early == [] && status == Recording
    ensures final.status == Error && final.error == "Failed to get streams: no video"
    ensures final.endTime.Some?
  {
    var svc := new RecordingService(0);
    var _ := svc.StartRecording("s1", "u", "Bot");
    svc.BeginJoin("s1");
    var _, _, c := svc.StopRecording("s1", "f.mp4", Pass, Pass);
    early := c;
    assert svc.tasks["s1"] == JoinInFlight;
    svc.FinishJoin("s1", Pass);
    status := svc.sessions["s1"].status;
    assert svc.tasks["s1"] == StreamsInFlight;
    var _, _, _ := svc.StopRecording("s1", "f.mp4", Pass, Pass);
    assert svc.sessions["s1"].endTime.Some? && svc.tasks["s1"] == StreamsInFlight;
    var _ := svc.RunStreams("s1", Fail("no video"), Pass);
    final := svc.sessions["s1"];
  }
}
