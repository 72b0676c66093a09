/** The ffmpeg media recorder: the output file names it derives for a
    session, the three per-session handle maps it keeps between `Start` and
    `Stop`, and the order in which `Stop` shuts the two processes down. The
    processes themselves are represented by the results their system calls
    return, passed in as parameters; the Unix time is a parameter too. */
module Ffmpeg {
  import opened Outcomes
  import opened GoStrings

  /** `filepath.Join(dir, name)` for a clean directory and a name without
      separators: the name alone for an empty directory, otherwise the two
      joined by exactly one `/` (the directory's own trailing `/`, or an
      added one). */
  function JoinPath(dir: string, name: string): (path: string)
    ensures dir == "" ==> path == name
    ensures dir != "" && dir[|dir| - 1] == '/' ==> path == dir + name
    ensures dir != "" && dir[|dir| - 1] != '/' ==> path == dir + "/" + name
    ensures |name| <= |path| && path[|path| - |name|..] == name
  {
    if dir == "" then name
    else if dir[|dir| - 1] == '/' then dir + name
    else dir + "/" + name
  }

  /** Within one directory, different names give different paths. */
  lemma JoinPathInjective(dir: string, a: string, b: string)
    requires JoinPath(dir, a) == JoinPath(dir, b)
    ensures a == b
  {
    var pa, pb := JoinPath(dir, a), JoinPath(dir, b);
    var k := |pa| - |a|;
    assert |pb| - |b| == k;
    assert a == pa[k..] == pb[k..] == b;
  }

  /** The file name of the video: "meeting-<id>-<unix seconds>.mp4". */
  function VideoFileName(id: string, unix: int): (name: string)
    ensures |name| >= 4 && name[|name| - 4..] == ".mp4"
  {
    "meeting-" + id + "-" + FormatInt(unix) + ".mp4"
  }

  /** The file name of the audio: "meeting-<id>-audio.wav". */
  function AudioFileName(id: string): (name: string)
    ensures |name| >= 4 && name[|name| - 4..] == ".wav"
  {
    "meeting-" + id + "-audio.wav"
  }

  /** Where the video of a recording goes: its file name in the directory. */
  function VideoPath(dir: string, id: string, unix: int): (path: string)
    ensures |path| >= 4 && path[|path| - 4..] == ".mp4"
  {
    JoinPath(dir, VideoFileName(id, unix))
  }

  /** Where the audio of a session goes: its file name in the directory. */
  function AudioPath(dir: string, id: string): (path: string)
    ensures |path| >= 4 && path[|path| - 4..] == ".wav"
  {
    JoinPath(dir, AudioFileName(id))
  }

  /** Two recordings of one session started in different seconds write to
      different video files. */
  lemma VideoPathDistinctTimes(dir: string, id: string, t1: int, t2: int)
    requires t1 != t2
    ensures VideoPath(dir, id, t1) != VideoPath(dir, id, t2)
  {
    if VideoPath(dir, id, t1) == VideoPath(dir, id, t2) {
      var n1, n2 := VideoFileName(id, t1), VideoFileName(id, t2);
      JoinPathInjective(dir, n1, n2);
      var k := |"meeting-" + id + "-"|;
      assert |FormatInt(t1)| == |FormatInt(t2)|;
      assert FormatInt(t1) == n1[k..|n1| - 4] == n2[k..|n2| - 4] == FormatInt(t2);
      FormatIntInjective(t1, t2);
    }
  }

  /** Different sessions write to different audio files: the audio path
      determines the session. */
  lemma AudioPathDeterminesSession(dir: string, id1: string, id2: string)
    ensures AudioPath(dir, id1) == AudioPath(dir, id2) ==> id1 == id2
  {
    if AudioPath(dir, id1) == AudioPath(dir, id2) {
      var n1, n2 := AudioFileName(id1), AudioFileName(id2);
      JoinPathInjective(dir, n1, n2);
      assert n1[8..|n1| - 10] == id1;
      assert n2[8..|n2| - 10] == id2;
    }
  }

  /** The video and the audio of a recording never share a file: the one
      ends in ".mp4", the other in ".wav". */
  lemma VideoAudioPathsDiffer(dir: string, id1: string, unix: int, id2: string)
    ensures VideoPath(dir, id1, unix) != AudioPath(dir, id2)
  {
    var v, a := VideoPath(dir, id1, unix), AudioPath(dir, id2);
    var nv, na := VideoFileName(id1, unix), AudioFileName(id2);
    assert v[|v| - |nv|..] == nv && nv[|nv| - 1] == '4';
    assert a[|a| - |na|..] == na && na[|na| - 1] == 'v';
    assert v[|v| - 1] == '4' && a[|a| - 1] == 'v';
  }

  /** The video process of a session: where it writes. */
  datatype VideoCommand = VideoCommand(output: string)

  /** The audio process of a session: where it writes, and whether it was
      started (a failed start leaves the command without a process). */
  datatype AudioCommand = AudioCommand(output: string, started: bool)

  /** The write end of the pipe into the video process. */
  datatype Stdin = Stdin(session: string)

  /** What `Stop` does to the two processes, in order. */
  datatype Action = CloseStdin | WaitVideo | InterruptAudio | KillAudio

  /** The audio shutdown of `Stop`: an interrupt, then a kill only when the
      process has not exited within the two-second grace period. */
  function AudioShutdown(exitedBeforeTimeout: bool): (plan: seq<Action>)
    ensures 1 <= |plan| <= 2 && plan[0] == InterruptAudio
    ensures KillAudio in plan <==> !exitedBeforeTimeout
    ensures forall k :: 1 <= k < |plan| ==> plan[k] == KillAudio
  {
    if exitedBeforeTimeout then [InterruptAudio] else [InterruptAudio, KillAudio]
  }

  /** The message of `Stop` for a session with nothing registered. */
  function NoActiveRecording(id: string): string
  {
    "no active recording for session " + id
  }

  /** `ffmpegRecorder`. */
  class FfmpegRecorder {
    const recordingDir: string
    var cmds: map<string, VideoCommand>
    var audioCmds: map<string, AudioCommand>
    var stdins: map<string, Stdin>

    /** The three maps are registered and cleared together. */
    ghost predicate Valid()
      reads this
    {
      cmds.Keys == audioCmds.Keys == stdins.Keys
    }

    /** `NewFFmpegRecorder`: empty maps. Creating the directory is left out. */
    constructor (dir: string)
      ensures Valid()
      ensures recordingDir == dir && cmds == map[] && audioCmds == map[] && stdins == map[]
    {
      recordingDir := dir;
      cmds, audioCmds, stdins := map[], map[], map[];
    }

    /** `Start`, run at Unix second `unix`. Creating the pipe into the video
        process returns `pipe`; starting the audio process returns
        `audioStart`, starting the video process `videoStart`. A pipe
        failure is returned with nothing registered. An audio failure is
        not an error: recording goes on with video only. The three entries
        are registered before the video process starts, so a video failure
        is returned with them in place. */
    method Start(id: string, unix: int, pipe: Outcome, audioStart: Outcome, videoStart: Outcome)
      returns (err: Outcome)
      requires Valid()
      modifies this
      ensures Valid()
      ensures pipe.Fail? ==>
                err == pipe && cmds == old(cmds) && audioCmds == old(audioCmds) && stdins == old(stdins)
      ensures pipe.Pass? ==>
                && err == videoStart
                && cmds == old(cmds)[id := VideoCommand(VideoPath(recordingDir, id, unix))]
                && audioCmds == old(audioCmds)[id := AudioCommand(AudioPath(recordingDir, id), audioStart.Pass?)]
                && stdins == old(stdins)[id := Stdin(id)]
    {
      var path := VideoPath(recordingDir, id, unix);
      if pipe.Fail? {
        return pipe;
      }
      var audioPath := AudioPath(recordingDir, id);
      var audio := AudioCommand(audioPath, audioStart.Pass?);
      cmds := cmds[id := VideoCommand(path)];
      audioCmds := audioCmds[id := audio];
      stdins := stdins[id := Stdin(id)];
      if videoStart.Fail? {
        return videoStart;
      }
      err := Pass;
    }

    /** `Stop`. Waiting for the video process returns `videoWait`;
        `audioExitedBeforeTimeout` says whether the interrupted audio
        process exited within the grace period. With nothing registered the
        result is ("", "no active recording ...") and nothing changes.
        Otherwise the pipe is closed, the video process waited for, a
        started audio process shut down, all three entries removed whatever
        the wait returned, and the wait's error returned beside the fixed
        path text. */
    method Stop(id: string, videoWait: Outcome, audioExitedBeforeTimeout: bool)
      returns (path: string, err: Outcome, actions: seq<Action>)
      requires Valid()
      modifies this
      ensures Valid()
      ensures id !in old(cmds) ==>
                && path == "" && err == Fail(NoActiveRecording(id)) && actions == []
                && cmds == old(cmds) && audioCmds == old(audioCmds) && stdins == old(stdins)
      ensures id in old(cmds) ==>
                && path == "check recordings directory" && err == videoWait
                && cmds == old(cmds) - {id} && audioCmds == old(audioCmds) - {id} && stdins == old(stdins) - {id}
                && actions == [CloseStdin, WaitVideo] +
                              (if old(audioCmds)[id].started then AudioShutdown(audioExitedBeforeTimeout) else [])
    {
      if id !in cmds {
        return "", Fail(NoActiveRecording(id)), [];
      }
      var audio := audioCmds[id];
      actions := [];
      if id in stdins {
        actions := actions + [CloseStdin];
      }
      actions := actions + [WaitVideo];
      err := videoWait;
      if audio.started {
        actions := actions + AudioShutdown(audioExitedBeforeTimeout);
      }
      cmds := cmds - {id};
      audioCmds := audioCmds - {id};
      stdins := stdins - {id};
      path := "check recordings directory";
    }
  }

  /** After a completed `Stop`, a second `Stop` of the same session finds
      nothing and performs no action. */
  method StopTwice(unix: int) returns (first: Outcome, second: Outcome, again: seq<Action>)
    ensures first == Fail("wait: exit status 1")
    ensures second == Fail("no active recording for session s1") && again == []
  {
    var rec := new FfmpegRecorder("recordings");
    var _ := rec.Start("s1", unix, Pass, Pass, Pass);
    var _, e1, _ := rec.Stop("s1", Fail("wait: exit status 1"), true);
    var _, e2, a2 := rec.Stop("s1", Pass, true);
    first, second, again := e1, e2, a2;
  }

  /** A video process that fails to start leaves its entries registered, so
      a later `Stop` still finds and clears them; an audio process that
      never started is not signalled. */
  method FailedVideoStartThenStop(unix: int) returns (started: Outcome, path: string, actions: seq<Action>)
    ensures started == Fail("exec: ffmpeg not found")
    ensures path == "check recordings directory"
    ensures actions == [CloseStdin, WaitVideo]
  {
    var rec := new FfmpegRecorder("recordings");
    started := rec.Start("s1", unix, Pass, Fail("pulse unavailable"), Fail("exec: ffmpeg not found"));
    var p, _, a := rec.Stop("s1", Fail("exec: not started"), false);
    path, actions := p, a;
  }
}
