/** components/LiveCall.tsx: the duplex call screen. The core is the gapless playback
    scheduler driven by `onmessage`: a running `nextStartTime` and the set of playing
    sources, with the `interrupted` flush used for barge-in; around it, the call's status
    machine and the effect's cleanup. The SDK, the media devices, the audio codec and the
    clocks are inputs: each awaited outcome is a method parameter, AudioContext time is a
    non-negative real, and a decoded chunk is only its duration. */
module LiveCall {

  /** `status`. */
  datatype CallStatus = Connecting | Active | Error

  /** One source node handed to the output context: started at `start`, playing for
      `duration`. A source node is named by its position in the schedule. */
  datatype Slot = Slot(start: real, duration: real)

  function End(s: Slot): real {
    s.start + s.duration
  }

  function Max(a: real, b: real): (r: real)
    ensures r >= a && r >= b && (r == a || r == b)
  {
    if a >= b then a else b
  }

  /** The scheduler's state: `nextStartTimeRef`, `sourcesRef` (`active`), every source ever
      stopped, every source ever started in order, and how many of those were started
      before the most recent flush. */
  datatype Playback = Playback(
    nextStartTime: real, active: set<nat>, stopped: set<nat>, schedule: seq<Slot>, flushed: nat)

  /** The scheduler's invariant. Since the last flush the started sources lie back to
      back in start order, the next start is the end of the last of them (0 when there is
      none), and only they can be in the active set. */
  ghost predicate Valid(p: Playback) {
    && p.flushed <= |p.schedule|
    && (forall i :: 0 <= i < |p.schedule| ==> p.schedule[i].start >= 0.0 && p.schedule[i].duration >= 0.0)
    && (forall i :: p.flushed <= i < |p.schedule| - 1 ==> End(p.schedule[i]) <= p.schedule[i + 1].start)
    && (|p.schedule| > p.flushed ==> p.nextStartTime == End(p.schedule[|p.schedule| - 1]))
    && (|p.schedule| == p.flushed ==> p.nextStartTime == 0.0)
    && (forall id :: id in p.active ==> p.flushed <= id < |p.schedule|)
  }

  /** The initial state: `useRef(0)` and `useRef(new Set())`. */
  function Initial(): (p: Playback)
    ensures Valid(p)
  {
    Playback(0.0, {}, {}, [], 0)
  }

  /** An inbound chunk of `duration` seconds when the output clock reads `now`: start at
      `max(nextStartTime, now)`, advance `nextStartTime` by the duration, and add the new
      source to the active set. */
  function Enqueue(p: Playback, now: real, duration: real): Playback
    requires now >= 0.0 && duration >= 0.0
  {
    var start := Max(p.nextStartTime, now);
    p.(nextStartTime := start + duration,
       active := p.active + {|p.schedule|},
       schedule := p.schedule + [Slot(start, duration)])
  }

  /** A source's `onended`: that source leaves the active set. */
  function Ended(p: Playback, id: nat): Playback {
    p.(active := p.active - {id})
  }

  /** `interrupted`: stop every active source, clear the set, reset the time to 0. */
  function Interrupt(p: Playback): Playback {
    p.(stopped := p.stopped + p.active, active := {}, nextStartTime := 0.0, flushed := |p.schedule|)
  }

  /** The body of `onmessage`: audio is scheduled only when the message carries inline
      data and an output context exists; the interrupt check follows, in the same call. */
  function HandleMessage(p: Playback, hasContext: bool, audio: string, interrupted: bool, now: real, duration: real): Playback
    requires now >= 0.0 && duration >= 0.0
  {
    var scheduled := if audio != "" && hasContext then Enqueue(p, now, duration) else p;
    if interrupted then Interrupt(scheduled) else scheduled
  }

  /** Each chunk starts no earlier than the clock and no earlier than the end computed for
      the previous chunk; the computed end of the new chunk becomes `nextStartTime`; the
      new source is the only one added, and nothing is stopped. */
  lemma EnqueueSchedulesAfterPrevious(p: Playback, now: real, duration: real)
    requires Valid(p) && now >= 0.0 && duration >= 0.0
    ensures var q := Enqueue(p, now, duration);
      var s := q.schedule[|p.schedule|];
      && |q.schedule| == |p.schedule| + 1 && q.schedule[..|p.schedule|] == p.schedule
      && s.start >= now && s.start >= p.nextStartTime
      && (|p.schedule| > p.flushed ==> s.start >= End(p.schedule[|p.schedule| - 1]))
      && q.nextStartTime == s.start + duration
      && q.active == p.active + {|p.schedule|} && |p.schedule| !in p.active
      && q.stopped == p.stopped
  {
  }

  lemma EnqueuePreservesValid(p: Playback, now: real, duration: real)
    requires Valid(p) && now >= 0.0 && duration >= 0.0
    ensures Valid(Enqueue(p, now, duration))
  {
    var q := Enqueue(p, now, duration);
    assert q.schedule[|p.schedule|] == Slot(Max(p.nextStartTime, now), duration);
    forall i | q.flushed <= i < |q.schedule| - 1
      ensures End(q.schedule[i]) <= q.schedule[i + 1].start
    {
      if i == |p.schedule| - 1 {
        assert q.schedule[i] == p.schedule[|p.schedule| - 1];
      }
    }
  }

  /** A natural end removes exactly that source: the rest of the active set, the time and
      the schedule are untouched, and the invariant is kept. */
  lemma EndedRemovesOnlyThatSource(p: Playback, id: nat)
    requires Valid(p)
    ensures Valid(Ended(p, id))
    ensures Ended(p, id).active == p.active - {id} && id !in Ended(p, id).active
    ensures forall other :: other != id ==> (other in Ended(p, id).active <==> other in p.active)
    ensures Ended(p, id).nextStartTime == p.nextStartTime && Ended(p, id).schedule == p.schedule
  {
  }

  /** The flush stops every active source, leaves none active, resets the time, keeps the
      invariant, and applying it twice is the same as applying it once. */
  lemma InterruptFlushesIdempotently(p: Playback)
    requires Valid(p)
    ensures Valid(Interrupt(p))
    ensures Interrupt(p).active == {} && Interrupt(p).nextStartTime == 0.0
    ensures p.active <= Interrupt(p).stopped
    ensures Interrupt(Interrupt(p)) == Interrupt(p)
  {
  }

  /** After a flush the next chunk starts at the clock's current time, not at a stale
      instant. */
  lemma ChunkAfterFlushStartsNow(p: Playback, now: real, duration: real)
    requires Valid(p) && now >= 0.0 && duration >= 0.0
    ensures Enqueue(Interrupt(p), now, duration).schedule[|p.schedule|].start == now
  {
  }

  /** A message with no inline audio, or one arriving with no output context, leaves the
      scheduler as it was apart from the interrupt. */
  lemma MessageWithoutAudioLeavesScheduler(p: Playback, hasContext: bool, audio: string, interrupted: bool, now: real, duration: real)
    requires now >= 0.0 && duration >= 0.0
    requires audio == "" || !hasContext
    ensures HandleMessage(p, hasContext, audio, interrupted, now, duration) == if interrupted then Interrupt(p) else p
  {
  }

  /** A message carrying both audio and `interrupted` schedules the chunk and then stops
      it with the rest: the set ends empty and the following chunk starts at the clock. */
  lemma AudioThenInterruptInOneMessage(p: Playback, audio: string, now: real, duration: real, later: real, nextDuration: real)
    requires Valid(p) && now >= 0.0 && duration >= 0.0 && later >= 0.0 && nextDuration >= 0.0
    requires audio != ""
    ensures var q := HandleMessage(p, true, audio, true, now, duration);
      && q.active == {} && q.nextStartTime == 0.0
      && |p.schedule| in q.stopped
      && Enqueue(q, later, nextDuration).schedule[|q.schedule|].start == later
  {
  }

  /** Every message keeps the scheduler's invariant. */
  lemma HandleMessagePreservesValid(p: Playback, hasContext: bool, audio: string, interrupted: bool, now: real, duration: real)
    requires Valid(p) && now >= 0.0 && duration >= 0.0
    ensures Valid(HandleMessage(p, hasContext, audio, interrupted, now, duration))
  {
    if audio != "" && hasContext {
      EnqueuePreservesValid(p, now, duration);
    }
  }

  lemma {:induction false} ChainOrdered(s: seq<Slot>, lo: nat, i: nat, j: nat)
    requires forall k :: 0 <= k < |s| ==> s[k].duration >= 0.0
    requires forall k :: lo <= k < |s| - 1 ==> End(s[k]) <= s[k + 1].start
    requires lo <= i < j < |s|
    ensures End(s[i]) <= s[j].start
    decreases j - i
  {
    if j > i + 1 {
      ChainOrdered(s, lo, i, j - 1);
      assert End(s[j - 1]) <= s[j].start;
    }
  }

  /** No two chunks started since the last flush overlap, and they play in the order they
      were scheduled: a later chunk never starts before an earlier one has ended. */
  lemma ScheduledChunksDoNotOverlap(p: Playback)
    requires Valid(p)
    ensures forall i, j :: p.flushed <= i < j < |p.schedule| ==> End(p.schedule[i]) <= p.schedule[j].start
    ensures forall i, j :: p.flushed <= i < j < |p.schedule| ==> p.schedule[i].start <= p.schedule[j].start
  {
    forall i, j | p.flushed <= i < j < |p.schedule|
      ensures End(p.schedule[i]) <= p.schedule[j].start
    {
      ChainOrdered(p.schedule, p.flushed, i, j);
    }
  }

  /** Where the `startCall` async function stands. */
  datatype Startup = NotStarted | AwaitingMedia | AwaitingSession | Running | Failed | Abandoned

  /** The component. The scheduler fields are the refs of the same names; the rest record
      what the effect has acquired and released. */
  class LiveCallSession {
    var status: CallStatus
    var nextStartTime: real
    var sources: set<nat>
    var stopped: set<nat>
    var schedule: seq<Slot>
    var flushed: nat

    var startup: Startup
    /** `getUserMedia` was asked for the camera and microphone. */
    var mediaRequested: bool
    /** The stream's camera and microphone tracks are live. */
    var tracksLive: bool
    /** `audioContextRef.current` is set (the 24 kHz output context). */
    var hasOutputContext: bool
    var outputClosed: bool
    /** `sessionRef.current` is set, and whether it is still open. */
    var hasSession: bool
    var sessionOpen: bool
    /** The once-a-second frame interval is running. */
    var frameTimer: bool
    /** The element refs are attached (false once the component has unmounted). */
    var mounted: bool

    function State(): Playback
      reads this
    {
      Playback(nextStartTime, sources, stopped, schedule, flushed)
    }

    ghost predicate Inv()
      reads this
    {
      Valid(State())
    }

    /** Nothing outside the scheduler changed. */
    twostate predicate ConnectionUnchanged()
      reads this
    {
      && status == old(status) && startup == old(startup) && mediaRequested == old(mediaRequested)
      && tracksLive == old(tracksLive) && hasOutputContext == old(hasOutputContext)
      && outputClosed == old(outputClosed) && hasSession == old(hasSession)
      && sessionOpen == old(sessionOpen) && frameTimer == old(frameTimer) && mounted == old(mounted)
    }

    constructor ()
      ensures Inv() && State() == Initial()
      ensures status == Connecting && startup == NotStarted && mounted
      ensures !mediaRequested && !tracksLive && !hasOutputContext && !outputClosed
      ensures !hasSession && !sessionOpen && !frameTimer
    {
      status := Connecting;
      nextStartTime, sources, stopped, schedule, flushed := 0.0, {}, {}, [], 0;
      startup := NotStarted;
      mediaRequested, tracksLive, hasOutputContext, outputClosed := false, false, false, false;
      hasSession, sessionOpen, frameTimer := false, false, false;
      mounted := true;
    }

    /** The mount effect: with no API key the status becomes `error` and nothing is
        requested; otherwise `startCall` begins by asking for the media. */
    method Mount(apiKey: string)
      requires startup == NotStarted
      modifies this
      ensures apiKey == "" ==> status == Error && startup == NotStarted && mediaRequested == old(mediaRequested)
      ensures apiKey != "" ==> status == old(status) && startup == AwaitingMedia && mediaRequested
      ensures State() == old(State()) && tracksLive == old(tracksLive) && frameTimer == old(frameTimer)
      ensures hasOutputContext == old(hasOutputContext) && hasSession == old(hasSession) && mounted == old(mounted)
      ensures sessionOpen == old(sessionOpen) && outputClosed == old(outputClosed)
    {
      if apiKey == "" {
        status := Error;
      } else {
        startup := AwaitingMedia;
        mediaRequested := true;
      }
    }

    /** AS WRITTEN: `getUserMedia` settled. On success the stream is live and the output
        context exists, and `connect` is called, even when the component has already been
        cleaned up; on failure the catch sets `error`. */
    method MediaResolvedAsWritten(granted: bool)
      requires startup == AwaitingMedia
      modifies this
      ensures granted ==> tracksLive && hasOutputContext && startup == AwaitingSession && status == old(status)
      ensures !granted ==>
        status == Error && startup == Failed && tracksLive == old(tracksLive) && hasOutputContext == old(hasOutputContext)
      ensures State() == old(State()) && frameTimer == old(frameTimer) && hasSession == old(hasSession)
      ensures mounted == old(mounted) && outputClosed == old(outputClosed) && sessionOpen == old(sessionOpen)
    {
      if granted {
        tracksLive := true;
        hasOutputContext := true;
        startup := AwaitingSession;
      } else {
        status := Error;
        startup := Failed;
      }
    }

    /** CORRECTED: a stream granted after the cleanup ran is stopped at once, and the call
        goes no further. While mounted it behaves as written. */
    method MediaResolved(granted: bool)
      requires startup == AwaitingMedia
      modifies this
      ensures granted && mounted ==>
        tracksLive && hasOutputContext && startup == AwaitingSession && status == old(status)
      ensures granted && !mounted ==>
        !tracksLive && hasOutputContext == old(hasOutputContext) && startup == Abandoned && status == old(status)
      ensures !granted ==>
        status == Error && startup == Failed && tracksLive == old(tracksLive) && hasOutputContext == old(hasOutputContext)
      ensures State() == old(State()) && frameTimer == old(frameTimer) && hasSession == old(hasSession)
      ensures mounted == old(mounted) && outputClosed == old(outputClosed) && sessionOpen == old(sessionOpen)
    {
      if granted && mounted {
        tracksLive := true;
        hasOutputContext := true;
        startup := AwaitingSession;
      } else if granted {
        tracksLive := false;
        startup := Abandoned;
      } else {
        status := Error;
        startup := Failed;
      }
    }

    /** AS WRITTEN: the session promise settled. On success the session is stored and the
        frame interval starts, even when the component has already been cleaned up. */
    method SessionResolvedAsWritten(connected: bool)
      requires startup == AwaitingSession
      modifies this
      ensures connected ==> hasSession && sessionOpen && frameTimer && startup == Running && status == old(status)
      ensures !connected ==>
        status == Error && startup == Failed
        && hasSession == old(hasSession) && sessionOpen == old(sessionOpen) && frameTimer == old(frameTimer)
      ensures State() == old(State()) && tracksLive == old(tracksLive) && mounted == old(mounted)
      ensures hasOutputContext == old(hasOutputContext) && outputClosed == old(outputClosed)
    {
      if connected {
        hasSession, sessionOpen := true, true;
        frameTimer := true;
        startup := Running;
      } else {
        status := Error;
        startup := Failed;
      }
    }

    /** CORRECTED: a session that connects after the cleanup ran is closed at once and no
        interval is started. */
    method SessionResolved(connected: bool)
      requires startup == AwaitingSession
      modifies this
      ensures connected && mounted ==> hasSession && sessionOpen && frameTimer && startup == Running
      ensures connected && !mounted ==> hasSession && !sessionOpen && frameTimer == old(frameTimer) && startup == Running
      ensures !connected ==>
        status == Error && startup == Failed
        && hasSession == old(hasSession) && sessionOpen == old(sessionOpen) && frameTimer == old(frameTimer)
      ensures connected ==> status == old(status)
      ensures State() == old(State()) && tracksLive == old(tracksLive) && mounted == old(mounted)
      ensures hasOutputContext == old(hasOutputContext) && outputClosed == old(outputClosed)
    {
      if connected {
        hasSession := true;
        sessionOpen := mounted;
        if mounted {
          frameTimer := true;
        }
        startup := Running;
      } else {
        status := Error;
        startup := Failed;
      }
    }

    /** The `onopen` callback: the only place the status becomes `active`. */
    method OnOpen()
      requires startup == AwaitingSession || startup == Running
      modifies this
      ensures status == Active
      ensures State() == old(State()) && startup == old(startup) && frameTimer == old(frameTimer)
      ensures tracksLive == old(tracksLive) && hasSession == old(hasSession) && sessionOpen == old(sessionOpen)
      ensures hasOutputContext == old(hasOutputContext) && outputClosed == old(outputClosed) && mounted == old(mounted)
    {
      status := Active;
    }

    /** The `onerror` callback. */
    method OnError()
      requires startup == AwaitingSession || startup == Running
      modifies this
      ensures status == Error
      ensures State() == old(State()) && startup == old(startup) && frameTimer == old(frameTimer)
      ensures tracksLive == old(tracksLive) && hasSession == old(hasSession) && sessionOpen == old(sessionOpen)
      ensures hasOutputContext == old(hasOutputContext) && outputClosed == old(outputClosed) && mounted == old(mounted)
    {
      status := Error;
    }

    /** The `onmessage` callback, taken as one step: `audio` is the inline data ("" when
        absent), `now` the output clock, `duration` that of the decoded chunk. */
    method OnMessage(audio: string, interrupted: bool, now: real, duration: real)
      requires Inv() && now >= 0.0 && duration >= 0.0
      modifies this
      ensures Inv() && ConnectionUnchanged()
      ensures State() == HandleMessage(old(State()), hasOutputContext, audio, interrupted, now, duration)
    {
      if audio != "" && hasOutputContext {
        ScheduleChunk(now, duration);
      }
      if interrupted {
        StopAll();
      }
    }

    /** The audio branch of `onmessage`: start at the later of `nextStartTime` and the
        clock, advance `nextStartTime` by the chunk's duration, track the source. */
    method ScheduleChunk(now: real, duration: real)
      requires Inv() && now >= 0.0 && duration >= 0.0
      modifies this
      ensures Inv() && ConnectionUnchanged()
      ensures State() == Enqueue(old(State()), now, duration)
    {
      EnqueuePreservesValid(State(), now, duration);
      nextStartTime := Max(nextStartTime, now);
      var id := |schedule|;
      schedule := schedule + [Slot(nextStartTime, duration)];
      nextStartTime := nextStartTime + duration;
      sources := sources + {id};
    }

    /** The `interrupted` branch: stop every source, clear the set, reset the time. */
    method StopAll()
      requires Inv()
      modifies this
      ensures Inv() && ConnectionUnchanged()
      ensures State() == Interrupt(old(State()))
    {
      InterruptFlushesIdempotently(State());
      stopped := stopped + sources;
      sources := {};
      nextStartTime := 0.0;
      flushed := |schedule|;
    }

    /** A source's `onended`. */
    method OnEnded(id: nat)
      requires Inv()
      modifies this
      ensures Inv() && ConnectionUnchanged()
      ensures State() == Ended(old(State()), id)
    {
      EndedRemovesOnlyThatSource(State(), id);
      sources := sources - {id};
    }

    /** One firing of the frame interval: a frame is sent only while the video and canvas
        elements are attached and a session is stored. */
    method FrameTick() returns (sent: bool)
      requires frameTimer
      ensures sent <==> mounted && hasSession
    {
      sent := mounted && hasSession;
    }

    /** AS WRITTEN: the effect's cleanup (registered only when `startCall` ran) clears the
        interval, closes the session and the output context, and stops every active source,
        but never stops the stream's tracks. */
    method CleanupAsWritten()
      requires Inv()
      modifies this
      ensures Inv()
      ensures !mounted
      ensures old(startup) != NotStarted ==>
        !frameTimer && !sessionOpen
        && outputClosed == (old(outputClosed) || old(hasOutputContext))
        && stopped == old(stopped) + old(sources)
      ensures old(startup) == NotStarted ==> frameTimer == old(frameTimer) && stopped == old(stopped)
      ensures tracksLive == old(tracksLive)
      ensures sources == old(sources) && schedule == old(schedule) && nextStartTime == old(nextStartTime)
      ensures flushed == old(flushed) && status == old(status) && startup == old(startup)
      ensures hasSession == old(hasSession) && hasOutputContext == old(hasOutputContext)
    {
      if startup != NotStarted {
        frameTimer := false;
        sessionOpen := false;
        if hasOutputContext {
          outputClosed := true;
        }
        stopped := stopped + sources;
      }
      mounted := false;
    }

    /** CORRECTED: the cleanup also stops the stream's camera and microphone tracks. */
    method Cleanup()
      requires Inv()
      modifies this
      ensures Inv()
      ensures !mounted && !tracksLive
      ensures old(startup) != NotStarted ==>
        !frameTimer && !sessionOpen
        && outputClosed == (old(outputClosed) || old(hasOutputContext))
        && stopped == old(stopped) + old(sources)
      ensures old(startup) == NotStarted ==> frameTimer == old(frameTimer) && stopped == old(stopped)
      ensures sources == old(sources) && schedule == old(schedule) && nextStartTime == old(nextStartTime)
      ensures flushed == old(flushed) && status == old(status) && startup == old(startup)
      ensures hasSession == old(hasSession) && hasOutputContext == old(hasOutputContext)
    {
      if startup != NotStarted {
        frameTimer := false;
        sessionOpen := false;
        if hasOutputContext {
          outputClosed := true;
        }
        stopped := stopped + sources;
      }
      tracksLive := false;
      mounted := false;
    }
  }

  /** With no API key the status is `error` and no media is ever requested. */
  method CallWithoutKey() returns (call: LiveCallSession)
    ensures call.status == Error && !call.mediaRequested && !call.tracksLive
  {
    call := new LiveCallSession();
    call.Mount("");
  }

  /** The scheduler over a whole call: two chunks play back to back, a barge-in stops
      both, and the next chunk starts at the clock rather than after the stopped ones. */
  method BargeInScenario(key: string) returns (call: LiveCallSession)
    requires key != ""
    ensures call.sources == {2} && call.status == Active
    ensures |call.schedule| == 3
    ensures call.schedule[0] == Slot(1.0, 2.0) && call.schedule[1] == Slot(3.0, 2.0)
    ensures call.schedule[2] == Slot(3.5, 1.0)
    ensures call.nextStartTime == 4.5 && call.stopped == {0, 1}
  {
    call := new LiveCallSession();
    call.Mount(key);
    call.MediaResolved(true);
    call.OnOpen();
    call.SessionResolved(true);
    call.OnMessage("chunk-a", false, 1.0, 2.0);
    call.OnMessage("chunk-b", false, 1.5, 2.0);
    call.OnMessage("", true, 2.5, 0.0);
    call.OnMessage("chunk-c", false, 3.5, 1.0);
  }

  /** The first finding, as written: a call that reached the media ends with its camera
      and microphone tracks still live. */
  method CleanupLeavesTracksLive(key: string) returns (call: LiveCallSession)
    requires key != ""
    ensures call.tracksLive && !call.mounted
  {
    call := new LiveCallSession();
    call.Mount(key);
    call.MediaResolvedAsWritten(true);
    call.SessionResolvedAsWritten(true);
    call.CleanupAsWritten();
  }

  /** The corrected cleanup releases the tracks whatever happened before. */
  method CleanupReleasesTracks(key: string) returns (call: LiveCallSession)
    requires key != ""
    ensures !call.tracksLive && !call.frameTimer && !call.sessionOpen
  {
    call := new LiveCallSession();
    call.Mount(key);
    call.MediaResolved(true);
    call.SessionResolved(true);
    call.Cleanup();
  }

  /** The second finding, as written: ending the call while it is still connecting leaves
      a frame interval running and a session open after the cleanup. */
  method EarlyEndLeaksInterval(key: string) returns (call: LiveCallSession)
    requires key != ""
    ensures !call.mounted && call.frameTimer && call.sessionOpen
  {
    call := new LiveCallSession();
    call.Mount(key);
    call.MediaResolvedAsWritten(true);
    call.CleanupAsWritten();
    call.SessionResolvedAsWritten(true);
  }

  /** The corrected resolution: after an early end no interval runs and no session stays
      open. */
  method EarlyEndReleasesSession(key: string) returns (call: LiveCallSession)
    requires key != ""
    ensures !call.mounted && !call.frameTimer && !call.sessionOpen && !call.tracksLive
  {
    call := new LiveCallSession();
    call.Mount(key);
    call.MediaResolved(true);
    call.Cleanup();
    call.SessionResolved(true);
  }

  /** The third finding, as written: ending the call before `getUserMedia` resolves leaves
      the camera and microphone live, even with the corrected cleanup, because the stream
      arrives after it ran. */
  method MediaAfterEndLeaksTracks(key: string) returns (call: LiveCallSession)
    requires key != ""
    ensures !call.mounted && call.tracksLive && call.startup == AwaitingSession
  {
    call := new LiveCallSession();
    call.Mount(key);
    call.Cleanup();
    call.MediaResolvedAsWritten(true);
  }

  /** The corrected resolution: a stream that arrives after the end is stopped, and no
      session is opened. */
  method MediaAfterEndReleasesTracks(key: string) returns (call: LiveCallSession)
    requires key != ""
    ensures !call.mounted && !call.tracksLive && !call.hasSession && !call.sessionOpen && !call.frameTimer
    ensures call.startup == Abandoned
  {
    call := new LiveCallSession();
    call.Mount(key);
    call.Cleanup();
    call.MediaResolved(true);
  }

  /** Whichever comes first, the corrected cleanup or the media grant, the call ends with
      the tracks stopped. */
  method EndReleasesTracksInEitherOrder(key: string, cleanupFirst: bool) returns (call: LiveCallSession)
    requires key != ""
    ensures !call.mounted && !call.tracksLive && !call.frameTimer && !call.sessionOpen
  {
    call := new LiveCallSession();
    call.Mount(key);
    if cleanupFirst {
      call.Cleanup();
      call.MediaResolved(true);
    } else {
      call.MediaResolved(true);
      call.Cleanup();
    }
  }
}
