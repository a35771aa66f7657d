/** components/MedicationCapture.tsx: the five-second proof-of-medication recording. A
    four-state machine (preview, recording, processing, success) with a countdown; the
    recorder's chunks; a finisher that four different paths may call but whose body runs
    at most once; and the saved log, newest first and at most ten entries. Camera,
    recorder, canvas and FileReader outcomes are parameters; the clock is a parameter. */
module MedicationCapture {
  import opened Wrappers
  import opened Types
  import opened Text

  /** `status`. */
  datatype CaptureStatus = Preview | Recording | Processing | Succeeded

  /** The position of a status along preview, recording, processing, success. */
  function Rank(s: CaptureStatus): (r: nat)
    ensures r <= 3
  {
    match s
    case Preview => 0
    case Recording => 1
    case Processing => 2
    case Succeeded => 3
  }

  /** `mediaRecorderRef.current`: none, or a recorder and whether its state is
      still active. */
  datatype RecorderState = NoRecorder | RecorderActive | RecorderInactive

  /** The values `Date.now()` and `toLocaleTimeString()` give when a record is made. */
  datatype Clock = Clock(now: nat, timeText: string)

  /** The countdown's start, in ticks of one second. */
  const RecordingSeconds := 5
  /** How many records the saved log keeps. */
  const MedLogLimit := 10

  /** The recorder formats, in order of preference. */
  const MimeTypes: seq<string> := ["video/webm;codecs=vp8", "video/webm", "video/mp4"]

  /** `mimeTypes.find(type => MediaRecorder.isTypeSupported(type))`, where `supported` is
      the set of formats the browser supports. */
  function FirstSupported(types: seq<string>, supported: set<string>): (r: Option<string>)
    ensures r.Some? ==> r.value in supported && r.value in types
    ensures r.Some? ==>
      exists i :: 0 <= i < |types| && types[i] == r.value && forall j :: 0 <= j < i ==> types[j] !in supported
    ensures r.None? <==> forall i :: 0 <= i < |types| ==> types[i] !in supported
  {
    if types == [] then None
    else if types[0] in supported then
      assert types[0] == types[0];
      Some(types[0])
    else
      var rest := FirstSupported(types[1..], supported);
      if rest.Some? then
        var i :| 0 <= i < |types[1..]| && types[1..][i] == rest.value
          && forall j :: 0 <= j < i ==> types[1..][j] !in supported;
        assert types[i + 1] == rest.value;
        assert forall j :: 0 <= j < i + 1 ==> types[j] !in supported by {
          forall j | 0 <= j < i + 1 ensures types[j] !in supported {
            if j > 0 {
              assert types[j] == types[1..][j - 1];
            }
          }
        }
        rest
      else
        assert forall i :: 1 <= i < |types| ==> types[i] == types[1..][i - 1];
        None
  }

  /** The recorder's format, paired with the browser's support: VP8 WebM when supported,
      otherwise plain WebM, otherwise MP4, otherwise the recorder's own default. */
  lemma MimeTypePreference(supported: set<string>)
    ensures FirstSupported(MimeTypes, supported) ==
      if "video/webm;codecs=vp8" in supported then Some("video/webm;codecs=vp8")
      else if "video/webm" in supported then Some("video/webm")
      else if "video/mp4" in supported then Some("video/mp4")
      else None
  {
    var r := FirstSupported(MimeTypes, supported);
    if r.Some? {
      var i :| 0 <= i < |MimeTypes| && MimeTypes[i] == r.value
        && forall j :: 0 <= j < i ==> MimeTypes[j] !in supported;
      assert i == 0 || MimeTypes[0] !in supported;
    } else {
      assert MimeTypes[0] !in supported && MimeTypes[1] !in supported && MimeTypes[2] !in supported;
    }
  }

  /** `[record, ...existing].slice(0, 10)`. */
  function PrependTruncate(record: MedRecord, existing: seq<MedRecord>): (r: seq<MedRecord>)
    ensures |r| == if |existing| < MedLogLimit then |existing| + 1 else MedLogLimit
  {
    var all := [record] + existing;
    if |all| <= MedLogLimit then all else all[..MedLogLimit]
  }

  /** The new record comes first and the older ones follow in their stored order; an
      entry is dropped only from the end and only when the log would exceed ten. */
  lemma PrependTruncateKeepsNewest(record: MedRecord, existing: seq<MedRecord>)
    ensures var r := PrependTruncate(record, existing);
      && r[0] == record
      && r[1..] == existing[..|r| - 1]
      && |r| <= MedLogLimit
      && (|existing| < MedLogLimit ==> r == [record] + existing)
  {
  }

  /** Two saves in a row: the later record first, then the earlier, then the oldest
      entries, still at most ten. */
  lemma TwoSavesNewestFirst(first: MedRecord, second: MedRecord, existing: seq<MedRecord>)
    ensures var r := PrependTruncate(second, PrependTruncate(first, existing));
      && |r| <= MedLogLimit && |r| >= 2
      && r[0] == second && r[1] == first
      && r[2..] == existing[..|r| - 2]
  {
    var once := PrependTruncate(first, existing);
    PrependTruncateKeepsNewest(first, existing);
    PrependTruncateKeepsNewest(second, once);
    var r := PrependTruncate(second, once);
    assert r[1..] == once[..|r| - 1];
    assert r[2..] == once[1..][..|r| - 2];
  }

  /** The record `saveAndExit` builds: `evidenceImage` is the snapshot or "", the video is
      the part after the comma of the data URL (None when there was none), and
      `isVideoUploaded` is whether that video is a non-empty string. */
  function MakeRecord(medName: string, snapshot: Option<string>, video: Option<string>, clock: Clock): (r: MedRecord)
    ensures r.medName == medName && r.status == Verified && r.videoData == video
    ensures r.isVideoUploaded == Some(Truthy(video))
    ensures r.evidenceImage == Some(if Truthy(snapshot) then snapshot.value else "")
    ensures snapshot.None? ==> r.evidenceImage == Some("")
    ensures r.id == NatToString(clock.now) && r.timestamp == clock.now && r.time == clock.timeText
  {
    MedRecord(NatToString(clock.now), medName, clock.timeText, clock.now,
              Some(if Truthy(snapshot) then snapshot.value else ""), video, Verified, Some(Truthy(video)))
  }

  /** The component's state. Ghost counters record how often the finisher's body and the
      save ran. */
  class Capture {
    const medName: string
    var status: CaptureStatus
    var countdown: int
    var capturedImage: Option<string>
    /** `streamRef.current` is set, and its tracks are live. */
    var hasStream: bool
    var tracksLive: bool
    var recorder: RecorderState
    var mimeType: Option<string>
    /** `recordedChunks.current`, as the sizes of the kept blobs. */
    var chunks: seq<nat>
    /** The snapshot the recorder's `onstop` handler sees: the state of the render that
        started the recording. */
    var onStopSnapshot: Option<string>
    var stopRequested: bool
    var safetyArmed: bool
    var hasFinished: bool
    /** A FileReader is converting the chunks; its `onloadend` will save with the
        snapshot of the finisher that started it. */
    var readerPending: bool
    var readerSnapshot: Option<string>
    /** The stored `SILVERCARE_MED_LOGS`, and the record handed to `onComplete`. */
    var medLogs: seq<MedRecord>
    var record: Option<MedRecord>
    ghost var finishRuns: nat
    ghost var saves: nat

    ghost predicate Valid()
      reads this
    {
      && 0 <= countdown <= RecordingSeconds
      && (forall i :: 0 <= i < |chunks| ==> chunks[i] > 0)
      && (tracksLive ==> hasStream)
      && finishRuns == (if hasFinished then 1 else 0)
      && saves + (if readerPending then 1 else 0) <= finishRuns
      && (status == Succeeded <==> saves == 1)
      && (record.Some? <==> saves == 1)
      && (hasFinished ==> Rank(status) >= 2)
      && (stopRequested ==> Rank(status) >= 2)
      && (safetyArmed ==> Rank(status) >= 2)
      && (recorder != NoRecorder ==> Rank(status) >= 1)
    }

    /** Nothing but the countdown and the chunks changed. */
    twostate predicate SameFlow()
      reads this
    {
      && status == old(status) && capturedImage == old(capturedImage)
      && hasStream == old(hasStream) && tracksLive == old(tracksLive)
      && recorder == old(recorder) && mimeType == old(mimeType) && onStopSnapshot == old(onStopSnapshot)
      && stopRequested == old(stopRequested) && safetyArmed == old(safetyArmed)
      && hasFinished == old(hasFinished) && readerPending == old(readerPending)
      && readerSnapshot == old(readerSnapshot) && medLogs == old(medLogs) && record == old(record)
    }

    /** What a call of `finishProcess` with the snapshot its caller sees did: nothing when
        the flag was already set; otherwise set the flag and either start the reader (there
        are chunks and the blob could be made) or save without video. */
    twostate predicate FinishEffect(snapshot: Option<string>, blobOk: bool, clock: Clock)
      reads this
    {
      && hasFinished && finishRuns == 1
      && (old(hasFinished) ==>
            status == old(status) && record == old(record) && medLogs == old(medLogs)
            && readerPending == old(readerPending) && readerSnapshot == old(readerSnapshot))
      && (!old(hasFinished) && |old(chunks)| > 0 && blobOk ==>
            readerPending && readerSnapshot == snapshot
            && status == old(status) && record == old(record) && medLogs == old(medLogs))
      && (!old(hasFinished) && !(|old(chunks)| > 0 && blobOk) ==>
            status == Succeeded && record == Some(MakeRecord(medName, snapshot, None, clock))
            && medLogs == PrependTruncate(record.value, old(medLogs)) && readerPending == old(readerPending))
      && chunks == old(chunks) && countdown == old(countdown) && recorder == old(recorder)
      && mimeType == old(mimeType) && onStopSnapshot == old(onStopSnapshot) && capturedImage == old(capturedImage)
      && stopRequested == old(stopRequested) && safetyArmed == old(safetyArmed)
      && hasStream == old(hasStream) && tracksLive == old(tracksLive)
    }

    /** What `stopRecording` did, called while recording: processing, the safety net
        armed, and either the recorder asked to stop (it was active and `stop` went
        through) or the finisher run with the current snapshot. */
    twostate predicate StopEffect(stopThrows: bool, blobOk: bool, clock: Clock)
      reads this
    {
      && safetyArmed && Rank(status) >= 2
      && countdown == old(countdown) && chunks == old(chunks) && mimeType == old(mimeType)
      && onStopSnapshot == old(onStopSnapshot) && capturedImage == old(capturedImage)
      && hasStream == old(hasStream) && tracksLive == old(tracksLive)
      && (old(recorder) == RecorderActive && !stopThrows ==>
            recorder == RecorderInactive && stopRequested && status == Processing && !hasFinished
            && record == old(record) && medLogs == old(medLogs) && readerPending == old(readerPending))
      && (!(old(recorder) == RecorderActive && !stopThrows) ==>
            recorder == old(recorder) && stopRequested == old(stopRequested) && hasFinished
            && (|old(chunks)| > 0 && blobOk ==> readerPending && readerSnapshot == old(capturedImage) && record == None)
            && (!(|old(chunks)| > 0 && blobOk) ==>
                  status == Succeeded && record == Some(MakeRecord(medName, old(capturedImage), None, clock))
                  && medLogs == PrependTruncate(record.value, old(medLogs))))
    }

    constructor (medName: string, storedLogs: seq<MedRecord>)
      ensures Valid()
      ensures this.medName == medName && status == Preview && countdown == RecordingSeconds
      ensures capturedImage == None && !hasStream && !tracksLive && recorder == NoRecorder
      ensures chunks == [] && !hasFinished && !readerPending && medLogs == storedLogs && record == None
      ensures !stopRequested && !safetyArmed && finishRuns == 0 && saves == 0
    {
      this.medName := medName;
      status := Preview;
      countdown := RecordingSeconds;
      capturedImage := None;
      hasStream, tracksLive := false, false;
      recorder := NoRecorder;
      mimeType := None;
      chunks := [];
      onStopSnapshot := None;
      stopRequested, safetyArmed, hasFinished := false, false, false;
      readerPending := false;
      readerSnapshot := None;
      medLogs := storedLogs;
      record := None;
      finishRuns, saves := 0, 0;
    }

    /** `startCamera` settled: on failure the screen stays usable without a stream. */
    method CameraResolved(granted: bool)
      requires Valid()
      modifies this
      ensures Valid()
      ensures hasStream == (old(hasStream) || granted) && tracksLive == (old(tracksLive) || granted)
      ensures status == old(status) && countdown == old(countdown) && recorder == old(recorder)
      ensures capturedImage == old(capturedImage) && chunks == old(chunks)
      ensures hasFinished == old(hasFinished) && record == old(record) && medLogs == old(medLogs)
    {
      if granted {
        hasStream, tracksLive := true, true;
      }
    }

    /** `handleStart`, offered only in preview. `snapshot` is the JPEG the canvas gave (None
        when there were no elements or the capture threw), `supported` the formats the
        browser supports, `recorderOk` whether constructing the recorder went through. */
    method HandleStart(snapshot: Option<string>, supported: set<string>, recorderOk: bool)
      requires Valid() && status == Preview
      modifies this
      ensures Valid()
      ensures status == Recording && countdown == RecordingSeconds
      ensures capturedImage == (if snapshot.Some? then snapshot else old(capturedImage))
      ensures onStopSnapshot == old(capturedImage)
      ensures hasStream ==> chunks == []
      ensures !hasStream ==> chunks == old(chunks)
      ensures hasStream && recorderOk ==> recorder == RecorderActive && mimeType == FirstSupported(MimeTypes, supported)
      ensures !(hasStream && recorderOk) ==> recorder == old(recorder) && mimeType == old(mimeType)
      ensures hasStream == old(hasStream) && tracksLive == old(tracksLive)
      ensures !hasFinished && !stopRequested && !safetyArmed && !readerPending
      ensures record == old(record) && medLogs == old(medLogs)
    {
      onStopSnapshot := capturedImage;
      if snapshot.Some? {
        capturedImage := snapshot;
      }
      countdown := RecordingSeconds;
      status := Recording;
      if hasStream {
        chunks := [];
        if recorderOk {
          mimeType := FirstSupported(MimeTypes, supported);
          recorder := RecorderActive;
        }
      }
    }

    /** `ondataavailable`: only a blob of non-zero size is kept. */
    method OnDataAvailable(size: nat)
      requires Valid() && recorder != NoRecorder
      modifies this
      ensures Valid() && SameFlow()
      ensures chunks == if size > 0 then old(chunks) + [size] else old(chunks)
      ensures countdown == old(countdown)
    {
      if size > 0 {
        chunks := chunks + [size];
      }
    }

    /** The countdown effect while recording: a positive count goes down by one (the
        one-second timeout), and at zero the recording stops. */
    method CountdownStep(stopThrows: bool, blobOk: bool, clock: Clock)
      requires Valid() && status == Recording
      modifies this
      ensures Valid() && Rank(old(status)) <= Rank(status)
      ensures old(countdown) > 0 ==> countdown == old(countdown) - 1 && chunks == old(chunks) && SameFlow()
      ensures old(countdown) == 0 ==> StopEffect(stopThrows, blobOk, clock)
    {
      if countdown > 0 {
        countdown := countdown - 1;
      } else {
        StopRecording(stopThrows, blobOk, clock);
      }
    }

    /** `stopRecording`: processing; stop an active recorder (its `onstop` finishes later),
        or finish at once when there is none or `stop` threw; arm the 2 s safety net. */
    method StopRecording(stopThrows: bool, blobOk: bool, clock: Clock)
      requires Valid() && status == Recording
      modifies this
      ensures Valid() && StopEffect(stopThrows, blobOk, clock)
    {
      status := Processing;
      if recorder == RecorderActive && !stopThrows {
        recorder := RecorderInactive;
        stopRequested := true;
      } else {
        FinishProcess(capturedImage, blobOk, clock);
      }
      safetyArmed := true;
    }

    /** The recorder's `onstop`, after a requested stop: the finisher of the closure made
        when the recording started. */
    method OnStop(blobOk: bool, clock: Clock)
      requires Valid() && stopRequested
      modifies this
      ensures Valid() && FinishEffect(old(onStopSnapshot), blobOk, clock)
    {
      FinishProcess(onStopSnapshot, blobOk, clock);
    }

    /** The safety timeout two seconds after `stopRecording`. */
    method SafetyTimer(blobOk: bool, clock: Clock)
      requires Valid() && safetyArmed
      modifies this
      ensures Valid() && FinishEffect(old(capturedImage), blobOk, clock)
    {
      FinishProcess(capturedImage, blobOk, clock);
    }

    /** `finishProcess`: after its first run every call returns at once. `snapshot` is the
        `capturedImage` its caller sees. */
    method FinishProcess(snapshot: Option<string>, blobOk: bool, clock: Clock)
      requires Valid() && Rank(status) >= 2
      modifies this
      ensures Valid() && FinishEffect(snapshot, blobOk, clock)
    {
      if hasFinished {
        return;
      }
      hasFinished := true;
      finishRuns := finishRuns + 1;
      if |chunks| > 0 && blobOk {
        readerPending := true;
        readerSnapshot := snapshot;
        return;
      }
      SaveAndExit(snapshot, None, clock);
    }

    /** The FileReader's `onloadend`, which fires whether the read succeeded or not.
        `readOk` says whether it did and `video` is the text after the data URL's comma.
        After a failed read `result` is null, the handler throws before `saveAndExit`, and
        nothing is saved: the screen stays in processing, and since the finisher's flag is
        already set, the safety net that fires later does nothing either. */
    method OnReadEnd(readOk: bool, video: Option<string>, clock: Clock)
      requires Valid() && readerPending
      modifies this
      ensures Valid() && !readerPending
      ensures readOk ==>
        status == Succeeded && record == Some(MakeRecord(medName, old(readerSnapshot), video, clock))
        && medLogs == PrependTruncate(record.value, old(medLogs))
      ensures !readOk ==> status == old(status) == Processing && record == None && medLogs == old(medLogs)
      ensures hasFinished && stopRequested == old(stopRequested) && safetyArmed == old(safetyArmed)
      ensures capturedImage == old(capturedImage)
    {
      readerPending := false;
      if readOk {
        SaveAndExit(readerSnapshot, video, clock);
      }
    }

    /** `saveAndExit`: success, the record, and the log with the record in front. */
    method SaveAndExit(snapshot: Option<string>, video: Option<string>, clock: Clock)
      requires status == Processing && saves == 0 && record == None && finishRuns == 1
      modifies this
      ensures status == Succeeded && saves == 1
      ensures record == Some(MakeRecord(medName, snapshot, video, clock))
      ensures medLogs == PrependTruncate(record.value, old(medLogs))
      ensures countdown == old(countdown) && chunks == old(chunks) && recorder == old(recorder)
      ensures mimeType == old(mimeType) && onStopSnapshot == old(onStopSnapshot) && capturedImage == old(capturedImage)
      ensures hasFinished == old(hasFinished) && readerPending == old(readerPending) && finishRuns == old(finishRuns)
      ensures readerSnapshot == old(readerSnapshot)
      ensures stopRequested == old(stopRequested) && safetyArmed == old(safetyArmed)
      ensures hasStream == old(hasStream) && tracksLive == old(tracksLive)
    {
      status := Succeeded;
      var r := MakeRecord(medName, snapshot, video, clock);
      record := Some(r);
      medLogs := PrependTruncate(r, medLogs);
      saves := saves + 1;
    }

    /** The camera effect's cleanup: the stream's tracks are stopped. */
    method Unmount()
      requires Valid()
      modifies this
      ensures Valid() && !tracksLive
      ensures status == old(status) && record == old(record) && medLogs == old(medLogs)
    {
      if hasStream {
        tracksLive := false;
      }
    }
  }

  /** A whole recording on the normal path: five ticks, the stop, a chunk, `onstop`, the
      reader, and then the late safety net, which changes nothing. One record is saved,
      and it carries the video; its image is the snapshot state that `onstop` sees, which
      is the one from before the recording started. */
  method NormalRecording(medName: string, shot: string, video: string, clock: Clock, later: Clock)
    returns (c: Capture)
    requires video != ""
    ensures c.status == Succeeded && c.hasFinished && c.finishRuns == 1 && c.saves == 1
    ensures c.record.Some? && c.record.value.isVideoUploaded == Some(true)
    ensures c.record.value.evidenceImage == Some("")
    ensures c.medLogs == [c.record.value]
  {
    c := new Capture(medName, []);
    c.CameraResolved(true);
    c.HandleStart(Some(shot), {"video/webm"}, true);
    assert c.mimeType == Some("video/webm") by {
      MimeTypePreference({"video/webm"});
    }
    var k := 0;
    while k < RecordingSeconds
      invariant 0 <= k <= RecordingSeconds
      invariant c.Valid() && c.status == Recording && c.countdown == RecordingSeconds - k
      invariant c.recorder == RecorderActive && c.onStopSnapshot == None
      invariant c.chunks == [] && c.record == None && c.medLogs == [] && !c.hasFinished
      modifies c
    {
      c.CountdownStep(false, true, clock);
      k := k + 1;
    }
    c.CountdownStep(false, true, clock);
    c.OnDataAvailable(1024);
    c.OnStop(true, clock);
    c.OnReadEnd(true, Some(video), clock);
    c.SafetyTimer(true, later);
  }

  /** With no recorder the stop finishes straight away without video, and the later
      safety net finds the finisher already run. */
  method NoRecorderPath(medName: string, shot: string, clock: Clock, later: Clock)
    returns (c: Capture)
    ensures c.status == Succeeded && c.finishRuns == 1 && c.saves == 1
    ensures c.record == Some(MakeRecord(medName, Some(shot), None, clock))
    ensures c.record.value.isVideoUploaded == Some(false) && c.record.value.evidenceImage == Some(shot)
  {
    c := new Capture(medName, []);
    c.HandleStart(Some(shot), {}, true);
    c.StopRecording(false, true, clock);
    c.SafetyTimer(true, later);
  }

  /** A failed read: the finisher started the reader, its `onloadend` threw, and the safety
      net two seconds later finds the flag set. Nothing is saved and the screen stays on the
      processing spinner. */
  method FailedReadStaysProcessing(medName: string, shot: string, clock: Clock, later: Clock)
    returns (c: Capture)
    ensures c.status == Processing && c.hasFinished && c.saves == 0
    ensures c.record == None && c.medLogs == []
  {
    c := new Capture(medName, []);
    c.CameraResolved(true);
    c.HandleStart(Some(shot), {"video/webm"}, true);
    c.StopRecording(false, true, clock);
    c.OnDataAvailable(1024);
    c.OnStop(true, clock);
    c.OnReadEnd(false, None, clock);
    c.SafetyTimer(true, later);
  }
}
