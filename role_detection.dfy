/** components/RoleDetection.tsx: choosing and acquiring a camera, cycling through the
    cameras, and the scan that maps the model's answer to a role. Device enumeration,
    `getUserMedia` and the role analysis are inputs: each call takes their outcomes. */
module RoleDetection {
  import opened Wrappers
  import opened Types

  /** A `MediaDeviceInfo`: its kind and its id. */
  datatype Device = Device(kind: string, deviceId: string)

  /** What `getUserMedia` is asked for: that exact device, a video device with no
      `deviceId` constraint, or the plain `{video: true}` fallback. */
  datatype Constraint = ExactDevice(deviceId: string) | AnyVideoInput | PlainVideo

  /** The error the screen shows (`t('camera_not_found')`, `t('camera_auth_error')`), or
      none. */
  datatype CameraError = NoError | NotFound | AuthError

  /** `availableDevices.filter(d => d.kind === 'videoinput')`. */
  function VideoInputs(ds: seq<Device>): (r: seq<Device>)
    ensures |r| <= |ds|
    ensures forall d :: d in r <==> d in ds && d.kind == "videoinput"
  {
    if ds == [] then []
    else if ds[0].kind == "videoinput" then [ds[0]] + VideoInputs(ds[1..])
    else VideoInputs(ds[1..])
  }

  /** `filter` keeps the order and the repetitions of the list: it works element by
      element and distributes over concatenation, so the camera at an index of the
      filtered list is the one the enumeration listed in that place among the cameras. */
  lemma {:induction false} VideoInputsKeepsOrder(xs: seq<Device>, ys: seq<Device>)
    ensures VideoInputs(xs + ys) == VideoInputs(xs) + VideoInputs(ys)
    ensures forall d :: VideoInputs([d]) == if d.kind == "videoinput" then [d] else []
    decreases |xs|
  {
    if xs == [] {
      assert xs + ys == ys;
    } else {
      var zs := xs + ys;
      assert zs[0] == xs[0];
      assert zs[1..] == xs[1..] + ys;
      VideoInputsKeepsOrder(xs[1..], ys);
      var rest := VideoInputs(xs[1..]);
      if xs[0].kind == "videoinput" {
        assert VideoInputs(zs) == [xs[0]] + (rest + VideoInputs(ys));
        assert [xs[0]] + (rest + VideoInputs(ys)) == ([xs[0]] + rest) + VideoInputs(ys);
      }
    }
    forall d ensures VideoInputs([d]) == if d.kind == "videoinput" then [d] else [] {
      VideoInputsSingleton(d);
    }
  }

  lemma VideoInputsSingleton(d: Device)
    ensures VideoInputs([d]) == if d.kind == "videoinput" then [d] else []
  {
    assert [d][1..] == [];
  }

  /** A list of cameras only is kept as it is. */
  lemma {:induction false} AllCamerasKept(ds: seq<Device>)
    requires forall i :: 0 <= i < |ds| ==> ds[i].kind == "videoinput"
    ensures VideoInputs(ds) == ds
    decreases |ds|
  {
    if ds != [] {
      AllCamerasKept(ds[1..]);
    }
  }

  /** The constraint for the camera at `index`: its exact id when that camera exists and
      its id is non-empty, no device constraint otherwise. */
  function ConstraintFor(videoDevices: seq<Device>, index: nat): (c: Constraint)
    ensures index < |videoDevices| && videoDevices[index].deviceId != "" ==>
      c == ExactDevice(videoDevices[index].deviceId)
    ensures !(index < |videoDevices| && videoDevices[index].deviceId != "") ==> c == AnyVideoInput
  {
    if index < |videoDevices| && videoDevices[index].deviceId != "" then ExactDevice(videoDevices[index].deviceId)
    else AnyVideoInput
  }

  /** How an `initCamera` run ended. */
  datatype Outcome = NoVideoInputs | Acquired | Failed

  /** The requests an `initCamera` run makes and how it ends. `enumeration` is the device
      list (None when `enumerateDevices` threw), `specificOk` and `fallbackOk` whether the
      two `getUserMedia` calls succeeded. */
  datatype Acquisition = Acquisition(requests: seq<Constraint>, outcome: Outcome)

  function Acquire(enumeration: Option<seq<Device>>, index: nat, specificOk: bool, fallbackOk: bool): Acquisition {
    if enumeration.None? then Acquisition([], Failed)
    else
      var videos := VideoInputs(enumeration.value);
      if |videos| == 0 then Acquisition([], NoVideoInputs)
      else if specificOk then Acquisition([ConstraintFor(videos, index)], Acquired)
      else if fallbackOk then Acquisition([ConstraintFor(videos, index), PlainVideo], Acquired)
      else Acquisition([ConstraintFor(videos, index), PlainVideo], Failed)
  }

  /** No stream is requested when enumeration fails or finds no camera; otherwise the
      chosen camera is requested first, and exactly one plain retry follows only when that
      request failed; the run fails when enumeration or the retry fails. */
  lemma AcquisitionRules(enumeration: Option<seq<Device>>, index: nat, specificOk: bool, fallbackOk: bool)
    ensures var a := Acquire(enumeration, index, specificOk, fallbackOk);
      && |a.requests| <= 2
      && (a.requests == [] <==> enumeration.None? || VideoInputs(enumeration.value) == [])
      && (a.outcome == NoVideoInputs <==> enumeration.Some? && forall d :: d in enumeration.value ==> d.kind != "videoinput")
      && (a.requests != [] ==> a.requests[0] == ConstraintFor(VideoInputs(enumeration.value), index))
      && (|a.requests| == 2 <==> a.requests != [] && !specificOk)
      && (|a.requests| == 2 ==> a.requests[1] == PlainVideo)
      && (a.outcome == Failed <==> enumeration.None? || (a.requests != [] && !specificOk && !fallbackOk))
  {
    if enumeration.Some? {
      var videos := VideoInputs(enumeration.value);
      if videos != [] {
        assert videos[0] in enumeration.value;
      }
    }
  }

  /** `(currentDeviceIndex + 1) % devices.length`. */
  function NextIndex(i: nat, n: nat): (r: nat)
    requires n > 0
    ensures r < n
  {
    (i + 1) % n
  }

  /** Switching k times from index i. */
  function SwitchTimes(i: nat, n: nat, k: nat): nat
    requires n > 0
  {
    if k == 0 then i else NextIndex(SwitchTimes(i, n, k - 1), n)
  }

  /** One switch moves to the next camera, and from the last camera back to the first. */
  lemma NextIndexStep(i: nat, n: nat)
    requires i < n
    ensures NextIndex(i, n) == if i + 1 < n then i + 1 else 0
  {
  }

  lemma {:induction false} SwitchTimesWraps(i: nat, n: nat, k: nat)
    requires i < n && k <= n
    ensures SwitchTimes(i, n, k) == if i + k < n then i + k else i + k - n
  {
    if k > 0 {
      SwitchTimesWraps(i, n, k - 1);
      NextIndexStep(SwitchTimes(i, n, k - 1), n);
    }
  }

  /** Cycling stays in range and visits every camera in turn: after as many switches as
      there are cameras the index is back where it started. */
  lemma SwitchingCycles(i: nat, n: nat)
    requires n > 1 && i < n
    ensures forall k :: 0 <= k <= n ==> SwitchTimes(i, n, k) < n
    ensures forall k :: 0 <= k < n - i ==> SwitchTimes(i, n, k) == i + k
    ensures SwitchTimes(i, n, n) == i
  {
    forall k | 0 <= k <= n ensures SwitchTimes(i, n, k) < n && (k < n - i ==> SwitchTimes(i, n, k) == i + k) {
      SwitchTimesWraps(i, n, k);
    }
    SwitchTimesWraps(i, n, n);
  }

  /** The analysis's role string as a role: "elderly" is the elder, anything else a
      family member. */
  function RoleOf(role: string): (r: UserRole)
    ensures r != Undetermined
    ensures r == Elderly <==> role == "elderly"
  {
    if role == "elderly" then Elderly else Child
  }

  class Detector {
    var devices: seq<Device>
    var currentIndex: nat
    var error: CameraError
    /** The stream attached to the video element (`srcObject`), by the number of the
        `getUserMedia` grant that produced it. */
    var stream: Option<nat>
    /** How many streams were granted; they are numbered from 0. */
    var granted: nat
    /** The streams whose tracks were stopped. */
    var stopped: set<nat>
    var isScanning: bool
    /** A captured frame is waiting for `analyzeUserRole`. */
    var analysisPending: bool

    /** The attached stream's tracks are live. */
    predicate TracksLive()
      reads this
    {
      stream.Some? && stream.value !in stopped
    }

    /** Every granted stream but the attached one has been stopped: at most one camera
        stream is live. */
    ghost predicate Valid()
      reads this
    {
      && (stream.Some? ==> stream.value < granted)
      && (forall s :: 0 <= s < granted && stream != Some(s) ==> s in stopped)
      && (forall s :: s in stopped ==> s < granted)
      && (analysisPending ==> isScanning)
    }

    constructor ()
      ensures Valid() && devices == [] && currentIndex == 0 && error == NoError
      ensures stream == None && granted == 0 && stopped == {} && !TracksLive()
      ensures !isScanning && !analysisPending
    {
      devices, currentIndex, error := [], 0, NoError;
      stream, granted, stopped := None, 0, {};
      isScanning, analysisPending := false, false;
    }

    /** What an `initCamera(deviceIndex)` run did: the stream attached before it was
        stopped whatever the outcome; the requests are those `Acquire` makes; a success
        attaches a new live stream and keeps the error; no camera gives `camera_not_found`,
        a failure `camera_auth_error`, and both keep the old, now stopped, stream attached;
        the device list becomes the video inputs when enumeration answered. */
    twostate predicate InitCameraEffect(deviceIndex: nat, enumeration: Option<seq<Device>>,
                                        specificOk: bool, fallbackOk: bool, requests: seq<Constraint>)
      reads this
    {
      var a := Acquire(enumeration, deviceIndex, specificOk, fallbackOk);
      && requests == a.requests
      && stopped == old(stopped) + (if old(stream).Some? then {old(stream).value} else {})
      && (old(stream).Some? ==> old(stream).value in stopped)
      && (a.outcome == Acquired ==>
            stream == Some(old(granted)) && granted == old(granted) + 1 && TracksLive() && error == old(error))
      && (a.outcome != Acquired ==> stream == old(stream) && granted == old(granted) && !TracksLive())
      && (a.outcome == NoVideoInputs ==> error == NotFound)
      && (a.outcome == Failed ==> error == AuthError)
      && (enumeration.Some? ==> devices == VideoInputs(enumeration.value))
      && (enumeration.None? ==> devices == old(devices))
      && isScanning == old(isScanning) && analysisPending == old(analysisPending)
    }

    /** `initCamera(deviceIndex)`: stop the attached stream's tracks, then enumerate and
        acquire as `Acquire` says. */
    method InitCamera(deviceIndex: nat, enumeration: Option<seq<Device>>, specificOk: bool, fallbackOk: bool)
      returns (requests: seq<Constraint>)
      requires Valid()
      modifies this
      ensures Valid() && InitCameraEffect(deviceIndex, enumeration, specificOk, fallbackOk, requests)
      ensures currentIndex == old(currentIndex)
    {
      if stream.Some? {
        stopped := stopped + {stream.value};
      }
      requests := [];
      if enumeration.None? {
        error := AuthError;
        return;
      }
      var videoDevices := VideoInputs(enumeration.value);
      devices := videoDevices;
      if |videoDevices| == 0 {
        error := NotFound;
        return;
      }
      requests := [ConstraintFor(videoDevices, deviceIndex)];
      if !specificOk {
        requests := requests + [PlainVideo];
        if !fallbackOk {
          error := AuthError;
          return;
        }
      }
      stream := Some(granted);
      granted := granted + 1;
    }

    /** `switchCamera`, whose button exists only with more than one camera: the next index,
        then `initCamera` with it. */
    method SwitchCamera(enumeration: Option<seq<Device>>, specificOk: bool, fallbackOk: bool)
      returns (requests: seq<Constraint>)
      requires Valid() && |devices| > 1
      modifies this
      ensures Valid()
      ensures currentIndex == NextIndex(old(currentIndex), |old(devices)|) && currentIndex < |old(devices)|
      ensures InitCameraEffect(currentIndex, enumeration, specificOk, fallbackOk, requests)
    {
      currentIndex := NextIndex(currentIndex, |devices|);
      requests := InitCamera(currentIndex, enumeration, specificOk, fallbackOk);
    }

    /** `handleScan` up to its await: ignored without the elements or while a scan runs;
        with no 2D context the flag is set and cleared again at once. */
    method BeginScan(elementsReady: bool, hasContext: bool) returns (started: bool)
      requires Valid()
      modifies this
      ensures Valid()
      ensures started <==> elementsReady && !old(isScanning)
      ensures !started ==> isScanning == old(isScanning) && analysisPending == old(analysisPending)
      ensures started ==> analysisPending == hasContext && isScanning == hasContext
      ensures devices == old(devices) && currentIndex == old(currentIndex) && error == old(error)
      ensures stream == old(stream) && granted == old(granted) && stopped == old(stopped)
    {
      if !elementsReady || isScanning {
        return false;
      }
      isScanning := true;
      if hasContext {
        analysisPending := true;
      } else {
        isScanning := false;
      }
      started := true;
    }

    /** The rest of `handleScan`, once the analysis answered: the role handed to
        `onRoleDetected`, and the flag cleared. */
    method FinishScan(role: string) returns (detected: UserRole)
      requires Valid() && analysisPending
      modifies this
      ensures Valid() && !isScanning && !analysisPending
      ensures detected == RoleOf(role)
      ensures devices == old(devices) && currentIndex == old(currentIndex) && error == old(error)
      ensures stream == old(stream) && granted == old(granted) && stopped == old(stopped)
    {
      detected := RoleOf(role);
      analysisPending := false;
      isScanning := false;
    }

    /** AS WRITTEN: the effect's cleanup reaches the stream through the video element's
        ref, which React has already cleared when a screen's effect cleanups run. The
        optional chain stops, and no track is stopped. */
    method UnmountAsWritten()
      requires Valid()
      modifies this
      ensures Valid()
      ensures stopped == old(stopped) && TracksLive() == old(TracksLive())
      ensures stream == old(stream) && granted == old(granted) && currentIndex == old(currentIndex)
      ensures devices == old(devices) && error == old(error) && isScanning == old(isScanning)
    {
    }

    /** CORRECTED: the cleanup stops the stream through a reference of its own (captured
        in the effect, or kept in a ref that is not a DOM ref), so no granted stream is
        left live. */
    method Unmount()
      requires Valid()
      modifies this
      ensures Valid() && !TracksLive()
      ensures forall s :: 0 <= s < granted ==> s in stopped
      ensures stopped == old(stopped) + (if old(stream).Some? then {old(stream).value} else {})
      ensures stream == old(stream) && granted == old(granted) && currentIndex == old(currentIndex)
      ensures devices == old(devices) && error == old(error) && isScanning == old(isScanning)
    {
      if stream.Some? {
        stopped := stopped + {stream.value};
      }
    }
  }

  /** As written: mounting with a camera granted and then leaving the screen leaves that
      camera live. */
  method LeaveScreenLeavesCameraLive(cam: Device) returns (d: Detector)
    requires cam.kind == "videoinput"
    ensures d.granted == 1 && d.stream == Some(0) && d.TracksLive()
  {
    d := new Detector();
    AllCamerasKept([cam]);
    var requests := d.InitCamera(0, Some([cam]), true, false);
    d.UnmountAsWritten();
  }

  /** Corrected: the same mount and leave stops the camera. */
  method LeaveScreenStopsCamera(cam: Device) returns (d: Detector)
    requires cam.kind == "videoinput"
    ensures d.granted == 1 && d.stream == Some(0) && d.stopped == {0} && !d.TracksLive()
  {
    d := new Detector();
    AllCamerasKept([cam]);
    var requests := d.InitCamera(0, Some([cam]), true, false);
    d.Unmount();
  }

  /** Corrected: mounting, switching to a second camera and leaving: two streams were
      granted, the first was stopped when the second was requested, and none is live at
      the end. */
  method SwitchThenLeave(cams: seq<Device>) returns (d: Detector)
    requires |cams| == 2 && cams[0].kind == "videoinput" && cams[1].kind == "videoinput"
    ensures d.granted == 2 && d.stopped == {0, 1} && d.currentIndex == 1 && !d.TracksLive()
  {
    d := new Detector();
    AllCamerasKept(cams);
    var first := d.InitCamera(0, Some(cams), true, false);
    assert d.stream == Some(0) && d.devices == cams;
    NextIndexStep(0, 2);
    var second := d.SwitchCamera(Some(cams), true, false);
    assert d.stream == Some(1) && d.stopped == {0};
    d.Unmount();
  }

  /** A second scan while the first is waiting for the analysis is ignored. */
  method ScanWhileScanning(role: string) returns (d: Detector, detected: UserRole)
    ensures detected == RoleOf(role) && !d.isScanning
  {
    d := new Detector();
    var first := d.BeginScan(true, true);
    var second := d.BeginScan(true, true);
    assert first && !second;
    detected := d.FinishScan(role);
  }
}
