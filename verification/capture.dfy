/**
  Capture-source selection (getMediaStreams, js/screen.js:206-235).

  The browser's device requests (getDisplayMedia, getUserMedia) are an
  abstract parameter `devices: Request -> Grant`: each request either yields
  tracks or fails with a message. The requests are issued one after the
  other in a fixed order, and the first failing one aborts the attempt.
*/
module Capture {
  import opened Wrappers

  datatype Kind = Video | Audio

  /** A media track; `id` stands for the browser's track identity. */
  datatype Track = Track(id: nat, kind: Kind)

  /** The three device requests the composer can make. */
  datatype Request =
    | DisplayRequest(withAudio: bool)       // getDisplayMedia({video, audio: withAudio})
    | CameraRequest                         // getUserMedia({video: true})
    | MicrophoneRequest(deviceId: string)   // getUserMedia({audio: {deviceId: {exact: id}}})

  /** What a request yields: the tracks of the granted stream, or a rejection. */
  datatype Grant = Granted(tracks: seq<Track>) | Refused(message: string)

  /** The form state read when recording starts: the selected recording-type
      option (if any), the microphone select's value and the system-audio checkbox. */
  datatype Selection = Selection(selectedType: Option<string>, micValue: string, systemAudioChecked: bool)

  /** Why a composition returned null. The first two are reported by the
      "Permission Error" alert; the third returns null silently. */
  datatype CaptureError =
    | PermissionError(message: string)   // a request was rejected
    | MissingScreenTrack                  // getVideoTracks()[0] was undefined, so the listener registration threw
    | NoVideoTrack                        // every request succeeded but no video track was collected

  /** A composed stream: its tracks, and the track whose 'ended' event triggers a stop. */
  datatype Composition = Composition(tracks: seq<Track>, endedWatch: Option<Track>)

  /** The record type; "screen" when no option is selected. */
  function RecordType(sel: Selection): (t: string)
    ensures sel.selectedType.None? ==> IncludesScreen(t) && !IncludesCamera(t)
  {
    if sel.selectedType.Some? then sel.selectedType.value else "screen"
  }

  predicate IncludesScreen(recordType: string) {
    recordType == "screen" || recordType == "both"
  }

  predicate IncludesCamera(recordType: string) {
    recordType == "camera" || recordType == "both"
  }

  predicate WantsMic(sel: Selection)
    ensures WantsMic(sel) ==> sel.micValue != "none"
  {
    sel.micValue != "none"
  }

  /** System audio is wanted only with a screen source, never for the camera alone. */
  predicate WantsSystemAudio(sel: Selection)
    ensures WantsSystemAudio(sel) ==> sel.systemAudioChecked && IncludesScreen(RecordType(sel))
    ensures RecordType(sel) == "camera" ==> !WantsSystemAudio(sel)
  {
    sel.systemAudioChecked && IncludesScreen(RecordType(sel))
  }

  /** `getVideoTracks()` / `getAudioTracks()`: the tracks of one kind, in stream order. */
  function TracksOf(ts: seq<Track>, k: Kind): (r: seq<Track>)
    ensures |r| <= |ts|
  {
    if ts == [] then []
    else (if ts[0].kind == k then [ts[0]] else []) + TracksOf(ts[1..], k)
  }

  /** The requests a selection calls for, in the order the composer makes them. */
  function Plan(sel: Selection): (p: seq<Request>)
    ensures |p| <= 3
  {
    var t := RecordType(sel);
    (if IncludesScreen(t) then [DisplayRequest(WantsSystemAudio(sel))] else [])
    + (if IncludesCamera(t) then [CameraRequest] else [])
    + (if WantsMic(sel) then [MicrophoneRequest(sel.micValue)] else [])
  }

  /** A step throws: its request is refused, or it is the display request and
      the granted stream has no video track to attach the 'ended' listener to. */
  predicate StepFails(req: Request, g: Grant) {
    g.Refused? || (req.DisplayRequest? && |TracksOf(g.tracks, Video)| == 0)
  }

  function StepError(req: Request, g: Grant): CaptureError
    requires StepFails(req, g)
  {
    if g.Refused? then PermissionError(g.message) else MissingScreenTrack
  }

  /** The requests actually issued: the plan up to and including the first failing step. */
  function Issued(plan: seq<Request>, devices: Request -> Grant): seq<Request>
  {
    if plan == [] then []
    else if StepFails(plan[0], devices(plan[0])) then [plan[0]]
    else [plan[0]] + Issued(plan[1..], devices)
  }

  /** The error of the first failing step, if any step fails. */
  function FirstFailure(plan: seq<Request>, devices: Request -> Grant): Option<CaptureError>
  {
    if plan == [] then None
    else if StepFails(plan[0], devices(plan[0])) then Some(StepError(plan[0], devices(plan[0])))
    else FirstFailure(plan[1..], devices)
  }

  /** The video tracks one granted request contributes. */
  function VideoPart(req: Request, g: Grant): seq<Track> {
    if g.Granted? && !req.MicrophoneRequest? then TracksOf(g.tracks, Video) else []
  }

  /** The audio tracks one granted request contributes: system audio only when it was asked for. */
  function AudioPart(req: Request, g: Grant): seq<Track> {
    if g.Refused? then []
    else match req
      case DisplayRequest(withAudio) => if withAudio then TracksOf(g.tracks, Audio) else []
      case CameraRequest => []
      case MicrophoneRequest(_) => TracksOf(g.tracks, Audio)
  }

  /** All video tracks the plan collects, request by request. */
  function VideoFrom(plan: seq<Request>, devices: Request -> Grant): seq<Track>
  {
    if plan == [] then [] else VideoPart(plan[0], devices(plan[0])) + VideoFrom(plan[1..], devices)
  }

  /** All audio tracks the plan collects, request by request. */
  function AudioFrom(plan: seq<Request>, devices: Request -> Grant): seq<Track>
  {
    if plan == [] then [] else AudioPart(plan[0], devices(plan[0])) + AudioFrom(plan[1..], devices)
  }

  /** Issuing two plans one after the other: a failure in the first ends the attempt. */
  lemma {:induction false} ConcatenatedFailure(a: seq<Request>, b: seq<Request>, devices: Request -> Grant)
    ensures FirstFailure(a + b, devices) ==
      if FirstFailure(a, devices).Some? then FirstFailure(a, devices) else FirstFailure(b, devices)
    decreases |a|
  {
    if a != [] {
      assert (a + b)[0] == a[0] && (a + b)[1..] == a[1..] + b;
      ConcatenatedFailure(a[1..], b, devices);
    } else {
      assert a + b == b;
    }
  }

  /** The requests issued for two plans one after the other: the second plan
      is reached only when the first one succeeds. */
  lemma {:induction false} ConcatenatedIssued(a: seq<Request>, b: seq<Request>, devices: Request -> Grant)
    ensures Issued(a + b, devices) ==
      if FirstFailure(a, devices).Some? then Issued(a, devices) else a + Issued(b, devices)
    decreases |a|
  {
    if a != [] {
      assert (a + b)[0] == a[0] && (a + b)[1..] == a[1..] + b;
      ConcatenatedIssued(a[1..], b, devices);
      if !StepFails(a[0], devices(a[0])) {
        assert FirstFailure(a, devices) == FirstFailure(a[1..], devices);
        assert a == [a[0]] + a[1..];
      }
    } else {
      assert a + b == b;
    }
  }

  /** The video tracks of two plans one after the other: the first plan's come first. */
  lemma {:induction false} ConcatenatedVideo(a: seq<Request>, b: seq<Request>, devices: Request -> Grant)
    ensures VideoFrom(a + b, devices) == VideoFrom(a, devices) + VideoFrom(b, devices)
    decreases |a|
  {
    if a != [] {
      assert (a + b)[0] == a[0] && (a + b)[1..] == a[1..] + b;
      ConcatenatedVideo(a[1..], b, devices);
    } else {
      assert a + b == b;
    }
  }

  /** The audio tracks of two plans one after the other: the first plan's come first. */
  lemma {:induction false} ConcatenatedAudio(a: seq<Request>, b: seq<Request>, devices: Request -> Grant)
    ensures AudioFrom(a + b, devices) == AudioFrom(a, devices) + AudioFrom(b, devices)
    decreases |a|
  {
    if a != [] {
      assert (a + b)[0] == a[0] && (a + b)[1..] == a[1..] + b;
      ConcatenatedAudio(a[1..], b, devices);
    } else {
      assert a + b == b;
    }
  }

  /** When no step fails, every planned request is issued. */
  lemma {:induction false} IssuedAll(plan: seq<Request>, devices: Request -> Grant)
    requires FirstFailure(plan, devices).None?
    ensures Issued(plan, devices) == plan
    decreases |plan|
  {
    if plan != [] {
      IssuedAll(plan[1..], devices);
    }
  }

  /** After issuing `part`: the error thrown (if any), the requests issued
      and, when nothing was thrown, the tracks collected are those the specification
      functions give for `part`. */
  predicate Collected(part: seq<Request>, devices: Request -> Grant, thrown: Option<CaptureError>,
                      issued: seq<Request>, video: seq<Track>, audio: seq<Track>)
  {
    && thrown == FirstFailure(part, devices)
    && issued == Issued(part, devices)
    && (thrown.None? ==> video == VideoFrom(part, devices) && audio == AudioFrom(part, devices))
  }

  /** Issuing `b` after `a` when `a` threw nothing: the results add up. */
  lemma Append(a: seq<Request>, b: seq<Request>, devices: Request -> Grant,
               issued: seq<Request>, video: seq<Track>, audio: seq<Track>,
               thrown': Option<CaptureError>, issued': seq<Request>, video': seq<Track>, audio': seq<Track>)
    requires Collected(a, devices, None, issued, video, audio)
    requires Collected(b, devices, thrown', issued', video', audio')
    ensures Collected(a + b, devices, thrown', issued + issued', video + video', audio + audio')
  {
    ConcatenatedFailure(a, b, devices);
    ConcatenatedIssued(a, b, devices);
    IssuedAll(a, devices);
    ConcatenatedVideo(a, b, devices);
    ConcatenatedAudio(a, b, devices);
  }

  /** Once `a` has thrown, issuing `b` is skipped and nothing changes. */
  lemma Skip(a: seq<Request>, b: seq<Request>, devices: Request -> Grant,
             thrown: Option<CaptureError>, issued: seq<Request>, video: seq<Track>, audio: seq<Track>)
    requires thrown.Some? && Collected(a, devices, thrown, issued, video, audio)
    ensures Collected(a + b, devices, thrown, issued, video, audio)
  {
    ConcatenatedFailure(a, b, devices);
    ConcatenatedIssued(a, b, devices);
  }

  /** A plan of one request. */
  lemma Single(req: Request, devices: Request -> Grant)
    ensures FirstFailure([req], devices) ==
      if StepFails(req, devices(req)) then Some(StepError(req, devices(req))) else None
    ensures Issued([req], devices) == [req]
    ensures VideoFrom([req], devices) == VideoPart(req, devices(req))
    ensures AudioFrom([req], devices) == AudioPart(req, devices(req))
  {
    assert [req][1..] == [];
  }

  /** The display-capture block: getDisplayMedia, then its video tracks, its
      audio tracks when system audio is wanted, then the 'ended' listener on
      the first video track. */
  method CaptureScreen(wantsSystemAudio: bool, devices: Request -> Grant)
    returns (thrown: Option<CaptureError>, video: seq<Track>, audio: seq<Track>, watch: Option<Track>)
    ensures var req := DisplayRequest(wantsSystemAudio);
      Collected([req], devices, thrown, [req], video, audio)
    ensures thrown.None? ==> watch.Some? && |video| > 0 && watch.value == video[0]
    ensures thrown.Some? ==> watch.None?
  {
    var req := DisplayRequest(wantsSystemAudio);
    var screen := devices(req);
    Single(req, devices);
    video, audio, watch := [], [], None;
    if screen.Refused? {
      return Some(PermissionError(screen.message)), video, audio, watch;
    }
    video := video + TracksOf(screen.tracks, Video);
    if wantsSystemAudio {
      audio := audio + TracksOf(screen.tracks, Audio);
    }
    var screenVideo := TracksOf(screen.tracks, Video);
    if |screenVideo| == 0 {
      // getVideoTracks()[0] is undefined: registering the 'ended' listener throws.
      return Some(MissingScreenTrack), video, audio, watch;
    }
    thrown, watch := None, Some(screenVideo[0]);
  }

  /** The camera block: getUserMedia({video: true}), then its video tracks. */
  method CaptureCamera(devices: Request -> Grant) returns (thrown: Option<CaptureError>, video: seq<Track>)
    ensures Collected([CameraRequest], devices, thrown, [CameraRequest], video, [])
  {
    var cam := devices(CameraRequest);
    Single(CameraRequest, devices);
    if cam.Refused? {
      return Some(PermissionError(cam.message)), [];
    }
    thrown, video := None, TracksOf(cam.tracks, Video);
  }

  /** The microphone block: getUserMedia for the chosen device, then its audio tracks. */
  method CaptureMicrophone(deviceId: string, devices: Request -> Grant)
    returns (thrown: Option<CaptureError>, audio: seq<Track>)
    ensures var req := MicrophoneRequest(deviceId);
      Collected([req], devices, thrown, [req], [], audio)
  {
    var req := MicrophoneRequest(deviceId);
    var mic := devices(req);
    Single(req, devices);
    if mic.Refused? {
      return Some(PermissionError(mic.message)), [];
    }
    thrown, audio := None, TracksOf(mic.tracks, Audio);
  }

  /** The screen phase of getMediaStreams: the display block when the record
      type includes the screen, nothing otherwise. */
  method ScreenPhase(screenType: bool, wantsSystemAudio: bool, devices: Request -> Grant)
    returns (thrown: Option<CaptureError>, issued: seq<Request>, video: seq<Track>, audio: seq<Track>,
             watch: Option<Track>)
    ensures Collected(if screenType then [DisplayRequest(wantsSystemAudio)] else [],
                      devices, thrown, issued, video, audio)
    ensures thrown.None? ==> (watch.Some? <==> screenType)
    ensures thrown.None? && watch.Some? ==> |video| > 0 && watch.value == video[0]
    ensures thrown.Some? ==> watch.None?
  {
    if screenType {
      thrown, video, audio, watch := CaptureScreen(wantsSystemAudio, devices);
      issued := [DisplayRequest(wantsSystemAudio)];
    } else {
      thrown, issued, video, audio, watch := None, [], [], [], None;
    }
  }

  /** The camera phase: skipped once an earlier block threw; otherwise the
      camera block when the record type includes the camera. */
  method CameraPhase(ghost prefix: seq<Request>, cameraType: bool, devices: Request -> Grant,
                     thrown: Option<CaptureError>, issued: seq<Request>, video: seq<Track>, audio: seq<Track>)
    returns (thrown': Option<CaptureError>, issued': seq<Request>, video': seq<Track>)
    requires Collected(prefix, devices, thrown, issued, video, audio)
    ensures Collected(prefix + (if cameraType then [CameraRequest] else []),
                      devices, thrown', issued', video', audio)
    ensures video <= video'
    ensures thrown'.None? ==> thrown.None?
  {
    ghost var part := if cameraType then [CameraRequest] else [];
    if thrown.None? && cameraType {
      var t, v := CaptureCamera(devices);
      Append(prefix, part, devices, issued, video, audio, t, [CameraRequest], v, []);
      assert audio + [] == audio;
      thrown', issued', video' := t, issued + [CameraRequest], video + v;
    } else {
      if thrown.Some? {
        Skip(prefix, part, devices, thrown, issued, video, audio);
      } else {
        assert prefix + part == prefix;
      }
      thrown', issued', video' := thrown, issued, video;
    }
  }

  /** The microphone phase: skipped once an earlier block threw; otherwise
      the microphone block when a microphone is chosen. */
  method MicrophonePhase(ghost prefix: seq<Request>, wantsMic: bool, deviceId: string, devices: Request -> Grant,
                         thrown: Option<CaptureError>, issued: seq<Request>, video: seq<Track>, audio: seq<Track>)
    returns (thrown': Option<CaptureError>, issued': seq<Request>, audio': seq<Track>)
    requires Collected(prefix, devices, thrown, issued, video, audio)
    ensures Collected(prefix + (if wantsMic then [MicrophoneRequest(deviceId)] else []),
                      devices, thrown', issued', video, audio')
    ensures thrown'.None? ==> thrown.None?
  {
    var part := if wantsMic then [MicrophoneRequest(deviceId)] else [];
    if thrown.None? && wantsMic {
      var t, a := CaptureMicrophone(deviceId, devices);
      Append(prefix, part, devices, issued, video, audio, t, part, [], a);
      assert video + [] == video;
      thrown', issued', audio' := t, issued + part, audio + a;
    } else {
      if thrown.Some? {
        Skip(prefix, part, devices, thrown, issued, video, audio);
      } else {
        assert prefix + part == prefix;
      }
      thrown', issued', audio' := thrown, issued, audio;
    }
  }

  /** getMediaStreams yields a stream: no request fails and a video track was collected. */
  predicate Composes(sel: Selection, devices: Request -> Grant) {
    FirstFailure(Plan(sel), devices).None? && |VideoFrom(Plan(sel), devices)| > 0
  }

  /** The tracks of the composed stream: all video tracks, then all audio tracks. */
  function ComposedTracks(sel: Selection, devices: Request -> Grant): seq<Track> {
    VideoFrom(Plan(sel), devices) + AudioFrom(Plan(sel), devices)
  }

  /**
    getMediaStreams: issues the planned requests in order, collecting video
    tracks (screen, then camera) and audio tracks (system audio, then
    microphone); returns all video tracks followed by all audio tracks, or a
    failure when a request throws or no video track was collected.
  */
  method GetMediaStreams(sel: Selection, devices: Request -> Grant)
    returns (issued: seq<Request>, r: Result<Composition, CaptureError>)
    ensures issued == Issued(Plan(sel), devices)
    ensures FirstFailure(Plan(sel), devices).Some? ==> r == Failure(FirstFailure(Plan(sel), devices).value)
    ensures FirstFailure(Plan(sel), devices).None? ==>
      (r.Success? <==> |VideoFrom(Plan(sel), devices)| > 0)
    ensures FirstFailure(Plan(sel), devices).None? && |VideoFrom(Plan(sel), devices)| == 0 ==>
      r == Failure(NoVideoTrack)
    ensures r.Success? <==> Composes(sel, devices)
    ensures r.Success? ==> r.value.tracks == ComposedTracks(sel, devices)
    ensures r.Success? ==>
      r.value.endedWatch == if IncludesScreen(RecordType(sel)) then Some(r.value.tracks[0]) else None
  {
    var recordType := RecordType(sel);
    var wantsMic := WantsMic(sel);
    var screenType := IncludesScreen(recordType);
    var cameraType := IncludesCamera(recordType);
    var wantsSystemAudio := WantsSystemAudio(sel);
    ghost var screenPart := if screenType then [DisplayRequest(wantsSystemAudio)] else [];
    ghost var cameraPart := if cameraType then [CameraRequest] else [];

    var thrown, screenVideo, videoTracks, audioTracks, watch;
    thrown, issued, screenVideo, audioTracks, watch := ScreenPhase(screenType, wantsSystemAudio, devices);
    thrown, issued, videoTracks :=
      CameraPhase(screenPart, cameraType, devices, thrown, issued, screenVideo, audioTracks);
    thrown, issued, audioTracks :=
      MicrophonePhase(screenPart + cameraPart, wantsMic, sel.micValue, devices, thrown, issued, videoTracks, audioTracks);
    assert Plan(sel) == screenPart + cameraPart + (if wantsMic then [MicrophoneRequest(sel.micValue)] else []);

    if thrown.Some? {
      r := Failure(thrown.value);
    } else if |videoTracks| == 0 {
      r := Failure(NoVideoTrack);
    } else {
      r := Success(Composition(videoTracks + audioTracks, watch));
    }
  }

  // Properties of the selection logic.

  /** A plan of at most one request collects what that request contributes. */
  lemma Optional(req: Request, present: bool, devices: Request -> Grant)
    ensures VideoFrom(if present then [req] else [], devices) == if present then VideoPart(req, devices(req)) else []
    ensures AudioFrom(if present then [req] else [], devices) == if present then AudioPart(req, devices(req)) else []
  {
    if present {
      Single(req, devices);
    }
  }

  /** The composed stream's order, source by source: the screen's video, the
      camera's video, the system audio, then the microphone's audio. */
  lemma ComposedOrder(sel: Selection, devices: Request -> Grant)
    ensures var t := RecordType(sel);
      var d := DisplayRequest(WantsSystemAudio(sel));
      var m := MicrophoneRequest(sel.micValue);
      ComposedTracks(sel, devices) ==
        (if IncludesScreen(t) then VideoPart(d, devices(d)) else [])
        + (if IncludesCamera(t) then VideoPart(CameraRequest, devices(CameraRequest)) else [])
        + (if IncludesScreen(t) then AudioPart(d, devices(d)) else [])
        + (if WantsMic(sel) then AudioPart(m, devices(m)) else [])
  {
    var t := RecordType(sel);
    var d := DisplayRequest(WantsSystemAudio(sel));
    var m := MicrophoneRequest(sel.micValue);
    assert Plan(sel) == (if IncludesScreen(t) then [d] else []) + (if IncludesCamera(t) then [CameraRequest] else [])
                        + (if WantsMic(sel) then [m] else []);
    OptionalTracks(d, IncludesScreen(t), IncludesCamera(t), m, WantsMic(sel), devices);
  }

  /** The tracks of a plan of an optional display, camera and microphone
      request, video before audio. */
  lemma OptionalTracks(d: Request, screen: bool, camera: bool, m: Request, mic: bool, devices: Request -> Grant)
    requires m.MicrophoneRequest?
    ensures var plan := (if screen then [d] else []) + (if camera then [CameraRequest] else []) + (if mic then [m] else []);
      VideoFrom(plan, devices) + AudioFrom(plan, devices) ==
        (if screen then VideoPart(d, devices(d)) else [])
        + (if camera then VideoPart(CameraRequest, devices(CameraRequest)) else [])
        + (if screen then AudioPart(d, devices(d)) else [])
        + (if mic then AudioPart(m, devices(m)) else [])
  {
    OptionalVideo(d, screen, camera, m, mic, devices);
    OptionalAudio(d, screen, camera, m, mic, devices);
  }

  /** The video of a plan of an optional display, camera and microphone
      request: the display's, then the camera's. */
  lemma OptionalVideo(d: Request, screen: bool, camera: bool, m: Request, mic: bool, devices: Request -> Grant)
    requires m.MicrophoneRequest?
    ensures var plan := (if screen then [d] else []) + (if camera then [CameraRequest] else []) + (if mic then [m] else []);
      VideoFrom(plan, devices) ==
        (if screen then VideoPart(d, devices(d)) else []) + (if camera then VideoPart(CameraRequest, devices(CameraRequest)) else [])
  {
    var sp := if screen then [d] else [];
    var cp := if camera then [CameraRequest] else [];
    var mp := if mic then [m] else [];
    Optional(d, screen, devices);
    Optional(CameraRequest, camera, devices);
    Optional(m, mic, devices);
    ThreeParts(sp, cp, mp, devices);
    assert VideoFrom(mp, devices) == [];
  }

  /** The audio of a plan of an optional display, camera and microphone
      request: the display's, then the microphone's. */
  lemma OptionalAudio(d: Request, screen: bool, camera: bool, m: Request, mic: bool, devices: Request -> Grant)
    ensures var plan := (if screen then [d] else []) + (if camera then [CameraRequest] else []) + (if mic then [m] else []);
      AudioFrom(plan, devices) ==
        (if screen then AudioPart(d, devices(d)) else []) + (if mic then AudioPart(m, devices(m)) else [])
  {
    var sp := if screen then [d] else [];
    var cp := if camera then [CameraRequest] else [];
    var mp := if mic then [m] else [];
    Optional(d, screen, devices);
    Optional(CameraRequest, camera, devices);
    Optional(m, mic, devices);
    ThreeParts(sp, cp, mp, devices);
    assert AudioFrom(cp, devices) == [];
  }

  /** A plan in three parts collects the tracks of each part, in order. */
  lemma ThreeParts(a: seq<Request>, b: seq<Request>, c: seq<Request>, devices: Request -> Grant)
    ensures VideoFrom(a + b + c, devices) == VideoFrom(a, devices) + VideoFrom(b, devices) + VideoFrom(c, devices)
    ensures AudioFrom(a + b + c, devices) == AudioFrom(a, devices) + AudioFrom(b, devices) + AudioFrom(c, devices)
  {
    ConcatenatedVideo(a + b, c, devices);
    ConcatenatedVideo(a, b, devices);
    ConcatenatedAudio(a + b, c, devices);
    ConcatenatedAudio(a, b, devices);
  }

  /** `getVideoTracks()`/`getAudioTracks()` keep exactly the stream's tracks of that kind. */
  lemma {:induction false} TracksOfExactly(ts: seq<Track>, k: Kind)
    ensures forall t :: t in TracksOf(ts, k) <==> t in ts && t.kind == k
    decreases |ts|
  {
    if ts != [] {
      TracksOfExactly(ts[1..], k);
      assert ts == [ts[0]] + ts[1..];
    }
  }

  /** Every track the plan collects as video is a video track. */
  lemma {:induction false} VideoFromIsVideo(plan: seq<Request>, devices: Request -> Grant)
    ensures forall t :: t in VideoFrom(plan, devices) ==> t.kind == Video
    decreases |plan|
  {
    if plan != [] {
      var g := devices(plan[0]);
      if g.Granted? { TracksOfExactly(g.tracks, Video); }
      VideoFromIsVideo(plan[1..], devices);
    }
  }

  /** Every track the plan collects as audio is an audio track. */
  lemma {:induction false} AudioFromIsAudio(plan: seq<Request>, devices: Request -> Grant)
    ensures forall t :: t in AudioFrom(plan, devices) ==> t.kind == Audio
    decreases |plan|
  {
    if plan != [] {
      var g := devices(plan[0]);
      if g.Granted? { TracksOfExactly(g.tracks, Audio); }
      AudioFromIsAudio(plan[1..], devices);
    }
  }

  /** The composed stream lists its video tracks before its audio tracks:
      no audio track precedes a video track. */
  lemma VideoBeforeAudio(plan: seq<Request>, devices: Request -> Grant, i: nat, j: nat)
    requires i < j < |VideoFrom(plan, devices) + AudioFrom(plan, devices)|
    requires (VideoFrom(plan, devices) + AudioFrom(plan, devices))[j].kind == Video
    ensures (VideoFrom(plan, devices) + AudioFrom(plan, devices))[i].kind == Video
    ensures j < |VideoFrom(plan, devices)|
  {
    var v, a := VideoFrom(plan, devices), AudioFrom(plan, devices);
    VideoFromIsVideo(plan, devices);
    AudioFromIsAudio(plan, devices);
    assert (v + a)[i] == v[i];
    assert v[i] in v;
  }

  /** No failure is reported exactly when no planned step fails. */
  lemma {:induction false} NoFailureIffNoStepFails(plan: seq<Request>, devices: Request -> Grant)
    ensures FirstFailure(plan, devices).None? <==>
      forall i :: 0 <= i < |plan| ==> !StepFails(plan[i], devices(plan[i]))
    decreases |plan|
  {
    if plan != [] {
      NoFailureIffNoStepFails(plan[1..], devices);
      if !StepFails(plan[0], devices(plan[0])) {
        forall i | 0 < i < |plan|
          ensures StepFails(plan[i], devices(plan[i])) == StepFails(plan[1..][i - 1], devices(plan[1..][i - 1]))
        {
          assert plan[1..][i - 1] == plan[i];
        }
      }
    }
  }

  /** The issued requests are a prefix of the plan; when a step fails, the
      last one issued is the failing one and it determines the error. */
  lemma {:induction false} IssuedPrefix(plan: seq<Request>, devices: Request -> Grant)
    ensures Issued(plan, devices) <= plan
    ensures FirstFailure(plan, devices).Some? ==>
      var issued := Issued(plan, devices);
      && |issued| > 0
      && var last := issued[|issued| - 1];
      && StepFails(last, devices(last))
      && FirstFailure(plan, devices).value == StepError(last, devices(last))
    ensures FirstFailure(plan, devices).None? ==> Issued(plan, devices) == plan
    decreases |plan|
  {
    if plan != [] {
      IssuedPrefix(plan[1..], devices);
      if !StepFails(plan[0], devices(plan[0])) {
        var rest := Issued(plan[1..], devices);
        assert Issued(plan, devices) == [plan[0]] + rest;
        assert plan == [plan[0]] + plan[1..];
      }
    }
  }

  /** The display request asks for system audio exactly when the checkbox is
      checked and the record type includes the screen; the camera and the
      microphone are requested exactly when selected. */
  lemma PlannedRequests(sel: Selection)
    ensures DisplayRequest(true) in Plan(sel) <==> sel.systemAudioChecked && IncludesScreen(RecordType(sel))
    ensures DisplayRequest(false) in Plan(sel) <==> !sel.systemAudioChecked && IncludesScreen(RecordType(sel))
    ensures CameraRequest in Plan(sel) <==> IncludesCamera(RecordType(sel))
    ensures (exists d :: MicrophoneRequest(d) in Plan(sel)) <==> WantsMic(sel)
    ensures WantsMic(sel) ==> MicrophoneRequest(sel.micValue) in Plan(sel)
  {
    var t := RecordType(sel);
    var s := if IncludesScreen(t) then [DisplayRequest(WantsSystemAudio(sel))] else [];
    var c := if IncludesCamera(t) then [CameraRequest] else [];
    var m := if WantsMic(sel) then [MicrophoneRequest(sel.micValue)] else [];
    assert Plan(sel) == s + c + m;
    if WantsMic(sel) {
      assert MicrophoneRequest(sel.micValue) in m;
    }
  }

  /** The display request, when made, comes first and the microphone
      request, when made, comes last; nothing is requested only when no
      source is selected. */
  lemma PlanOrder(sel: Selection)
    ensures Plan(sel) == [] <==>
      !IncludesScreen(RecordType(sel)) && !IncludesCamera(RecordType(sel)) && !WantsMic(sel)
    ensures IncludesScreen(RecordType(sel)) ==> Plan(sel)[0] == DisplayRequest(WantsSystemAudio(sel))
    ensures WantsMic(sel) ==> Plan(sel)[|Plan(sel)| - 1] == MicrophoneRequest(sel.micValue)
  {
  }

  /** Screen with system audio and no microphone: one display request with
      audio; when its stream carries a video and an audio track, both the
      video and the audio of the composition come from it. */
  lemma ScreenWithSystemAudio(devices: Request -> Grant, ts: seq<Track>, v: Track, a: Track)
    requires devices(DisplayRequest(true)) == Granted(ts)
    requires v in ts && v.kind == Video && a in ts && a.kind == Audio
    ensures var sel := Selection(Some("screen"), "none", true);
      && Plan(sel) == [DisplayRequest(true)]
      && FirstFailure(Plan(sel), devices).None?
      && VideoFrom(Plan(sel), devices) == TracksOf(ts, Video)
      && AudioFrom(Plan(sel), devices) == TracksOf(ts, Audio)
      && v in VideoFrom(Plan(sel), devices) && a in AudioFrom(Plan(sel), devices)
  {
    var sel := Selection(Some("screen"), "none", true);
    assert Plan(sel) == [DisplayRequest(true)];
    TracksOfExactly(ts, Video);
    TracksOfExactly(ts, Audio);
    Single(DisplayRequest(true), devices);
  }

  /** Camera with microphone "X": the camera is granted, the microphone is
      refused, so the attempt fails with the refusal after both requests. */
  lemma CameraThenRefusedMicrophone(devices: Request -> Grant, message: string)
    requires devices(CameraRequest).Granted?
    requires devices(MicrophoneRequest("X")) == Refused(message)
    ensures var sel := Selection(Some("camera"), "X", false);
      && Plan(sel) == [CameraRequest, MicrophoneRequest("X")]
      && FirstFailure(Plan(sel), devices) == Some(PermissionError(message))
      && Issued(Plan(sel), devices) == Plan(sel)
  {
    var sel := Selection(Some("camera"), "X", false);
    var plan := [CameraRequest, MicrophoneRequest("X")];
    assert Plan(sel) == plan;
    assert plan[1..] == [MicrophoneRequest("X")];
    Single(MicrophoneRequest("X"), devices);
  }
}
