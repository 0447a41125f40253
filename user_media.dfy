/**
 * The camera source manager: the constraints asked of the browser, the
 * bookkeeping of the tracks it holds, the user-facing error messages and the
 * device list.  The browser's answers (whether the media API exists, the
 * outcome of the camera request and of device enumeration) are parameters.
 */
module CameraSource {
  import opened Wrappers

  // ---------------------------------------------------------------------
  // Constraints.
  // ---------------------------------------------------------------------

  datatype Resolution = R480p | R720p | R1080p
  datatype FacingMode = User | Environment

  /** The ideal capture size of each resolution tier. */
  function IdealSize(r: Resolution): (size: (int, int))
    ensures size.0 > size.1 > 0
  {
    match r
    case R480p => (640, 480)
    case R720p => (1280, 720)
    case R1080p => (1920, 1080)
  }

  datatype MediaOptions = MediaOptions(deviceId: Option<string>, resolution: Option<Resolution>, facingMode: Option<FacingMode>)

  datatype VideoConstraints = VideoConstraints(idealWidth: int, idealHeight: int, facingMode: FacingMode, exactDeviceId: Option<string>)
  datatype Constraints = Constraints(video: VideoConstraints, audio: bool)

  const DefaultResolution: Resolution := R720p
  const DefaultFacingMode: FacingMode := User

  /** The tier the options ask for, 720p when they name none. */
  function RequestedResolution(opts: Option<MediaOptions>): Resolution {
    if opts.Some? && opts.value.resolution.Some? then opts.value.resolution.value else DefaultResolution
  }

  /**
   * The video constraints for the options: the tier's ideal size (720p when
   * absent), the facing mode (user when absent), an exact device id exactly
   * when a non-empty one is given, and never audio.
   */
  function GetConstraints(opts: Option<MediaOptions>): (c: Constraints)
    ensures !c.audio
    ensures (c.video.idealWidth, c.video.idealHeight) == IdealSize(RequestedResolution(opts))
    ensures c.video.facingMode == if opts.Some? && opts.value.facingMode.Some? then opts.value.facingMode.value else DefaultFacingMode
    ensures c.video.exactDeviceId.Some? <==> opts.Some? && opts.value.deviceId.Some? && opts.value.deviceId.value != []
    ensures c.video.exactDeviceId.Some? ==> c.video.exactDeviceId == opts.value.deviceId
  {
    var o := opts.GetOr(MediaOptions(None, None, None));
    var size := IdealSize(o.resolution.GetOr(DefaultResolution));
    var exact := if o.deviceId.Some? && o.deviceId.value != [] then o.deviceId else None;
    Constraints(VideoConstraints(size.0, size.1, o.facingMode.GetOr(DefaultFacingMode), exact), false)
  }

  /**
   * The requested ideal width (and likewise the height) tells the tiers
   * apart: two option sets ask for the same width exactly when they request
   * the same tier.
   */
  lemma SizeIdentifiesTier(o1: Option<MediaOptions>, o2: Option<MediaOptions>)
    ensures GetConstraints(o1).video.idealWidth == GetConstraints(o2).video.idealWidth
        <==> RequestedResolution(o1) == RequestedResolution(o2)
    ensures GetConstraints(o1).video.idealHeight == GetConstraints(o2).video.idealHeight
        <==> RequestedResolution(o1) == RequestedResolution(o2)
  {
    var r1, r2 := RequestedResolution(o1), RequestedResolution(o2);
    assert IdealSize(r1).0 == IdealSize(r2).0 ==> r1 == r2 by {
      match r1
      case R480p =>
      case R720p =>
      case R1080p =>
    }
  }

  /** Passing no options asks for 1280x720 from the user-facing camera, any device, no audio. */
  lemma NoOptionsConstraints()
    ensures GetConstraints(None) == Constraints(VideoConstraints(1280, 720, User, None), false)
    ensures GetConstraints(None) == GetConstraints(Some(MediaOptions(None, None, None)))
  {
  }

  /** An empty device id is the same as none. */
  lemma EmptyDeviceIdIgnored(resolution: Option<Resolution>, facingMode: Option<FacingMode>)
    ensures GetConstraints(Some(MediaOptions(Some([]), resolution, facingMode)))
         == GetConstraints(Some(MediaOptions(None, resolution, facingMode)))
  {
  }

  // ---------------------------------------------------------------------
  // Errors.
  // ---------------------------------------------------------------------

  /** What the code reads of a thrown value: `name`, `message`, and `String(e)`. */
  datatype ThrownError = ThrownError(name: string, message: string, asString: string)

  const UnsupportedMessage: string := "Camera is not supported in this browser."
  const PermissionDeniedMessage: string :=
    "Camera permission denied. Please allow access in the browser and macOS System Settings > Privacy & Security > Camera."
  const NotFoundMessage: string := "Requested camera not found. Try a different device or resolution."

  /** `new Error('Camera is not supported in this browser.')` */
  function UnsupportedError(): (e: ThrownError)
    ensures e.message == UnsupportedMessage
    ensures e.name !in {"NotAllowedError", "NotFoundError", "OverconstrainedError"}
  {
    ThrownError("Error", UnsupportedMessage, "Error: " + UnsupportedMessage)
  }

  /**
   * The message shown for an error: permission refusal and a missing or
   * unsatisfiable camera get fixed explanations; anything else shows its own
   * message, or its string form when the message is empty.
   */
  function ErrorMessage(e: ThrownError): (msg: string)
    ensures e.name == "NotAllowedError" ==> msg == PermissionDeniedMessage
    ensures e.name == "NotFoundError" || e.name == "OverconstrainedError" ==> msg == NotFoundMessage
    ensures e.name !in {"NotAllowedError", "NotFoundError", "OverconstrainedError"} ==>
              msg == if e.message != [] then e.message else e.asString
  {
    if e.name == "NotAllowedError" then PermissionDeniedMessage
    else if e.name == "NotFoundError" || e.name == "OverconstrainedError" then NotFoundMessage
    else if e.message != [] then e.message
    else e.asString
  }

  /** A browser without the media API shows the unsupported message itself. */
  lemma UnsupportedShowsItsMessage()
    ensures ErrorMessage(UnsupportedError()) == UnsupportedMessage
  {
  }

  /** An error always yields a message unless it has neither a message nor a string form. */
  lemma MessageNonEmpty(e: ThrownError)
    requires e.message != [] || e.asString != []
    ensures ErrorMessage(e) != []
  {
    assert |PermissionDeniedMessage| > 0 && |NotFoundMessage| > 0;
  }

  // ---------------------------------------------------------------------
  // Devices.
  // ---------------------------------------------------------------------

  datatype DeviceInfo = DeviceInfo(deviceId: string, kind: string, name: string)

  const VideoInput: string := "videoinput"

  /** `list.filter(d => d.kind === 'videoinput')` */
  function VideoInputs(list: seq<DeviceInfo>): (r: seq<DeviceInfo>)
    ensures |r| <= |list|
    ensures forall i :: 0 <= i < |r| ==> r[i].kind == VideoInput && r[i] in list
    ensures forall i :: 0 <= i < |list| && list[i].kind == VideoInput ==> list[i] in r
  {
    if list == [] then []
    else (if list[0].kind == VideoInput then [list[0]] else []) + VideoInputs(list[1..])
  }

  /** The filter keeps the original order: filtering a concatenation filters each part. */
  lemma {:induction false} VideoInputsAppend(a: seq<DeviceInfo>, b: seq<DeviceInfo>)
    ensures VideoInputs(a + b) == VideoInputs(a) + VideoInputs(b)
    decreases |a|
  {
    if a != [] {
      assert (a + b)[0] == a[0] && (a + b)[1..] == a[1..] + b;
      VideoInputsAppend(a[1..], b);
      var head := if a[0].kind == VideoInput then [a[0]] else [];
      assert VideoInputs(a + b) == head + (VideoInputs(a[1..]) + VideoInputs(b));
      assert head + (VideoInputs(a[1..]) + VideoInputs(b)) == (head + VideoInputs(a[1..])) + VideoInputs(b);
    } else {
      assert a + b == b;
    }
  }

  /** A list of cameras only is kept whole. */
  lemma {:induction false} VideoInputsKeepsCameras(list: seq<DeviceInfo>)
    requires forall i :: 0 <= i < |list| ==> list[i].kind == VideoInput
    ensures VideoInputs(list) == list
    decreases |list|
  {
    if list != [] {
      VideoInputsKeepsCameras(list[1..]);
    }
  }

  datatype Enumeration = NoEnumerateDevices | EnumerationFailed | Enumerated(list: seq<DeviceInfo>)

  // ---------------------------------------------------------------------
  // Objects.
  // ---------------------------------------------------------------------

  class Track {
    var stopped: bool

    constructor ()
      ensures !stopped
    {
      stopped := false;
    }

    method Stop()
      modifies this
      ensures stopped
    {
      stopped := true;
    }
  }

  class MediaStream {
    const tracks: seq<Track>

    constructor (tracks: seq<Track>)
      ensures this.tracks == tracks
    {
      this.tracks := tracks;
    }
  }

  /** The result of `getUserMedia`. */
  datatype Acquisition = Granted(stream: MediaStream) | Rejected(error: ThrownError)

  class UserMedia {
    var stream: MediaStream?
    var error: Option<string>
    var isActive: bool
    var devices: seq<DeviceInfo>
    var currentTracks: Option<seq<Track>>
    const initial: Option<MediaOptions>
    /** The constraints of every camera request made, in order. */
    var requested: seq<Constraints>

    ghost function Held(): set<Track>
      reads this
    {
      if currentTracks.Some? then set i | 0 <= i < |currentTracks.value| :: currentTracks.value[i] else {}
    }

    constructor (initial: Option<MediaOptions>)
      ensures this.initial == initial
      ensures stream == null && error == None && !isActive && devices == [] && currentTracks == None && requested == []
    {
      this.initial := initial;
      stream := null;
      error := None;
      isActive := false;
      devices := [];
      currentTracks := None;
      requested := [];
    }

    /** Stops every held track, then holds none; safe when nothing is held. */
    method Stop()
      modifies this, Held()
      ensures forall t :: t in old(Held()) ==> t.stopped
      ensures currentTracks == None && stream == null && !isActive
      ensures error == old(error) && devices == old(devices) && requested == old(requested)
    {
      if currentTracks.Some? {
        var ts := currentTracks.value;
        for i := 0 to |ts|
          invariant currentTracks == Some(ts) && stream == old(stream) && isActive == old(isActive)
          invariant error == old(error) && devices == old(devices) && requested == old(requested)
          invariant forall j :: 0 <= j < i ==> ts[j].stopped
        {
          ts[i].Stop();
        }
      }
      currentTracks := None;
      stream := null;
      isActive := false;
    }

    /** Keeps only the cameras of a successful enumeration; otherwise the list is left as it was. */
    method RefreshDevices(enumeration: Enumeration)
      modifies this
      ensures devices == if enumeration.Enumerated? then VideoInputs(enumeration.list) else old(devices)
      ensures stream == old(stream) && error == old(error) && isActive == old(isActive)
      ensures currentTracks == old(currentTracks) && requested == old(requested)
    {
      if enumeration.Enumerated? {
        devices := VideoInputs(enumeration.list);
      }
    }

    /**
     * Clears the error and stops whatever was held, then asks for the camera
     * with the given options, or the initial ones when none are given.  On
     * success exactly the new stream's tracks are held and the device list is
     * refreshed; on failure nothing is held, the manager is inactive and the
     * error is the classified message.
     */
    method Start(opts: Option<MediaOptions>, supported: bool, acquisition: Acquisition, enumeration: Enumeration)
      modifies this, Held()
      ensures forall t :: t in old(Held()) ==> t.stopped
      ensures supported ==> requested == old(requested) + [GetConstraints(if opts.Some? then opts else initial)]
      ensures !supported ==> requested == old(requested)
      ensures supported && acquisition.Granted? ==>
                && stream == acquisition.stream && currentTracks == Some(acquisition.stream.tracks)
                && isActive && error == None
                && devices == if enumeration.Enumerated? then VideoInputs(enumeration.list) else old(devices)
      ensures !supported ==> error == Some(UnsupportedMessage)
      ensures supported && acquisition.Rejected? ==> error == Some(ErrorMessage(acquisition.error))
      ensures !supported || acquisition.Rejected? ==>
                !isActive && currentTracks == None && stream == null && devices == old(devices)
    {
      error := None;
      Stop();
      if !supported {
        UnsupportedShowsItsMessage();
        error := Some(ErrorMessage(UnsupportedError()));
        isActive := false;
        return;
      }
      requested := requested + [GetConstraints(if opts.Some? then opts else initial)];
      match acquisition
      case Rejected(e) =>
        error := Some(ErrorMessage(e));
        isActive := false;
      case Granted(s) =>
        currentTracks := Some(s.tracks);
        stream := s;
        isActive := true;
        RefreshDevices(enumeration);
    }
  }
}
