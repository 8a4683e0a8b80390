/** The QR scanner page: the camera and decoder lifecycle (`startScanner`,
    the video and decoder callbacks, `cleanupVideoAndScanner`, unmounting)
    and the correlation of a validated scan with the identifiers in the
    page's query string.

    Camera acquisition, video events and decoder callbacks arrive
    asynchronously in the source; each one is a separate method here whose
    parameters carry what the browser delivered (the stream's track ids, the
    frame size, the decode result or the error's name and message). */
module QrScan {
  import opened Wrappers
  import opened Text
  import Routes

  const DeniedMessage: string := "Camera access denied. Please allow permissions."
  const NoCameraMessage: string := "No camera found on this device."
  const CameraFailurePrefix: string := "Failed to access camera: "
  const NotReadyMessage: string := "Camera stream not ready. Please retry."
  const VideoMissingMessage: string := "Video element unavailable. Please try again."
  const MismatchMessage: string := "Invalid station or connector. Please scan the correct QR."
  const InvalidQrMessage: string := "Invalid QR code. Please try again."
  const GunQuery: string := "?gunId="

  /** A rejected camera request: the error's `name` and `message`. */
  datatype CameraFailure = CameraFailure(name: string, message: string)

  /** What one decoder callback delivered. */
  datatype DecodeEvent = Decoded(text: string) | DecodeError(name: string, message: string)

  /** The reply of the QR validation: the identifiers of a valid code
      (status 200), another status, or an exception. */
  datatype QrReply = QrValid(siteId: string, gunId: string) | QrStatus(code: int) | QrThrown(message: string)

  /** The message shown for a camera failure, classified by the error's name:
      permission denied, no camera, or any other failure with its message. */
  function CameraErrorMessage(e: CameraFailure): (msg: string)
    ensures e.name == "NotAllowedError" ==> msg == DeniedMessage
    ensures e.name == "NotFoundError" ==> msg == NoCameraMessage
    ensures e.name != "NotAllowedError" && e.name != "NotFoundError"
            ==> StartsWith(msg, CameraFailurePrefix) && msg[|CameraFailurePrefix|..] == e.message
  {
    if e.name == "NotAllowedError" then DeniedMessage
    else if e.name == "NotFoundError" then NoCameraMessage
    else CameraFailurePrefix + e.message
  }

  /** Decoder errors after which decoding silently goes on with the next frame:
      no code in the frame, or a malformed or corrupted one. */
  predicate IsSilentDecodeError(name: string)
    ensures name == "FormatException" || name == "ChecksumException" ==> !IsSilentDecodeError(name)
  {
    name == "NotFoundException" || name == "NotFoundException2"
    || name == "FormatException2" || name == "ChecksumException2"
  }

  /** The path of the charging detail page for a validated scan. */
  function DetailPath(siteId: string, gunId: string): (path: string)
    ensures StartsWith(path, Routes.DetailRoute)
    ensures path[|Routes.DetailRoute|..] == siteId + GunQuery + gunId
  {
    Routes.DetailRoute + siteId + GunQuery + gunId
  }

  datatype Correlation = Mismatch | Proceed(path: string)

  /** `validateQR`'s check of a valid scan against the query parameters: only
      when both are present (non-empty) must they match the scanned pair. */
  function Correlate(querySite: Option<string>, queryGun: Option<string>, siteId: string, gunId: string): (r: Correlation)
    ensures r.Mismatch? <==> Truthy(querySite) && Truthy(queryGun)
                             && (querySite.value != siteId || queryGun.value != gunId)
    ensures r.Proceed? ==> r.path == DetailPath(siteId, gunId)
  {
    if Truthy(querySite) && Truthy(queryGun) && (querySite.value != siteId || queryGun.value != gunId)
    then Mismatch
    else Proceed(DetailPath(siteId, gunId))
  }

  /** A scan whose identifiers agree with the query (or with no query at all)
      always proceeds to the page of exactly those identifiers. */
  lemma MatchingScanProceeds(querySite: Option<string>, queryGun: Option<string>, siteId: string, gunId: string)
    requires querySite.Some? ==> querySite.value == siteId
    requires queryGun.Some? ==> queryGun.value == gunId
    ensures Correlate(querySite, queryGun, siteId, gunId) == Proceed(DetailPath(siteId, gunId))
  {
  }

  /** The scanner page's state: the React state flags, the stream and decoder
      refs and the mounted ref. `liveTracks` is the set of camera tracks that
      have been opened and not yet stopped. */
  class Scanner {
    var mounted: bool
    var isScanning: bool
    var cameraReady: bool
    var scannedData: Option<string>
    var error: Option<string>
    var stream: Option<seq<nat>>
    var liveTracks: set<nat>
    /** A camera request is awaiting its answer. */
    var acquiring: bool
    /** The stream is the video element's source and its handlers are set. */
    var attached: bool
    /** The one-shot `canplay` listener is still registered. */
    var canplayArmed: bool
    /** The decoder is delivering callbacks (until `reset`). */
    var decoding: bool

    /** Nothing of the camera or decoder outlives the page. */
    ghost predicate Valid()
      reads this
    {
      && (stream.Some? ==> mounted)
      && (!mounted ==> !isScanning && !cameraReady && scannedData.None? && stream.None?
                       && !attached && !canplayArmed && !decoding)
    }

    constructor ()
      ensures Valid() && mounted
      ensures !isScanning && !cameraReady && scannedData.None? && error.None?
      ensures stream.None? && liveTracks == {} && !acquiring && !attached && !canplayArmed && !decoding
    {
      mounted := true;
      isScanning, cameraReady := false, false;
      scannedData, error, stream := None, None, None;
      liveTracks := {};
      acquiring, attached, canplayArmed, decoding := false, false, false, false;
    }

    /** `stream.getTracks().forEach(track => track.stop())`. */
    method StopTracks(tracks: seq<nat>)
      modifies this`liveTracks
      ensures liveTracks == old(liveTracks) - set t | t in tracks
    {
      for i := 0 to |tracks|
        invariant liveTracks == old(liveTracks) - set j | 0 <= j < i :: tracks[j]
      {
        liveTracks := liveTracks - {tracks[i]};
      }
      assert (set j | 0 <= j < |tracks| :: tracks[j]) == set t | t in tracks;
    }

    /** `cleanupVideoAndScanner`: clear the flags and the scan, reset the
        decoder, stop and drop the stream, detach the video element. */
    method Cleanup()
      requires Valid()
      modifies this
      ensures Valid() && Released()
      ensures liveTracks == old(liveTracks) - (if old(stream).Some? then set t | t in old(stream).value else {})
      ensures mounted == old(mounted) && error == old(error) && acquiring == old(acquiring)
    {
      isScanning, cameraReady := false, false;
      scannedData := None;
      decoding := false;
      if stream.Some? {
        StopTracks(stream.value);
        stream := None;
      }
      attached, canplayArmed := false, false;
    }

    /** The state cleanup leaves behind. */
    predicate Released()
      reads this
    {
      !isScanning && !cameraReady && scannedData.None? && stream.None?
      && !attached && !canplayArmed && !decoding
    }

    /** Cleanup is idempotent: a second call changes nothing. */
    method CleanupTwice()
      requires Valid()
      modifies this
      ensures Valid() && Released()
      ensures liveTracks == old(liveTracks) - (if old(stream).Some? then set t | t in old(stream).value else {})
      ensures mounted == old(mounted) && error == old(error) && acquiring == old(acquiring)
    {
      Cleanup();
      ghost var once := liveTracks;
      Cleanup();
      assert liveTracks == once;
    }

    /** `startScanner`: skipped while a scan runs, a (non-empty) result is held
        or the page is gone; otherwise the held stream is stopped first and the camera is
        requested. */
    method StartScanner() returns (started: bool)
      requires Valid()
      modifies this
      ensures Valid()
      ensures started <==> !old(isScanning) && !Truthy(old(scannedData)) && old(mounted)
      ensures !started ==> unchanged(this)
      ensures started ==> isScanning && !cameraReady && error.None? && acquiring && stream.None?
      ensures started ==> liveTracks == old(liveTracks) - (if old(stream).Some? then set t | t in old(stream).value else {})
      ensures started ==> scannedData == old(scannedData) && mounted && attached == old(attached)
                          && canplayArmed == old(canplayArmed) && decoding == old(decoding)
    {
      if isScanning || Truthy(scannedData) || !mounted {
        return false;
      }
      if stream.Some? {
        StopTracks(stream.value);
        stream := None;
      }
      isScanning := true;
      error := None;
      cameraReady := false;
      acquiring := true;
      started := true;
    }

    /** The camera request resolved with a stream of `tracks`. An unmounted
        page stops it at once; a missing video element is an error. */
    method CameraAcquired(tracks: seq<nat>, videoPresent: bool)
      requires Valid() && acquiring
      modifies this
      ensures Valid() && !acquiring
      ensures !old(mounted) ==> liveTracks == old(liveTracks) - (set t | t in tracks) && stream == old(stream)
                                && error == old(error) && !isScanning && isScanning == old(isScanning)
                                && attached == old(attached) && canplayArmed == old(canplayArmed)
      ensures old(mounted) && !videoPresent
              ==> error == Some(VideoMissingMessage) && !isScanning && stream.None?
                  && liveTracks == old(liveTracks) - (set t | t in tracks)
                  && attached == old(attached) && canplayArmed == old(canplayArmed)
      ensures old(mounted) && videoPresent
              ==> stream == Some(tracks) && attached && canplayArmed && error == old(error)
                  && isScanning == old(isScanning) && liveTracks == old(liveTracks) + (set t | t in tracks)
      ensures mounted == old(mounted) && cameraReady == old(cameraReady) && scannedData == old(scannedData)
      ensures decoding == old(decoding)
    {
      acquiring := false;
      liveTracks := liveTracks + set t | t in tracks;
      if !mounted {
        StopTracks(tracks);
        return;
      }
      stream := Some(tracks);
      if !videoPresent {
        error := Some(VideoMissingMessage);
        isScanning := false;
        StopTracks(tracks);
        stream := None;
        return;
      }
      attached, canplayArmed := true, true;
    }

    /** The camera request was rejected. */
    method CameraFailed(e: CameraFailure)
      requires Valid() && acquiring
      modifies this
      ensures Valid() && !acquiring
      ensures error == Some(CameraErrorMessage(e)) && !isScanning
      ensures mounted == old(mounted) && stream == old(stream) && liveTracks == old(liveTracks)
      ensures cameraReady == old(cameraReady) && scannedData == old(scannedData) && decoding == old(decoding)
      ensures attached == old(attached) && canplayArmed == old(canplayArmed)
    {
      acquiring := false;
      error := Some(CameraErrorMessage(e));
      isScanning := false;
    }

    /** `loadedmetadata`: the camera is ready only when both dimensions are
        positive; otherwise the scan fails and everything is cleaned up. */
    method MetadataLoaded(videoPresent: bool, width: int, height: int)
      requires Valid()
      modifies this
      ensures Valid()
      ensures !old(attached) || !old(mounted) || !videoPresent ==> unchanged(this)
      ensures old(attached) && old(mounted) && videoPresent && width > 0 && height > 0
              ==> cameraReady && isScanning == old(isScanning) && stream == old(stream) && error == old(error)
                  && scannedData == old(scannedData) && liveTracks == old(liveTracks) && attached
                  && canplayArmed == old(canplayArmed) && decoding == old(decoding)
      ensures old(attached) && old(mounted) && videoPresent && (width <= 0 || height <= 0)
              ==> error == Some(NotReadyMessage) && Released()
                  && liveTracks == old(liveTracks) - (if old(stream).Some? then set t | t in old(stream).value else {})
      ensures cameraReady ==> old(cameraReady) || (width > 0 && height > 0)
      ensures mounted == old(mounted) && acquiring == old(acquiring)
    {
      if !attached || !mounted || !videoPresent {
        return;
      }
      if width > 0 && height > 0 {
        cameraReady := true;
      } else {
        error := Some(NotReadyMessage);
        isScanning := false;
        Cleanup();
      }
    }

    /** The one-shot `canplay` listener: check the frame once more, then start
        the decoder (`decoderFailure` is the message of a decoder that failed
        to start). */
    method CanPlay(videoPresent: bool, width: int, height: int, decoderFailure: Option<string>)
      requires Valid()
      modifies this
      ensures Valid()
      ensures !old(attached) || !old(canplayArmed) ==> unchanged(this)
      ensures old(attached) && old(canplayArmed) ==> !canplayArmed
      ensures old(attached) && old(canplayArmed) && (!mounted || !videoPresent)
              ==> isScanning == old(isScanning) && cameraReady == old(cameraReady)
                  && scannedData == old(scannedData) && error == old(error) && stream == old(stream)
                  && liveTracks == old(liveTracks) && attached && decoding == old(decoding)
      ensures old(attached) && old(canplayArmed) && mounted && videoPresent && (width == 0 || height == 0)
              ==> error == Some(NotReadyMessage) && Released()
                  && liveTracks == old(liveTracks) - (if old(stream).Some? then set t | t in old(stream).value else {})
      ensures old(attached) && old(canplayArmed) && mounted && videoPresent && width != 0 && height != 0
              && decoderFailure.Some?
              ==> error == Some("Failed to start QR decoder: " + decoderFailure.value)
                  && !isScanning && !cameraReady && decoding == old(decoding)
                  && stream == old(stream) && liveTracks == old(liveTracks)
                  && scannedData == old(scannedData) && attached
      ensures old(attached) && old(canplayArmed) && mounted && videoPresent && width != 0 && height != 0
              && decoderFailure.None?
              ==> decoding && error == old(error) && isScanning == old(isScanning)
                  && cameraReady == old(cameraReady) && stream == old(stream)
                  && liveTracks == old(liveTracks) && scannedData == old(scannedData) && attached
      ensures mounted == old(mounted) && acquiring == old(acquiring)
    {
      if !attached || !canplayArmed {
        return;
      }
      canplayArmed := false;
      if !mounted || !videoPresent {
        return;
      }
      if width == 0 || height == 0 {
        error := Some(NotReadyMessage);
        isScanning, cameraReady := false, false;
        Cleanup();
        return;
      }
      if decoderFailure.Some? {
        error := Some("Failed to start QR decoder: " + decoderFailure.value);
        isScanning, cameraReady := false, false;
      } else {
        decoding := true;
      }
    }

    /** The decoder callback. A result is stored and stops the decoder; an
        error whose name is not one of the silent ones ends the scan; a silent
        one changes nothing. */
    method DecodeCallback(event: DecodeEvent)
      requires Valid()
      modifies this
      ensures Valid()
      ensures !old(decoding) || !old(mounted) ==> unchanged(this)
      ensures old(decoding) && old(mounted) && event.Decoded?
              ==> scannedData == Some(event.text) && !isScanning && !cameraReady && !decoding
                  && error == old(error) && stream == old(stream)
      ensures old(decoding) && old(mounted) && event.DecodeError? && IsSilentDecodeError(event.name)
              ==> unchanged(this)
      ensures old(decoding) && old(mounted) && event.DecodeError? && !IsSilentDecodeError(event.name)
              ==> error == Some("Scanning error: " + event.message) && !isScanning && !cameraReady
                  && scannedData == old(scannedData) && decoding && stream == old(stream)
      ensures mounted == old(mounted) && liveTracks == old(liveTracks)
      ensures attached == old(attached) && canplayArmed == old(canplayArmed) && acquiring == old(acquiring)
    {
      if !decoding || !mounted {
        return;
      }
      match event
      case Decoded(text) =>
        scannedData := Some(text);
        isScanning, cameraReady := false, false;
        decoding := false;
      case DecodeError(name, message) =>
        if !IsSilentDecodeError(name) {
          error := Some("Scanning error: " + message);
          isScanning, cameraReady := false, false;
        }
    }

    /** `validateQR`, run when a non-empty scan is held on a mounted page. It returns the
        path whose navigation it schedules, if any; a mismatch with the query
        or a failed validation drops the scan and shows an error instead. */
    method ValidateScan(reply: QrReply, querySite: Option<string>, queryGun: Option<string>)
      returns (scheduled: Option<string>)
      requires Valid()
      modifies this
      ensures Valid()
      ensures !Truthy(old(scannedData)) || !old(mounted) ==> unchanged(this) && scheduled.None?
      ensures Truthy(old(scannedData)) && old(mounted) && reply.QrValid?
              ==> match Correlate(querySite, queryGun, reply.siteId, reply.gunId)
                  case Proceed(path) => scheduled == Some(path) && unchanged(this)
                  case Mismatch => scheduled.None? && error == Some(MismatchMessage)
                                   && scannedData.None? && !isScanning
      ensures Truthy(old(scannedData)) && old(mounted) && reply.QrStatus?
              ==> scheduled.None? && error == Some(InvalidQrMessage) && scannedData.None? && !isScanning
      ensures Truthy(old(scannedData)) && old(mounted) && reply.QrThrown?
              ==> scheduled.None? && error == Some("Failed to validate QR code: " + reply.message)
                  && scannedData.None? && !isScanning
      ensures mounted == old(mounted) && stream == old(stream) && liveTracks == old(liveTracks)
      ensures cameraReady == old(cameraReady) && attached == old(attached) && canplayArmed == old(canplayArmed)
              && decoding == old(decoding) && acquiring == old(acquiring)
    {
      scheduled := None;
      if !Truthy(scannedData) || !mounted {
        return;
      }
      match reply
      case QrValid(siteId, gunId) =>
        match Correlate(querySite, queryGun, siteId, gunId) {
          case Proceed(path) =>
            scheduled := Some(path);
          case Mismatch =>
            error := Some(MismatchMessage);
            scannedData := None;
            isScanning := false;
        }
      case QrStatus(_) =>
        error := Some(InvalidQrMessage);
        scannedData := None;
        isScanning := false;
      case QrThrown(message) =>
        error := Some("Failed to validate QR code: " + message);
        scannedData := None;
        isScanning := false;
    }

    /** The two-second timer of a scheduled navigation: it navigates only if
        the page is still mounted. */
    method NavigationDue(path: string) returns (navigateTo: Option<string>)
      ensures navigateTo.Some? <==> mounted
      ensures navigateTo.Some? ==> navigateTo.value == path
    {
      navigateTo := if mounted then Some(path) else None;
    }

    /** The retry button: clear the error, the flags and the scan, then start
        the scanner again. */
    method Retry() returns (started: bool)
      requires Valid()
      modifies this
      ensures Valid()
      ensures started <==> old(mounted)
      ensures started ==> isScanning && acquiring && error.None? && scannedData.None? && stream.None?
                          && !cameraReady
                          && liveTracks == old(liveTracks) - (if old(stream).Some? then set t | t in old(stream).value else {})
      ensures !started ==> error.None? && !isScanning && scannedData.None? && !cameraReady
                           && stream == old(stream) && liveTracks == old(liveTracks) && acquiring == old(acquiring)
      ensures mounted == old(mounted) && attached == old(attached) && canplayArmed == old(canplayArmed)
              && decoding == old(decoding)
    {
      error := None;
      isScanning, cameraReady := false, false;
      scannedData := None;
      started := StartScanner();
    }

    /** Leaving the page: mark it unmounted and clean up (cleanup does not
        read the mounted flag, so the order of the two is immaterial). */
    method Unmount()
      requires Valid()
      modifies this
      ensures Valid() && Released() && !mounted
      ensures liveTracks == old(liveTracks) - (if old(stream).Some? then set t | t in old(stream).value else {})
      ensures error == old(error) && acquiring == old(acquiring)
    {
      Cleanup();
      mounted := false;
    }
  }
}
