/** The single-shot scan of icam/main2.py: open the stream, grab one frame, run the
    detector once. Capture and detection are oracles. */
module StreamScanner {
  import opened Optional
  import opened Notices

  /** What one capture attempt on the camera URL yields. */
  datatype Capture<F> =
    | StreamNotOpened   // the stream could not be opened
    | NoFrameGrabbed    // the stream opened but no frame was read
    | Grabbed(frame: F) // one frame was read

  /** A corner of a located symbol. */
  datatype Point = Point(x: real, y: real)

  /** The detector's report: decoded text (possibly empty) and the symbol's corners,
      `None` when nothing was located. */
  datatype Detection = Detection(data: string, vertices: Option<seq<Point>>)

  /** The sentinel string returned when the detector gives nothing usable. */
  const NoQrCodeDetected: string := "No QR code detected."

  /** A detection yields a payload only when a symbol was located AND its text is non-empty. */
  predicate Located(d: Detection)
  {
    d.vertices.Some? && d.data != ""
  }

  /** One scan: `None` when the capture failed, the decoded text when the detector
      located a symbol with text, the sentinel otherwise. */
  function ScanQrCode<F>(capture: Capture<F>, detect: F -> Detection): (r: Option<string>)
    ensures r.None? <==> !capture.Grabbed?
    ensures r.Some? && r.value != NoQrCodeDetected ==>
              capture.Grabbed? && Located(detect(capture.frame)) && r.value == detect(capture.frame).data
    ensures capture.Grabbed? && Located(detect(capture.frame)) ==> r == Some(detect(capture.frame).data)
    ensures capture.Grabbed? && !Located(detect(capture.frame)) ==> r == Some(NoQrCodeDetected)
    ensures r.Some? ==> r.value != ""
  {
    match capture
    case StreamNotOpened => None
    case NoFrameGrabbed => None
    case Grabbed(frame) =>
      var d := detect(frame);
      if d.vertices.Some? && d.data != "" then Some(d.data) else Some(NoQrCodeDetected)
  }

  /** The error notice the scan itself shows, if any: one per failed capture. */
  function CaptureNotices<F>(capture: Capture<F>): (ns: seq<Notice>)
    ensures |ns| <= 1
    ensures |ns| == 1 <==> !capture.Grabbed?
    ensures forall k :: 0 <= k < |ns| ==> ns[k].level == Error
  {
    match capture
    case StreamNotOpened => [Notice(Error, "Error: Could not open video stream from IP Webcam.")]
    case NoFrameGrabbed => [Notice(Error, "Error: Failed to grab frame.")]
    case Grabbed(_) => []
  }
}
