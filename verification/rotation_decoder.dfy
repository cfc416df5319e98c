/** The rotation-robust decoder of icam/main.py and the button handler that calls it.
    The symbol decoder and the quarter-turn rotation are oracles passed as parameters;
    frames are values of an opaque type `F`. */
module RotationDecoder {
  import opened Optional
  import opened Notices

  /** Text carried by one decoded symbol. */
  type Payload = string

  /** The retry angles, in degrees, in the order the retry loop tries them. */
  const RetryAngles: seq<nat> := [90, 180, 270]

  /** Orientations tried in all: the frame as given, then one per retry angle. */
  const Orientations: nat := 4

  /** The `k` handed to the rotation for one angle: floor division by 90. */
  function QuarterTurns(angle: nat): nat
  {
    angle / 90
  }

  /** The frame the decoder sees on attempt `j`: the frame itself first, and then
      the ORIGINAL frame turned by `j` quarter-turns (never a rotation of a rotation). */
  function AttemptFrame<F>(frame: F, rot: (F, nat) -> F, j: nat): (g: F)
    requires j < Orientations
    ensures j == 0 ==> g == frame
    ensures 0 < j ==> g == rot(frame, j)
  {
    if j == 0 then frame else rot(frame, QuarterTurns(RetryAngles[j - 1]))
  }

  /** What the decoder reports on attempt `j`. */
  function Attempt<F>(frame: F, decode: F -> seq<Payload>, rot: (F, nat) -> F, j: nat): seq<Payload>
    requires j < Orientations
  {
    decode(AttemptFrame(frame, rot, j))
  }

  /** Attempt `j` is the first one at or after `lo` that reports any symbol. */
  ghost predicate HitAfter<F>(frame: F, decode: F -> seq<Payload>, rot: (F, nat) -> F, lo: nat, j: nat)
  {
    && lo <= j < Orientations
    && |Attempt(frame, decode, rot, j)| > 0
    && forall i :: lo <= i < j ==> |Attempt(frame, decode, rot, i)| == 0
  }

  /** Attempt `j` is the first of the four that reports any symbol. */
  ghost predicate FirstHit<F>(frame: F, decode: F -> seq<Payload>, rot: (F, nat) -> F, j: nat)
  {
    HitAfter(frame, decode, rot, 0, j)
  }

  /** None of the four orientations reports a symbol. */
  ghost predicate NoHit<F>(frame: F, decode: F -> seq<Payload>, rot: (F, nat) -> F)
  {
    forall i :: 0 <= i < Orientations ==> |Attempt(frame, decode, rot, i)| == 0
  }

  /** The outcome of one decode: the payload found, if any, and the frames handed
      to the decoder, in the order it was called. */
  datatype Run<F> = Run(result: Option<Payload>, calls: seq<F>)

  /** The retry loop over `RetryAngles[m..]`: rotate the original frame, decode, and
      return the first symbol of the first non-empty report. */
  function TryRotations<F>(frame: F, decode: F -> seq<Payload>, rot: (F, nat) -> F, m: nat): (run: Run<F>)
    requires m <= |RetryAngles|
    ensures |run.calls| <= |RetryAngles| - m
    ensures forall i :: 0 <= i < |run.calls| ==> run.calls[i] == AttemptFrame(frame, rot, m + 1 + i)
    ensures run.result.None? <==> forall j :: m < j < Orientations ==> |Attempt(frame, decode, rot, j)| == 0
    ensures run.result.None? ==> |run.calls| == |RetryAngles| - m
    ensures run.result.Some? ==>
              && 0 < |run.calls|
              && HitAfter(frame, decode, rot, m + 1, m + |run.calls|)
              && run.result.value == Attempt(frame, decode, rot, m + |run.calls|)[0]
    decreases |RetryAngles| - m
  {
    if m == |RetryAngles| then Run(None, [])
    else
      var rotated := rot(frame, QuarterTurns(RetryAngles[m]));
      var symbols := decode(rotated);
      assert rotated == AttemptFrame(frame, rot, m + 1) && symbols == Attempt(frame, decode, rot, m + 1);
      if |symbols| > 0 then Run(Some(symbols[0]), [rotated])
      else
        var rest := TryRotations(frame, decode, rot, m + 1);
        Run(rest.result, [rotated] + rest.calls)
  }

  /** Decode the frame as given; failing that, each rotation of the original frame
      in the fixed order; the first symbol of the first non-empty report wins. */
  function ScanQrCode<F>(frame: F, decode: F -> seq<Payload>, rot: (F, nat) -> F): (run: Run<F>)
    ensures 1 <= |run.calls| <= Orientations
    ensures forall i :: 0 <= i < |run.calls| ==> run.calls[i] == AttemptFrame(frame, rot, i)
    ensures run.result.None? <==> NoHit(frame, decode, rot)
    ensures run.result.None? ==> |run.calls| == Orientations
    ensures run.result.Some? ==>
              && FirstHit(frame, decode, rot, |run.calls| - 1)
              && run.result.value == Attempt(frame, decode, rot, |run.calls| - 1)[0]
  {
    var symbols := decode(frame);
    assert symbols == Attempt(frame, decode, rot, 0);
    if |symbols| > 0 then Run(Some(symbols[0]), [frame])
    else
      var rest := TryRotations(frame, decode, rot, 0);
      Run(rest.result, [frame] + rest.calls)
  }

  /** The first orientation that reports a symbol decides the result, and the decoder
      is called exactly once per orientation up to and including it. */
  lemma FirstHitDecides<F>(frame: F, decode: F -> seq<Payload>, rot: (F, nat) -> F, j: nat)
    requires FirstHit(frame, decode, rot, j)
    ensures ScanQrCode(frame, decode, rot).result == Some(Attempt(frame, decode, rot, j)[0])
    ensures |ScanQrCode(frame, decode, rot).calls| == j + 1
  {
  }

  /** What the button handler of icam/main.py ends in. */
  datatype Report<F> =
    | MissingUrl                    // no URL was entered
    | CaptureFailed                 // the camera gave no frame
    | Content(shown: F, payload: Payload)  // the frame was shown and a payload decoded
    | NoQrCode(shown: F)            // the frame was shown but nothing usable decoded

  /** The handler: check the URL, take the captured frame (`None` when the capture
      failed), decode it, and treat an empty payload like a miss. */
  function StartScan<F>(url: string, captured: Option<F>, decode: F -> seq<Payload>, rot: (F, nat) -> F): (r: Report<F>)
    ensures r.MissingUrl? <==> url == ""
    ensures r.CaptureFailed? <==> url != "" && captured.None?
    ensures (r.Content? || r.NoQrCode?) ==> captured == Some(r.shown)
    ensures r.Content? <==>
              && url != "" && captured.Some?
              && ScanQrCode(captured.value, decode, rot).result.Some?
              && ScanQrCode(captured.value, decode, rot).result.value != ""
    ensures r.Content? ==> r.payload != "" && ScanQrCode(r.shown, decode, rot).result == Some(r.payload)
  {
    if url == "" then MissingUrl
    else if captured.None? then CaptureFailed
    else
      var frame := captured.value;
      var data := ScanQrCode(frame, decode, rot).result;
      if data.Some? && data.value != "" then Content(frame, data.value) else NoQrCode(frame)
  }

  /** A symbol whose payload is the empty string is found by the decoder but reported
      by the handler as a miss. */
  lemma EmptyPayloadIsMiss<F>(url: string, frame: F, decode: F -> seq<Payload>, rot: (F, nat) -> F, j: nat)
    requires url != ""
    requires FirstHit(frame, decode, rot, j) && Attempt(frame, decode, rot, j)[0] == ""
    ensures ScanQrCode(frame, decode, rot).result == Some("")
    ensures StartScan(url, Some(frame), decode, rot) == NoQrCode(frame)
  {
  }

  /** The notice the handler shows for each outcome. */
  function ReportNotice<F>(r: Report<F>): (n: Notice)
    ensures n.level == Success <==> r.Content?
    ensures n.level == Warning <==> r.MissingUrl?
    ensures r.Content? ==> |r.payload| <= |n.text| && n.text[|n.text| - |r.payload|..] == r.payload
  {
    match r
    case MissingUrl => Notice(Warning, "Please enter a valid IP webcam URL.")
    case CaptureFailed => Notice(Error, "Unable to capture frame from IP webcam.")
    case Content(_, payload) => Notice(Success, "QR Code Content: " + payload)
    case NoQrCode(_) => Notice(Error, "No QR Code detected. Try again!")
  }
}
