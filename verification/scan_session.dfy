/** The scan session behind the "Scan QR Code" button of icam/main2.py: a fixed
    number of single-shot scans, a sleep between consecutive scans, and one save of
    everything recorded. The camera, the detector and the wall clock are oracles; the
    UI and the sleeps are recorded as a trace of effects. */
module ScanSession {
  import opened Optional
  import opened Notices
  import opened StreamScanner
  import opened ResultStore

  /** What a session reads: the URL, the two number widgets, and the oracles
      `camera(i)` (outcome of the i-th capture), `detect` and `clock(i)` (the time
      stamp taken in iteration i). */
  datatype Setup<!F> = Setup(
    ip: string,
    numScans: nat,
    interval: nat,
    camera: nat -> Capture<F>,
    detect: F -> Detection,
    clock: nat -> string)

  /** One observable step of a session, in the order it happens. */
  datatype Effect =
    | Spinner(scan: nat, total: nat)  // "Scanning ... (Scan scan/total)"
    | Show(notice: Notice)            // a success, warning or error box
    | Sleep(seconds: nat)             // the blocking wait between scans
    | Persist(file: string)           // one call of the result store

  /** The end of a session: rows recorded, effects in order, and the store afterwards. */
  datatype Session = Session(records: seq<Row>, effects: seq<Effect>, store: Option<seq<Row>>)

  /** The loop's test on a scan result: truthy and not the sentinel. */
  predicate Recordable(r: Option<string>)
  {
    r.Some? && r.value != "" && r.value != NoQrCodeDetected
  }

  /** The result of the scan in iteration `i`. */
  function Outcome<F>(setup: Setup<F>, i: nat): Option<string>
  {
    ScanQrCode(setup.camera(i), setup.detect)
  }

  /** The row iteration `i` records. */
  function RowAt<F>(setup: Setup<F>, i: nat): Row
    requires Recordable(Outcome(setup, i))
  {
    Row(setup.clock(i), Outcome(setup, i).value)
  }

  /** A scan result is recorded exactly when a frame was grabbed and the detector
      located a symbol with non-empty text other than the sentinel; a symbol whose
      text IS the sentinel is never recorded. */
  lemma RecordableIffLocated<F>(capture: Capture<F>, detect: F -> Detection)
    ensures Recordable(ScanQrCode(capture, detect)) <==>
              && capture.Grabbed?
              && Located(detect(capture.frame))
              && detect(capture.frame).data != NoQrCodeDetected
  {
  }

  /** The rows recorded by the first `n` iterations, in iteration order. */
  function Recorded<F>(setup: Setup<F>, n: nat): (rows: seq<Row>)
    ensures |rows| <= n
    ensures forall k :: 0 <= k < |rows| ==> rows[k].decoded != "" && rows[k].decoded != NoQrCodeDetected
  {
    if n == 0 then []
    else
      var earlier := Recorded(setup, n - 1);
      if Recordable(Outcome(setup, n - 1)) then earlier + [RowAt(setup, n - 1)] else earlier
  }

  /** The iterations among the first `n` whose scan is recorded, ascending. */
  function HitScans<F>(setup: Setup<F>, n: nat): (hs: seq<nat>)
    ensures forall k :: 0 <= k < |hs| ==> hs[k] < n && Recordable(Outcome(setup, hs[k]))
    ensures forall k, l :: 0 <= k < l < |hs| ==> hs[k] < hs[l]
    ensures forall i :: 0 <= i < n && Recordable(Outcome(setup, i)) ==> i in hs
  {
    if n == 0 then []
    else
      var earlier := HitScans(setup, n - 1);
      if Recordable(Outcome(setup, n - 1)) then earlier + [n - 1] else earlier
  }

  /** The recorded rows are exactly one row per recordable iteration, in scan order. */
  lemma {:induction false} RecordedInScanOrder<F>(setup: Setup<F>, n: nat)
    ensures |Recorded(setup, n)| == |HitScans(setup, n)|
    ensures forall k :: 0 <= k < |HitScans(setup, n)| ==>
              Recorded(setup, n)[k] == RowAt(setup, HitScans(setup, n)[k])
  {
    if n > 0 {
      RecordedInScanOrder(setup, n - 1);
    }
  }

  /** Notices shown as effects, in order. */
  function Shown(ns: seq<Notice>): seq<Effect>
  {
    seq(|ns|, k requires 0 <= k < |ns| => Show(ns[k]))
  }

  /** The box the loop shows for iteration `i`. */
  function Verdict<F>(setup: Setup<F>, i: nat): (n: Notice)
    ensures n.level == Success <==> Recordable(Outcome(setup, i))
    ensures n.level == Warning <==> !Recordable(Outcome(setup, i))
  {
    var r := Outcome(setup, i);
    if Recordable(r) then Notice(Success, "Decoded Data: " + r.value)
    else Notice(Warning, "No QR code detected at " + setup.ip + ".")
  }

  /** The success box of a recorded scan ends with its payload. */
  lemma VerdictShowsPayload<F>(setup: Setup<F>, i: nat)
    requires Recordable(Outcome(setup, i))
    ensures |Outcome(setup, i).value| <= |Verdict(setup, i).text|
    ensures Verdict(setup, i).text[|Verdict(setup, i).text| - |Outcome(setup, i).value|..] == Outcome(setup, i).value
  {
  }

  /** The effects of iteration `i`: spinner, the scan's own error, the verdict, and a
      sleep unless it is the last iteration. */
  function IterationEffects<F>(setup: Setup<F>, i: nat): seq<Effect>
  {
    [Spinner(i + 1, setup.numScans)]
    + Shown(CaptureNotices(setup.camera(i)))
    + [Show(Verdict(setup, i))]
    + (if i < setup.numScans - 1 then [Sleep(setup.interval)] else [])
  }

  /** The effects of the first `n` iterations. */
  function Scans<F>(setup: Setup<F>, n: nat): seq<Effect>
  {
    if n == 0 then [] else Scans(setup, n - 1) + IterationEffects(setup, n - 1)
  }

  /** The effects after the loop: one save and its notice, only when rows were recorded. */
  function Finish(records: seq<Row>): (es: seq<Effect>)
    ensures |es| == 0 <==> |records| == 0
    ensures 0 < |records| ==> |es| == 2 && es[0] == Persist(FileName) && es[1].Show? && es[1].notice.level == Success
  {
    if |records| > 0 then [Persist(FileName), Show(Notice(Success, "All data saved to Excel file."))] else []
  }

  /** Right after its spinner, an iteration shows the scan's error box when the capture
      failed and then the loop's warning; with a grabbed frame it shows only the verdict. */
  lemma IterationNotices<F>(setup: Setup<F>, i: nat)
    ensures !setup.camera(i).Grabbed? ==>
              && 3 <= |IterationEffects(setup, i)|
              && IterationEffects(setup, i)[1].Show? && IterationEffects(setup, i)[1].notice.level == Error
              && IterationEffects(setup, i)[2] == Show(Verdict(setup, i))
              && Verdict(setup, i).level == Warning
    ensures setup.camera(i).Grabbed? ==>
              && 2 <= |IterationEffects(setup, i)|
              && IterationEffects(setup, i)[1] == Show(Verdict(setup, i))
    ensures Count(IterationEffects(setup, i), IsError) == (if setup.camera(i).Grabbed? then 0 else 1)
  {
    var a := [Spinner(i + 1, setup.numScans)];
    var b := Shown(CaptureNotices(setup.camera(i)));
    var c := [Show(Verdict(setup, i))];
    var d: seq<Effect> := if i < setup.numScans - 1 then [Sleep(setup.interval)] else [];
    ShownErrors(CaptureNotices(setup.camera(i)));
    CountConcat(a, b, IsError);
    CountConcat(a + b, c, IsError);
    CountConcat(a + b + c, d, IsError);
  }

  /** Showing a run of error notices adds one error box per notice. */
  lemma {:induction false} ShownErrors(ns: seq<Notice>)
    requires forall k :: 0 <= k < |ns| ==> ns[k].level == Error
    ensures Count(Shown(ns), IsError) == |ns|
  {
    if |ns| > 0 {
      assert Shown(ns)[1..] == Shown(ns[1..]);
      ShownErrors(ns[1..]);
    }
  }

  /** How many elements of `s` satisfy `p`. */
  function Count<T>(s: seq<T>, p: T -> bool): nat
  {
    if |s| == 0 then 0 else (if p(s[0]) then 1 else 0) + Count(s[1..], p)
  }

  predicate IsSpinner(e: Effect) { e.Spinner? }
  predicate IsSleep(e: Effect) { e.Sleep? }
  predicate IsPersist(e: Effect) { e.Persist? }
  predicate IsError(e: Effect) { e.Show? && e.notice.level == Error }

  /** Counting distributes over concatenation. */
  lemma {:induction false} CountConcat<T>(a: seq<T>, b: seq<T>, p: T -> bool)
    ensures Count(a + b, p) == Count(a, p) + Count(b, p)
  {
    if |a| == 0 {
      assert a + b == b;
    } else {
      assert (a + b)[1..] == a[1..] + b;
      CountConcat(a[1..], b, p);
    }
  }

  /** No element of a sequence of shown notices is a spinner, a sleep or a save. */
  lemma {:induction false} ShownCounts(ns: seq<Notice>)
    ensures Count(Shown(ns), IsSpinner) == 0
    ensures Count(Shown(ns), IsSleep) == 0
    ensures Count(Shown(ns), IsPersist) == 0
  {
    if |ns| > 0 {
      assert Shown(ns)[1..] == Shown(ns[1..]);
      ShownCounts(ns[1..]);
    }
  }

  /** Each iteration shows one spinner, sleeps once unless it is the last, and saves nothing. */
  lemma IterationCounts<F>(setup: Setup<F>, i: nat)
    ensures Count(IterationEffects(setup, i), IsSpinner) == 1
    ensures Count(IterationEffects(setup, i), IsSleep) == (if i < setup.numScans - 1 then 1 else 0)
    ensures Count(IterationEffects(setup, i), IsPersist) == 0
  {
    var a := [Spinner(i + 1, setup.numScans)];
    var b := Shown(CaptureNotices(setup.camera(i)));
    var c := [Show(Verdict(setup, i))];
    var d: seq<Effect> := if i < setup.numScans - 1 then [Sleep(setup.interval)] else [];
    ShownCounts(CaptureNotices(setup.camera(i)));
    CountConcat(a, b, IsSpinner);
    CountConcat(a + b, c, IsSpinner);
    CountConcat(a + b + c, d, IsSpinner);
    CountConcat(a, b, IsSleep);
    CountConcat(a + b, c, IsSleep);
    CountConcat(a + b + c, d, IsSleep);
    CountConcat(a, b, IsPersist);
    CountConcat(a + b, c, IsPersist);
    CountConcat(a + b + c, d, IsPersist);
  }

  /** The first `n` iterations show `n` spinners, sleep after every one of them but the
      last of the session, and save nothing. */
  lemma {:induction false} ScanCounts<F>(setup: Setup<F>, n: nat)
    requires n <= setup.numScans
    ensures Count(Scans(setup, n), IsSpinner) == n
    ensures Count(Scans(setup, n), IsSleep) == (if n == setup.numScans && 0 < n then n - 1 else n)
    ensures Count(Scans(setup, n), IsPersist) == 0
  {
    if n > 0 {
      ScanCounts(setup, n - 1);
      IterationCounts(setup, n - 1);
      CountConcat(Scans(setup, n - 1), IterationEffects(setup, n - 1), IsSpinner);
      CountConcat(Scans(setup, n - 1), IterationEffects(setup, n - 1), IsSleep);
      CountConcat(Scans(setup, n - 1), IterationEffects(setup, n - 1), IsPersist);
    }
  }

  /** The effects after the loop hold one save when rows were recorded, and no spinner or sleep. */
  lemma FinishCounts(records: seq<Row>)
    ensures Count(Finish(records), IsSpinner) == 0
    ensures Count(Finish(records), IsSleep) == 0
    ensures Count(Finish(records), IsPersist) == (if |records| > 0 then 1 else 0)
  {
    if |records| > 0 {
      var f := Finish(records);
      var rest := f[1..];
      assert rest[1..] == [];
      assert Count(rest, IsSpinner) == 0 && Count(rest, IsSleep) == 0 && Count(rest, IsPersist) == 0;
    }
  }

  /** Every sleep is immediately followed by a spinner. */
  ghost predicate SleepsBetweenScans(es: seq<Effect>)
  {
    forall k :: 0 <= k < |es| && es[k].Sleep? ==> k + 1 < |es| && es[k + 1].Spinner?
  }

  /** Every sleep except possibly a final one is followed by a spinner. */
  ghost predicate InnerSleepsLead(es: seq<Effect>)
  {
    forall k :: 0 <= k < |es| - 1 && es[k].Sleep? ==> es[k + 1].Spinner?
  }

  /** The sequence ends with a sleep. */
  predicate EndsAsleep(es: seq<Effect>)
  {
    0 < |es| && es[|es| - 1].Sleep?
  }

  /** Joining two traces keeps inner sleeps leading to spinners when a trailing sleep
      of the first is met by a spinner at the head of the second. */
  lemma JoinLeads(a: seq<Effect>, b: seq<Effect>)
    requires InnerSleepsLead(a) && InnerSleepsLead(b)
    requires EndsAsleep(a) && 0 < |b| ==> b[0].Spinner?
    ensures InnerSleepsLead(a + b)
    ensures 0 < |b| ==> (EndsAsleep(a + b) <==> EndsAsleep(b))
  {
  }

  /** An iteration starts with its spinner, has no inner sleep, and ends with a sleep
      exactly when it is not the last. */
  lemma IterationShape<F>(setup: Setup<F>, i: nat)
    ensures IterationEffects(setup, i)[0].Spinner?
    ensures InnerSleepsLead(IterationEffects(setup, i))
    ensures EndsAsleep(IterationEffects(setup, i)) <==> i < setup.numScans - 1
  {
  }

  /** Within the first `n` iterations every sleep but a trailing one is followed by a
      spinner; after the last iteration of the session there is no trailing sleep. */
  lemma {:induction false} ScansSleepOnlyBetween<F>(setup: Setup<F>, n: nat)
    requires n <= setup.numScans
    ensures InnerSleepsLead(Scans(setup, n))
    ensures 0 < n ==> (EndsAsleep(Scans(setup, n)) <==> n < setup.numScans)
  {
    if n > 0 {
      ScansSleepOnlyBetween(setup, n - 1);
      IterationShape(setup, n - 1);
      JoinLeads(Scans(setup, n - 1), IterationEffects(setup, n - 1));
    }
  }

  /** In a whole session, every sleep is followed by a spinner: none comes after
      the last scan or after the save. */
  lemma SessionSleepsBetweenScans<F>(setup: Setup<F>, records: seq<Row>)
    ensures SleepsBetweenScans(Scans(setup, setup.numScans) + Finish(records))
  {
    var scans := Scans(setup, setup.numScans);
    ScansSleepOnlyBetween(setup, setup.numScans);
    assert InnerSleepsLead(Finish(records)) && !EndsAsleep(Finish(records));
    JoinLeads(scans, Finish(records));
  }

  /** A whole session shows one spinner per scan, sleeps only between scans, and saves
      once exactly when rows were recorded. */
  lemma SessionCounts<F>(setup: Setup<F>, records: seq<Row>)
    ensures Count(Scans(setup, setup.numScans) + Finish(records), IsSpinner) == setup.numScans
    ensures Count(Scans(setup, setup.numScans) + Finish(records), IsSleep) ==
              (if setup.numScans == 0 then 0 else setup.numScans - 1)
    ensures Count(Scans(setup, setup.numScans) + Finish(records), IsPersist) == (if |records| > 0 then 1 else 0)
    ensures SleepsBetweenScans(Scans(setup, setup.numScans) + Finish(records))
  {
    FinishCounts(records);
    ScanCounts(setup, setup.numScans);
    SessionSleepsBetweenScans(setup, records);
    CountConcat(Scans(setup, setup.numScans), Finish(records), IsSpinner);
    CountConcat(Scans(setup, setup.numScans), Finish(records), IsSleep);
    CountConcat(Scans(setup, setup.numScans), Finish(records), IsPersist);
  }

  /** Run the session: nothing but an error when the URL is empty; otherwise
      `numScans` scans with a sleep between consecutive ones, recording the
      recordable results, then at most one save of the recorded rows. */
  method RunSession<F>(setup: Setup<F>, stored: Option<seq<Row>>) returns (s: Session)
    ensures setup.ip == "" ==>
              && s.records == [] && s.store == stored
              && s.effects == [Show(Notice(Error, "Please enter a valid IP Webcam URL."))]
    ensures setup.ip != "" ==> s.records == Recorded(setup, setup.numScans)
    ensures setup.ip != "" ==> s.effects == Scans(setup, setup.numScans) + Finish(s.records)
    ensures |s.records| <= setup.numScans
    ensures setup.ip != "" ==> Count(s.effects, IsSpinner) == setup.numScans
    ensures setup.ip != "" ==> Count(s.effects, IsSleep) == (if setup.numScans == 0 then 0 else setup.numScans - 1)
    ensures SleepsBetweenScans(s.effects)
    ensures Count(s.effects, IsPersist) == (if |s.records| > 0 then 1 else 0)
    ensures |s.records| > 0 ==> s.store == After(stored, s.records)
    ensures |s.records| == 0 ==> s.store == stored
  {
    if setup.ip == "" {
      s := Session([], [Show(Notice(Error, "Please enter a valid IP Webcam URL."))], stored);
      return;
    }
    var allDecoded: seq<Row> := [];
    var effects: seq<Effect> := [];
    var i: nat := 0;
    while i < setup.numScans
      invariant i <= setup.numScans
      invariant allDecoded == Recorded(setup, i)
      invariant effects == Scans(setup, i)
    {
      var step := [Spinner(i + 1, setup.numScans)];
      var decoded := ScanQrCode(setup.camera(i), setup.detect);
      step := step + Shown(CaptureNotices(setup.camera(i)));
      if Recordable(decoded) {
        var timestamp := setup.clock(i);
        allDecoded := allDecoded + [Row(timestamp, decoded.value)];
        step := step + [Show(Notice(Success, "Decoded Data: " + decoded.value))];
      } else {
        step := step + [Show(Notice(Warning, "No QR code detected at " + setup.ip + "."))];
      }
      if i < setup.numScans - 1 {
        step := step + [Sleep(setup.interval)];
      }
      assert step == IterationEffects(setup, i);
      effects := effects + step;
      i := i + 1;
    }
    var store := stored;
    var finish: seq<Effect> := [];
    if |allDecoded| > 0 {
      var saved := SaveToExcel(stored, allDecoded);
      store := Some(saved.sheet.rows);
      finish := [Persist(saved.file), Show(Notice(Success, "All data saved to Excel file."))];
    }
    assert finish == Finish(allDecoded);
    s := Session(allDecoded, effects + finish, store);
    SessionCounts(setup, allDecoded);
  }
}
