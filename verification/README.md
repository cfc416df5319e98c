# icam QR scanner — Dafny model

The repository has two small scripts. Both take one still frame from an IP webcam
and look for a QR code in it.

- `icam/main.py` decodes one frame with a **rotation-robust decoder**. It tries the
  frame as given, then the original frame turned by 90, 180 and 270 degrees. The
  first symbol of the first orientation that reports anything wins.
- `icam/main2.py` runs a **scan session**. It does `num_scans` single-shot scans
  (open the stream, grab one frame, run the detector once) and sleeps between
  consecutive scans. It keeps `(timestamp, payload)` rows for the successful
  scans, then appends them once to the **result store**, a workbook named
  `qr_code_data.xlsx` that holds two columns.

The model keeps the deterministic logic around the library calls. Frames have an
opaque type `F`. The following are oracles passed as parameters:

- `decode: F -> seq<Payload>`: the symbol decoder. It returns the decoded texts in
  the order it reports them.
- `rot: (F, nat) -> F`: quarter-turn rotation.
- `detect: F -> Detection`: the detector. It returns the text and the corners,
  which may be absent.
- `camera: nat -> Capture<F>`: the outcome of the i-th capture, which is
  stream-not-opened, no-frame or a frame.
- `clock: nat -> string`: the timestamp taken in iteration i.

The workbook is modelled by its rows. `None` means the file does not exist. The
UI is modelled as a trace of effects: spinners, notices, sleeps and the save.

Modules:

- `Optional`, `Notices`: shared value types.
- `RotationDecoder`: `scan_qr_code` and the button handler of `icam/main.py`.
- `StreamScanner`: `scan_qr_code` of `icam/main2.py`.
- `ResultStore`: `save_to_excel`.
- `ScanSession`: the button handler loop of `icam/main2.py`.

Behaviours of the code worth knowing:

- Each failed capture in a session produces two notices: the scan's own error
  (`icam/main2.py:15` or `icam/main2.py:23`) and then the loop's warning (`icam/main2.py:82`).
- The session uses the single-shot detector of `icam/main2.py`; the rotation-robust
  decoder of `icam/main.py` belongs to the other script only.
- Store errors are not caught by the code, so they are not a modelled outcome (see Left out).
- `main2.py` counts an empty decoded text as a miss even when corners were found.
  The `main.py` handler counts an empty payload as a miss too, but only after
  `scan_qr_code` has returned it.

## Model

| member | source | states |
|---|---|---|
| RotationDecoder.AttemptFrame | icam/main.py:17-18 | attempt 0 decodes the frame itself, and attempt j > 0 decodes the ORIGINAL frame rotated by k = angle // 90 = j quarter-turns |
| RotationDecoder.TryRotations | icam/main.py:17-24 | the retry loop from a given angle onward calls the decoder on successive rotations of the original frame, stops at the first non-empty report and returns its first symbol, and returns None exactly when every remaining orientation reports nothing |
| RotationDecoder.ScanQrCode | icam/main.py:8-24 | the decoder is called 1 to 4 times, on orientations 0, 90, 180 and 270 in that order; the result is None iff all four attempts report no symbol, in which case there are exactly 4 calls; otherwise it is the first symbol of the earliest non-empty attempt, and no later orientation is tried |
| RotationDecoder.FirstHitDecides | icam/main.py:10-23 | if orientation j is the first to report a symbol, the result is that report's first symbol and the decoder was called exactly j + 1 times |
| RotationDecoder.StartScan | icam/main.py:38-54 | an empty URL is rejected; a missing frame is a capture failure; content is reported iff the decoder found a payload and that payload is non-empty |
| RotationDecoder.EmptyPayloadIsMiss | icam/main.py:46-50 | when the first symbol found has an empty payload, scan_qr_code returns "" but the handler reports no QR code |
| RotationDecoder.ReportNotice | icam/main.py:47-54 | only found content gives a success box, and that box ends with the payload; only a missing URL gives a warning; the other outcomes give errors |
| StreamScanner.ScanQrCode | icam/main2.py:10-35 | the result is None iff the stream did not open or no frame was grabbed; a payload other than the sentinel comes only from a detection with corners and non-empty text, and equals that text; every other detection gives the sentinel "No QR code detected."; the result is never "" |
| StreamScanner.CaptureNotices | icam/main2.py:14-24 | a scan shows exactly one error box iff its capture failed, and none otherwise |
| ResultStore.SaveToExcel | icam/main2.py:39-55 | returns "qr_code_data.xlsx"; the sheet has the two columns Timestamp and Decoded Data; its rows are the existing rows, in their order, followed by the new rows in the order given; with no file, they are exactly the new rows |
| ResultStore.SaveTwice | icam/main2.py:44-53 | two saves in a row store the existing rows, then the first batch, then the second, the same as one save of both batches |
| ScanSession.RecordableIffLocated | icam/main2.py:77-79 | a scan result is recorded iff a frame was grabbed and the detector found corners and non-empty text other than the sentinel, so a QR whose payload is the sentinel text is never recorded |
| ScanSession.Recorded | icam/main2.py:72-79 | the first n iterations record at most n rows, and none of them carries an empty payload or the sentinel |
| ScanSession.HitScans | icam/main2.py:74-79 | the recording iterations among the first n, listed in strictly increasing order; every iteration whose scan is recordable is listed |
| ScanSession.RecordedInScanOrder | icam/main2.py:74-79 | the recorded rows are exactly one row per recording iteration, in scan order, each pairing that iteration's timestamp with its payload |
| ScanSession.Verdict | icam/main2.py:77-82 | an iteration shows a success box iff its scan result is recorded, and a warning otherwise |
| ScanSession.VerdictShowsPayload | icam/main2.py:80 | the success box of a recorded scan ends with the decoded payload |
| ScanSession.IterationNotices | icam/main2.py:14-24 | an iteration shows exactly one error box when its capture failed and none when a frame was grabbed; after a failed capture the spinner is followed by that error box and then the loop's warning; with a grabbed frame the spinner is followed directly by the verdict |
| ScanSession.Finish | icam/main2.py:88-90 | after the loop the trace holds the save of qr_code_data.xlsx followed by a success box when rows were recorded, and nothing when none were |
| ScanSession.IterationCounts | icam/main2.py:75-85 | each iteration shows one spinner, sleeps once unless it is the last iteration, and does not save |
| ScanSession.ScanCounts | icam/main2.py:74-85 | the first n iterations show n spinners and do not save; they sleep n times, or n - 1 times when they are the whole session |
| ScanSession.FinishCounts | icam/main2.py:88-90 | after the loop there is one save when rows were recorded and none otherwise, with no sleep or spinner |
| ScanSession.IterationShape | icam/main2.py:75-85 | an iteration starts with its spinner, has no sleep inside, and ends with a sleep exactly when it is not the last |
| ScanSession.ScansSleepOnlyBetween | icam/main2.py:74-85 | within the loop, every sleep other than a trailing one is followed by a spinner, and nothing sleeps after the last scan |
| ScanSession.SessionSleepsBetweenScans | icam/main2.py:74-90 | in a whole session every sleep is directly followed by a spinner, so none comes after the last scan or after the save |
| ScanSession.SessionCounts | icam/main2.py:74-90 | a whole session's trace has one spinner per scan, numScans - 1 sleeps (none for zero scans) each directly followed by a spinner, and one save exactly when rows were recorded |
| ScanSession.RunSession | icam/main2.py:70-92 | an empty URL gives only an error, with no record and no store change; otherwise the session records Recorded(numScans), which has at most numScans rows; it shows numScans spinners and sleeps numScans - 1 times (none for zero scans), only between scans; it saves exactly once when rows were recorded and never otherwise; the store then holds the old rows followed by the new ones, and is unchanged when nothing was recorded |

## Left out

- Camera access (`cv2.VideoCapture`, `isOpened`, `read`, `release`) is network I/O. It is
  the `camera` oracle (main2) or an optional frame (main.py). Releasing the stream is not modelled.
- QR detection internals (`pyzbar.decode`, `cv2.QRCodeDetector.detectAndDecode`) are
  foreign libraries. They are the `decode` and `detect` oracles.
- The UTF-8 decoding of symbol data in `icam/main.py` is left out. The `decode`
  oracle returns text, and a decoding exception on invalid bytes is not modelled.
- Pixel content, `np.rot90` geometry and the BGR→RGB / PIL conversion with
  `st.image` are numeric image work. Rotation is the opaque `rot(frame, k)`, and the
  preview image is not part of the effect trace.
- pandas / Excel serialisation and the file-existence check are left out. The store
  is `Option<seq<Row>>`. Existing files with columns other than the two fixed ones,
  and read or write exceptions (which the code does not catch), are not modelled.
- `time.sleep` and `datetime.now` are wall-clock calls. A sleep is a `Sleep(seconds)`
  effect. Timestamps come from the `clock` oracle, already formatted.
- Streamlit titles, text inputs and number widgets are left out: their values are
  inputs. The spinner is the effect `Spinner(scan, total)` rather than its text. The
  widget lower bounds (`min_value=1`) are not assumed, so zero scans is allowed and gives no sleeps.
- ResultStore.SaveTwice: holds in the row model, where a later read returns the rows as written. pandas'
  `read_excel` turns cells such as "NA", "N/A", "null", "None", "nan" or "#N/A" into missing values,
  and turns a column whose cells all look numeric or boolean (such as "0042" or "True") into numbers or
  booleans, so in the script earlier rows are kept unchanged only when their payloads are read back as
  the same text.
