/**
 * The browser controller `AttendanceTracker`.
 *
 * Its fields are the controller's own (`stream`, `isCapturing`,
 * `attendanceRecords`) and the parts of the page it reads and writes (the two
 * identity inputs, the status text and class, the three buttons' `disabled`
 * flags, the rendered list).  Four more fields stand for what the browser
 * holds on the controller's behalf: the camera streams whose tracks still run,
 * the suspended `captureAttendance` call, the POST requests sent, and the
 * pending `setTimeout` callbacks.  Every input from the environment (camera,
 * recognition, clock, network) is a parameter of the operation that
 * receives it.
 */
module Tracker {
  import opened Prelude
  import opened Api
  import opened JsString

  /** The class names the status indicator takes. */
  datatype StatusKind = Idle | Requesting | Ready | Processing | Success | Error

  /** The status indicator's class and text, always set together. */
  datatype Status = Status(kind: StatusKind, message: string)

  /** An opaque handle for a MediaStream. */
  type StreamId = nat

  /** What `getUserMedia` does: resolve with a new stream, or reject with an error of the given `name`. */
  datatype CameraResult = Granted(stream: StreamId) | CameraFailed(errorName: string)

  /** A history entry; `confidence` and `timestamp` are kept as the text they are parsed from. */
  datatype Record = Record(userId: string, userName: string, confidence: Option<string>, timestamp: string)

  /** The JSON body posted to /api/mark_attendance. */
  datatype Payload = Payload(userId: string, userName: string, confidence: string, imageData: string)

  /** How `sendAttendanceData` settles: it returns a record or throws an Error with a message. */
  datatype Outcome = Accepted(record: Record) | Refused(message: string)

  /** Where a running `captureAttendance` call is suspended. */
  datatype CapturePhase =
    | NotCapturing
    | AwaitingRecognition(frame: string)   // at `await this.simulateFaceRecognition()`
    | AwaitingServer(payload: Payload)     // at `await fetch(...)` inside sendAttendanceData

  /** A callback passed to `setTimeout(..., 2000)`. */
  datatype Deferred = ResetFormTask | RevalidateTask

  /** What renderAttendanceList puts into the list: the placeholder, or these records, one entry each. */
  datatype View = NoRecordsPlaceholder | Entries(shown: seq<Record>)

  /**
   * The page's markup before the controller runs: the values of the two
   * input fields, the status shown and the disabled flags of the buttons.
   */
  datatype Page = Page(userId: string, userName: string, status: Status,
                       startDisabled: bool, stopDisabled: bool, captureDisabled: bool)

  /** How many records the list shows. */
  const MaxShown := 10

  /** renderAttendanceList's choice of records. */
  function Render(records: seq<Record>): (v: View)
    ensures v == NoRecordsPlaceholder <==> records == []
    ensures v.Entries? ==>
      && |v.shown| == Min(MaxShown, |records|)
      && forall i :: 0 <= i < |v.shown| ==> v.shown[i] == records[i]
  {
    if |records| == 0 then NoRecordsPlaceholder
    else Entries(records[..Min(MaxShown, |records|)])
  }

  /**
   * After a record is prepended the list shows it first, followed by what
   * was shown before minus its tenth entry.
   */
  lemma RenderAfterPrepend(r: Record, records: seq<Record>)
    ensures Render([r] + records) == Entries([r] + records[..Min(MaxShown - 1, |records|)])
  {
    assert ([r] + records)[..Min(MaxShown, |records| + 1)] == [r] + records[..Min(MaxShown - 1, |records|)];
  }

  /** JavaScript `m || d` for a string `m`. */
  function OrDefault(m: string, d: string): string {
    if m != "" then m else d
  }

  /** JavaScript `m || d` for a possibly missing string member `m`. */
  function MessageOr(m: Option<string>, d: string): string {
    if m.Some? then OrDefault(m.value, d) else d
  }

  /**
   * How sendAttendanceData settles for the backend's reply: the if-chain
   * over `result.status` inside a try whose catch re-throws
   * `err.message || 'Failed to connect to server'`.
   */
  function ReplyOutcome(p: Payload, reply: Transport<Reply>, now: string): (r: Outcome)
    ensures r.Accepted? <==> reply.Delivered? && reply.body.status == "success"
    ensures r.Accepted? ==> r.record == Record(p.userId, p.userName, Some(p.confidence), now)
    ensures reply.Delivered? && reply.body.status == "exists" ==>
      r == Refused("Attendance already marked today")
    ensures reply.Delivered? && reply.body.status == "face_mismatch" ==>
      r == Refused(MessageOr(reply.body.message, "Face already linked to another ID"))
    ensures reply.Delivered? && reply.body.status !in {"success", "exists", "face_mismatch"} ==>
      r == Refused(MessageOr(reply.body.message, "Some backend error"))
    ensures reply.Failure? ==> r == Refused(OrDefault(reply.message, "Failed to connect to server"))
    ensures r.Refused? ==> r.message != ""
  {
    match reply
    case Failure(m) => Refused(OrDefault(m, "Failed to connect to server"))
    case Delivered(res) =>
      if res.status == "success" then Accepted(Record(p.userId, p.userName, Some(p.confidence), now))
      else
        var thrown :=
          if res.status == "exists" then "Attendance already marked today"
          else if res.status == "face_mismatch" then MessageOr(res.message, "Face already linked to another ID")
          else MessageOr(res.message, "Some backend error");
        Refused(OrDefault(thrown, "Failed to connect to server"))
  }

  /** The record loadAttendanceRecords makes of one backend item. */
  function ToRecord(d: ListItem): Record {
    Record(d.userId, d.userName, d.confidence, d.date + "T" + d.time)
  }

  /** `data.data.map(...)` in loadAttendanceRecords: one record per item, in order. */
  function LoadedRecords(items: seq<ListItem>): (rs: seq<Record>)
    ensures |rs| == |items|
    ensures forall i :: 0 <= i < |rs| ==>
      && rs[i].userId == items[i].userId && rs[i].userName == items[i].userName
      && rs[i].confidence == items[i].confidence
      && rs[i].timestamp == items[i].date + "T" + items[i].time
  {
    seq(|items|, i requires 0 <= i < |items| => ToRecord(items[i]))
  }

  /** The status handleCameraError shows for an error called `name`. */
  ghost predicate CameraErrorShown(st: Status, name: string) {
    && st.kind == Error
    && (name == "NotAllowedError" ==> st.message == "Camera error. Please allow access.")
    && (name == "NotFoundError" ==> st.message == "Camera error. No camera found.")
    && (name != "NotAllowedError" && name != "NotFoundError" ==> st.message == "Camera error. Try again.")
  }

  class AttendanceTracker {
    // The page elements the controller writes.
    var userIdValue: string
    var userNameValue: string
    var status: Status
    var startDisabled: bool
    var stopDisabled: bool
    var captureDisabled: bool
    var view: Option<View>          // None: the page's own markup, before the first render

    // The controller's state.
    var stream: Option<StreamId>
    var isCapturing: bool
    var attendanceRecords: seq<Record>

    // What the browser holds for the controller.
    var liveStreams: set<StreamId>  // streams whose tracks have not been stopped
    var phase: CapturePhase         // the suspended captureAttendance call, if any
    var requests: seq<Payload>      // every POST /api/mark_attendance sent
    var timers: seq<Deferred>       // pending 2-second callbacks; equal delays fire in order
    var loadPending: bool           // the GET /api/attendance_list of the constructor is outstanding

    ghost predicate Valid()
      reads this
    {
      && (isCapturing <==> !phase.NotCapturing?)
      && (isCapturing ==> captureDisabled)
      && (stream.Some? ==> stream.value in liveStreams)
      && (view.Some? ==> view.value == Render(attendanceRecords))
      && (attendanceRecords != [] ==> view.Some?)
    }

    /** Builds the controller over a page in the given initial state and starts loading the history. */
    constructor (page: Page)
      ensures Valid()
      ensures userIdValue == page.userId && userNameValue == page.userName && status == page.status
      ensures startDisabled == page.startDisabled && stopDisabled == page.stopDisabled
      ensures captureDisabled == page.captureDisabled
      ensures view.None? && stream.None? && !isCapturing && attendanceRecords == []
      ensures liveStreams == {} && phase == NotCapturing && requests == [] && timers == [] && loadPending
    {
      userIdValue, userNameValue, status := page.userId, page.userName, page.status;
      startDisabled, stopDisabled, captureDisabled := page.startDisabled, page.stopDisabled, page.captureDisabled;
      view := None;
      stream, isCapturing, attendanceRecords := None, false, [];
      liveStreams, phase, requests, timers := {}, NotCapturing, [], [];
      loadPending := true;
    }

    method UpdateStatus(kind: StatusKind, message: string)
      modifies this`status
      ensures status == Status(kind, message)
    {
      status := Status(kind, message);
    }

    /**
     * startCamera: the request shows 'requesting'; a granted stream becomes
     * the current one (a previous stream is not stopped); a failure leaves
     * the stream alone and shows handleCameraError's message.
     */
    method StartCamera(result: CameraResult)
      requires Valid()
      requires result.Granted? ==> result.stream !in liveStreams
      modifies this`status, this`stream, this`liveStreams
      ensures Valid()
      ensures result.Granted? ==>
        && stream == Some(result.stream)
        && liveStreams == old(liveStreams) + {result.stream}
        && status == Status(Requesting, "Requesting camera access...")
      ensures result.CameraFailed? ==>
        && stream == old(stream) && liveStreams == old(liveStreams)
        && CameraErrorShown(status, result.errorName)
    {
      UpdateStatus(Requesting, "Requesting camera access...");
      match result {
        case Granted(s) =>
          stream := Some(s);
          liveStreams := liveStreams + {s};
        case CameraFailed(name) =>
          UpdateStatus(Error, "Camera access denied or not available");
          HandleCameraError(name);
      }
    }

    /** The `loadedmetadata` listener startCamera registers, run once the stream's video is ready. */
    method OnLoadedMetadata()
      requires Valid() && stream.Some?
      modifies this`status, this`startDisabled, this`stopDisabled, this`captureDisabled
      ensures Valid()
      ensures status == Status(Ready, "Camera ready - Fill in your details to mark attendance")
      ensures startDisabled && !stopDisabled
      ensures !captureDisabled <==> Trim(userIdValue) != [] && Trim(userNameValue) != [] && !isCapturing
    {
      UpdateStatus(Ready, "Camera ready - Fill in your details to mark attendance");
      startDisabled := true;
      stopDisabled := false;
      ValidateUserInfo();
    }

    /** stopCamera: stops the current stream's tracks, drops it and disables stop and capture. */
    method StopCamera()
      requires Valid()
      modifies this`stream, this`liveStreams, this`status, this`startDisabled, this`stopDisabled, this`captureDisabled
      ensures Valid()
      ensures stream.None?
      ensures liveStreams == if old(stream).Some? then old(liveStreams) - {old(stream).value} else old(liveStreams)
      ensures status == Status(Idle, "Camera stopped")
      ensures !startDisabled && stopDisabled && captureDisabled
    {
      if stream.Some? {
        liveStreams := liveStreams - {stream.value};
        stream := None;
      }
      UpdateStatus(Idle, "Camera stopped");
      startDisabled := false;
      stopDisabled := true;
      captureDisabled := true;
    }

    /** validateUserInfo: capture is enabled exactly when both fields trim non-empty, a stream is present and no capture runs. */
    method ValidateUserInfo()
      requires Valid()
      modifies this`captureDisabled
      ensures Valid()
      ensures !captureDisabled <==> Trim(userIdValue) != [] && Trim(userNameValue) != [] && stream.Some? && !isCapturing
    {
      var id := Trim(userIdValue);
      var name := Trim(userNameValue);
      if id != [] && name != [] && stream.Some? && !isCapturing {
        captureDisabled := false;
      } else {
        captureDisabled := true;
      }
    }

    /** The user edits the ID field; its `input` listener revalidates. */
    method EditUserId(value: string)
      requires Valid()
      modifies this`userIdValue, this`captureDisabled
      ensures Valid()
      ensures userIdValue == value
      ensures !captureDisabled <==> Trim(value) != [] && Trim(userNameValue) != [] && stream.Some? && !isCapturing
    {
      userIdValue := value;
      ValidateUserInfo();
    }

    /** The user edits the name field; its `input` listener revalidates. */
    method EditUserName(value: string)
      requires Valid()
      modifies this`userNameValue, this`captureDisabled
      ensures Valid()
      ensures userNameValue == value
      ensures !captureDisabled <==> Trim(userIdValue) != [] && Trim(value) != [] && stream.Some? && !isCapturing
    {
      userNameValue := value;
      ValidateUserInfo();
    }

    /**
     * captureAttendance up to its first `await`: a call while a capture runs
     * changes nothing; otherwise the guard is taken, capture is disabled, the
     * status is 'processing' and `frame` (what captureFrame returned) waits
     * for the recognition step.
     */
    method CaptureAttendance(frame: string)
      requires Valid()
      modifies this`isCapturing, this`captureDisabled, this`status, this`phase
      ensures Valid()
      ensures old(isCapturing) ==> unchanged(this)
      ensures !old(isCapturing) ==>
        && isCapturing && captureDisabled && phase == AwaitingRecognition(frame)
        && status == Status(Processing, "Capturing face... Please wait...")
    {
      if isCapturing {
        return;
      }
      isCapturing, phase := true, AwaitingRecognition(frame);
      captureDisabled := true;
      UpdateStatus(Processing, "Capturing face... Please wait...");
    }

    /**
     * The simulated recognition settles.  A failure ends the capture with
     * 'Face not recognized clearly'; a success runs sendAttendanceData up to
     * its `fetch`, which posts the fields as they read NOW, trimmed.
     */
    method RecognitionDone(recognised: bool, confidence: string)
      requires Valid() && phase.AwaitingRecognition?
      modifies this`phase, this`requests, this`status, this`attendanceRecords, this`view, this`timers, this`isCapturing
      ensures Valid()
      ensures !recognised ==>
        && !isCapturing && phase == NotCapturing
        && status == Status(Error, "Face not recognized clearly")
        && attendanceRecords == old(attendanceRecords) && view == old(view)
        && requests == old(requests) && timers == old(timers) + [RevalidateTask]
      ensures recognised ==>
        var p := Payload(Trim(userIdValue), Trim(userNameValue), confidence, old(phase).frame);
        && isCapturing && phase == AwaitingServer(p) && requests == old(requests) + [p]
        && status == old(status) && attendanceRecords == old(attendanceRecords)
        && view == old(view) && timers == old(timers)
    {
      if !recognised {
        Finish(Refused("Face not recognized clearly"));
      } else {
        var p := Payload(Trim(userIdValue), Trim(userNameValue), confidence, phase.frame);
        requests := requests + [p];
        phase := AwaitingServer(p);
      }
    }

    /**
     * The backend's reply (or the network failure) arrives: the capture ends
     * as ReplyOutcome says, and the guard is released whatever happened.
     */
    method ServerReplied(reply: Transport<Reply>, now: string)
      requires Valid() && phase.AwaitingServer?
      modifies this`phase, this`status, this`attendanceRecords, this`view, this`timers, this`isCapturing
      ensures Valid()
      ensures !isCapturing && phase == NotCapturing
      ensures var o := ReplyOutcome(old(phase).payload, reply, now);
        && (o.Accepted? ==>
              && status == Status(Success, "Attendance marked successfully!")
              && attendanceRecords == [o.record] + old(attendanceRecords)
              && timers == old(timers) + [ResetFormTask, RevalidateTask])
        && (o.Refused? ==>
              && status == Status(Error, o.message)
              && attendanceRecords == old(attendanceRecords) && view == old(view)
              && timers == old(timers) + [RevalidateTask])
    {
      var o := ReplyOutcome(phase.payload, reply, now);
      Finish(o);
    }

    /** The rest of captureAttendance: the success tail of the try, the catch and the finally. */
    method Finish(o: Outcome)
      requires Valid() && isCapturing
      modifies this`status, this`attendanceRecords, this`view, this`timers, this`isCapturing, this`phase
      ensures Valid()
      ensures !isCapturing && phase == NotCapturing
      ensures o.Accepted? ==>
        && status == Status(Success, "Attendance marked successfully!")
        && attendanceRecords == [o.record] + old(attendanceRecords)
        && timers == old(timers) + [ResetFormTask, RevalidateTask]
      ensures o.Refused? ==>
        && status == Status(Error, OrDefault(o.message, "Failed to mark attendance."))
        && attendanceRecords == old(attendanceRecords) && view == old(view)
        && timers == old(timers) + [RevalidateTask]
    {
      match o {
        case Accepted(r) =>
          UpdateStatus(Success, "Attendance marked successfully!");
          AddAttendanceRecord(r);
          timers := timers + [ResetFormTask];
        case Refused(m) =>
          UpdateStatus(Error, OrDefault(m, "Failed to mark attendance."));
      }
      isCapturing, phase := false, NotCapturing;
      timers := timers + [RevalidateTask];
    }

    /** The response to the constructor's GET arrives; only a 'success' reply replaces the history. */
    method LoadAttendanceRecords(reply: Transport<ListReply>)
      requires Valid() && loadPending
      modifies this`attendanceRecords, this`view, this`loadPending
      ensures Valid()
      ensures !loadPending
      ensures reply.Delivered? && reply.body.status == "success" ==>
        attendanceRecords == LoadedRecords(reply.body.data) && view == Some(Render(attendanceRecords))
      ensures !(reply.Delivered? && reply.body.status == "success") ==>
        attendanceRecords == old(attendanceRecords) && view == old(view)
    {
      loadPending := false;
      if reply.Delivered? && reply.body.status == "success" {
        attendanceRecords := LoadedRecords(reply.body.data);
        RenderAttendanceList();
      }
    }

    /** addAttendanceRecord: `unshift` then re-render. */
    method AddAttendanceRecord(r: Record)
      requires Valid()
      modifies this`attendanceRecords, this`view
      ensures Valid()
      ensures attendanceRecords == [r] + old(attendanceRecords)
      ensures view == Some(Render(attendanceRecords))
    {
      attendanceRecords := [r] + attendanceRecords;
      RenderAttendanceList();
    }

    /** renderAttendanceList. */
    method RenderAttendanceList()
      modifies this`view
      ensures view == Some(Render(attendanceRecords))
    {
      view := Some(Render(attendanceRecords));
    }

    /** resetForm: clears both fields and shows 'Ready for next attendance'; the buttons are left alone. */
    method ResetForm()
      modifies this`userIdValue, this`userNameValue, this`status
      ensures userIdValue == "" && userNameValue == ""
      ensures status == Status(Ready, "Ready for next attendance")
    {
      userIdValue := "";
      userNameValue := "";
      UpdateStatus(Ready, "Ready for next attendance");
    }

    /** handleCameraError: "Camera error. " and advice chosen by the error's name. */
    method HandleCameraError(name: string)
      modifies this`status
      ensures CameraErrorShown(status, name)
    {
      var msg := "Camera error. ";
      if name == "NotAllowedError" {
        msg := msg + "Please allow access.";
      } else if name == "NotFoundError" {
        msg := msg + "No camera found.";
      } else {
        msg := msg + "Try again.";
      }
      UpdateStatus(Error, msg);
    }

    /** The event loop runs the oldest pending 2-second callback. */
    method FireTimer()
      requires Valid() && timers != []
      modifies this`timers, this`userIdValue, this`userNameValue, this`status, this`captureDisabled
      ensures Valid()
      ensures timers == old(timers[1..])
      ensures old(timers[0]) == ResetFormTask ==>
        && userIdValue == "" && userNameValue == ""
        && status == Status(Ready, "Ready for next attendance")
        && captureDisabled == old(captureDisabled)
      ensures old(timers[0]) == RevalidateTask ==>
        && userIdValue == old(userIdValue) && userNameValue == old(userNameValue) && status == old(status)
        && (!captureDisabled <==> Trim(userIdValue) != [] && Trim(userNameValue) != [] && stream.Some? && !isCapturing)
    {
      var task := timers[0];
      timers := timers[1..];
      match task {
        case ResetFormTask => ResetForm();
        case RevalidateTask => ValidateUserInfo();
      }
    }
  }

  // ----- Sequences of events -----

  /** Two calls of captureAttendance before the first settles post one request only; the first is an enabled click. */
  method DoubleCaptureSendsOnce(page: Page, s: StreamId, id: string, name: string, frame: string, confidence: string)
    returns (enabledAtClick: bool, sent: nat)
    requires Trim(id) != [] && Trim(name) != []
    ensures enabledAtClick && sent == 1
  {
    var t := CameraReadyWithIdentity(page, s, id, name);
    enabledAtClick := !t.captureDisabled;
    t.CaptureAttendance(frame);
    t.CaptureAttendance(frame);
    t.RecognitionDone(true, confidence);
    sent := |t.requests|;
  }

  /** Starting the camera twice and stopping it leaves the first stream's tracks running. */
  method RestartLeaksFirstStream(page: Page, s1: StreamId, s2: StreamId) returns (stillRunning: bool)
    requires s1 != s2
    ensures stillRunning
  {
    var t := new AttendanceTracker(page);
    t.StartCamera(Granted(s1));
    t.StartCamera(Granted(s2));
    t.StopCamera();
    stillRunning := t.stream.None? && s1 in t.liveStreams && s2 !in t.liveStreams;
  }

  /** A fresh controller after the camera started and both fields were filled in. */
  method CameraReadyWithIdentity(page: Page, s: StreamId, id: string, name: string) returns (t: AttendanceTracker)
    ensures fresh(t) && t.Valid()
    ensures t.userIdValue == id && t.userNameValue == name && t.stream == Some(s)
    ensures !t.isCapturing && t.requests == [] && t.timers == [] && t.attendanceRecords == []
    ensures t.phase == NotCapturing
    ensures !t.captureDisabled <==> Trim(id) != [] && Trim(name) != []
  {
    t := new AttendanceTracker(page);
    t.StartCamera(Granted(s));
    t.OnLoadedMetadata();
    t.EditUserId(id);
    t.EditUserName(name);
  }

  /**
   * The identity posted is the one in the fields when recognition finishes:
   * blanking the ID field during recognition posts an empty ID, although
   * capture was enabled for a non-empty one.
   */
  method IdentityReadAfterRecognition(page: Page, s: StreamId, id: string, name: string, blank: string,
                                      frame: string, confidence: string)
    returns (enabledAtClick: bool, postedId: string)
    requires Trim(id) != [] && Trim(name) != [] && Trim(blank) == []
    ensures enabledAtClick && postedId == []
  {
    var t := CameraReadyWithIdentity(page, s, id, name);
    enabledAtClick := !t.captureDisabled;
    t.CaptureAttendance(frame);
    t.EditUserId(blank);
    t.RecognitionDone(true, confidence);
    assert t.userIdValue == blank;
    assert t.requests == [Payload(Trim(blank), Trim(t.userNameValue), confidence, frame)];
    postedId := t.requests[0].userId;
  }

  /** A success is recorded first in the history, and the first timer then clears the form. */
  method SuccessThenReset(page: Page, s: StreamId, id: string, name: string, frame: string, confidence: string, now: string)
    returns (enabledAtClick: bool, first: Record, idAfter: string, nameAfter: string, st: Status, capturing: bool)
    requires Trim(id) != [] && Trim(name) != []
    ensures enabledAtClick
    ensures first == Record(Trim(id), Trim(name), Some(confidence), now)
    ensures idAfter == "" && nameAfter == "" && st == Status(Ready, "Ready for next attendance") && !capturing
  {
    var t := CameraReadyWithIdentity(page, s, id, name);
    enabledAtClick := !t.captureDisabled;
    t.CaptureAttendance(frame);
    t.RecognitionDone(true, confidence);
    assert t.userIdValue == id && t.userNameValue == name;
    var p := Payload(Trim(id), Trim(name), confidence, frame);
    assert t.phase == AwaitingServer(p);
    t.ServerReplied(Delivered(Reply("success", None)), now);
    assert t.attendanceRecords == [Record(p.userId, p.userName, Some(confidence), now)];
    first := t.attendanceRecords[0];
    assert t.timers == [ResetFormTask, RevalidateTask];
    t.FireTimer();
    idAfter, nameAfter, st, capturing := t.userIdValue, t.userNameValue, t.status, t.isCapturing;
  }

  /** An 'exists' reply shows the duplicate message and leaves the history empty. */
  method ExistsKeepsHistory(page: Page, s: StreamId, id: string, name: string, frame: string, confidence: string, now: string)
    returns (enabledAtClick: bool, st: Status, history: seq<Record>)
    requires Trim(id) != [] && Trim(name) != []
    ensures enabledAtClick
    ensures st == Status(Error, "Attendance already marked today") && history == []
  {
    var t := CameraReadyWithIdentity(page, s, id, name);
    enabledAtClick := !t.captureDisabled;
    t.CaptureAttendance(frame);
    t.RecognitionDone(true, confidence);
    t.ServerReplied(Delivered(Reply("exists", None)), now);
    st, history := t.status, t.attendanceRecords;
  }

  /** Stopping the camera twice ends in the state one stop gives. */
  method StopCameraTwice(t: AttendanceTracker)
    requires t.Valid()
    modifies t`stream, t`liveStreams, t`status, t`startDisabled, t`stopDisabled, t`captureDisabled
    ensures t.Valid()
    ensures t.stream.None?
    ensures t.liveStreams == if old(t.stream).Some? then old(t.liveStreams) - {old(t.stream).value} else old(t.liveStreams)
    ensures t.status == Status(Idle, "Camera stopped")
    ensures !t.startDisabled && t.stopDisabled && t.captureDisabled
    ensures t.userIdValue == old(t.userIdValue) && t.userNameValue == old(t.userNameValue)
    ensures t.attendanceRecords == old(t.attendanceRecords) && t.isCapturing == old(t.isCapturing)
    ensures t.phase == old(t.phase) && t.requests == old(t.requests) && t.timers == old(t.timers)
    ensures t.view == old(t.view) && t.loadPending == old(t.loadPending)
  {
    t.StopCamera();
    t.StopCamera();
  }
}
