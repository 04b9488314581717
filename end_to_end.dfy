/**
 * The client's reading of the server's replies: what the browser shows for
 * each decision mark_attendance takes, and what it holds after loading the
 * list recent_attendance returns.
 */
module EndToEnd {
  import opened Prelude
  import opened Api
  import B = Backend
  import R = Recent
  import T = Tracker

  /** The JSON object sendAttendanceData posts, as the server reads it. */
  function RequestBody(p: T.Payload): B.Body {
    Some(map["userId" := p.userId, "userName" := p.userName,
             "confidence" := p.confidence, "imageData" := p.imageData])
  }

  /** The client adds a history record exactly when the server appended an attendance row. */
  lemma ClientRecordsIffServerAppends(
    t: B.Tables, p: T.Payload, scan: B.FaceScan, sameFace: B.FaceMatcher,
    today: string, now: string, clientNow: string)
    ensures var s := B.MarkSpec(t, RequestBody(p), scan, sameFace, today, now);
      (T.ReplyOutcome(p, Delivered(s.response.reply), clientNow).Accepted? <==>
         |s.tables.attendance| == |t.attendance| + 1)
  {
    B.TablesChangeOnlyOnSuccess(t, RequestBody(p), scan, sameFace, today, now);
  }

  /**
   * The message the client shows for each refusal of the server.  The
   * client's own default for a face mismatch never appears: the server
   * always sends a message with it.
   */
  lemma ClientMessageForEachRefusal(
    t: B.Tables, p: T.Payload, scan: B.FaceScan, sameFace: B.FaceMatcher,
    today: string, now: string, clientNow: string)
    ensures var s := B.MarkSpec(t, RequestBody(p), scan, sameFace, today, now);
      var o := T.ReplyOutcome(p, Delivered(s.response.reply), clientNow);
      && (s.response == B.IncompleteData ==> o == T.Refused("incomplete data"))
      && (s.response == B.NoFaceFound ==> o == T.Refused("no face found"))
      && (s.response == B.FaceLinked ==> o == T.Refused("Face already linked"))
      && (s.response == B.AlreadyMarked ==> o == T.Refused("Attendance already marked today"))
      && (s.response.reply.status == "face_mismatch" ==> o != T.Refused("Face already linked to another ID"))
  {
  }

  /** A payload whose ID or name is empty (fields cleared during recognition) is refused as incomplete. */
  lemma EmptyIdentityIsIncomplete(
    t: B.Tables, p: T.Payload, scan: B.FaceScan, sameFace: B.FaceMatcher, today: string, now: string)
    requires p.userId == "" || p.userName == ""
    ensures B.MarkSpec(t, RequestBody(p), scan, sameFace, today, now) == B.Step(B.IncompleteData, t)
  {
  }

  /**
   * After loading the server's list the client holds at most ten records,
   * newest first, each stamped with its row's date and time.
   */
  lemma LoadedHistoryIsRecent(attendance: seq<B.AttendanceRow>)
    ensures var rs := T.LoadedRecords(R.RecentAttendanceReply(attendance).data);
      var rows := R.RecentRows(attendance);
      && |rs| == Min(R.RecentLimit, |attendance|)
      && forall i :: 0 <= i < |rs| ==>
           && rs[i].userId == rows[i].userId && rs[i].userName == rows[i].name
           && rs[i].confidence == rows[i].confidence
           && rs[i].timestamp == rows[i].date + "T" + rows[i].time
  {
  }
}
