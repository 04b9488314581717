/**
 * The decision logic of the Flask endpoint POST /api/mark_attendance.
 *
 * The two sqlite tables are abstract values: `users` is a map keyed by
 * user_id (the table's primary key) and `attendance` is the sequence of its
 * rows in insertion order.  The outcome of decoding the image and looking
 * for a face, the date and the clock are inputs; the library's face
 * comparison is the parameter `sameFace`.
 */
module Backend {
  import opened Prelude
  import opened Api

  /** The bytes of a numpy face encoding, as stored in the `face_encoding` BLOB. */
  datatype Encoding = Encoding(bytes: seq<bv8>)

  /** A row of `users` apart from its key. */
  datatype UserRow = UserRow(name: string, faceEncoding: Encoding)

  /** A row of `attendance` (its AUTOINCREMENT id is left implicit in the position). */
  datatype AttendanceRow = AttendanceRow(
    userId: string,
    name: string,
    date: string,
    time: string,
    confidence: Option<string>)

  /** Both tables at one moment. */
  datatype Tables = Tables(users: map<string, UserRow>, attendance: seq<AttendanceRow>)

  /**
   * What `request.get_json()` returns: `None` when it returns Python `None`
   * (a JSON `null` body), or a JSON object whose members all have string
   * values.  Bodies with members of other JSON types are not modelled.
   */
  type Body = Option<map<string, string>>

  /** The result of decoding the image and asking for its face encodings. */
  datatype FaceScan =
    | ScanError(message: string)    // decoding or loading the image raised
    | NoFace                          // `face_encodings` returned an empty list
    | FaceFound(encoding: Encoding)   // the first encoding found

  /** `compare_faces([saved], current)[0]`: does `saved` match `current`? */
  type FaceMatcher = (Encoding, Encoding) -> bool

  /** A JSON reply together with its HTTP status code. */
  datatype Response = Response(reply: Reply, code: int)

  /** The response of one request and the tables after it. */
  datatype Step = Step(response: Response, tables: Tables)

  /** `data.get(key)`. */
  function Get(data: map<string, string>, key: string): Option<string> {
    if key in data then Some(data[key]) else None
  }

  /** Python truthiness of an optional string: present and non-empty. */
  predicate Truthy(v: Option<string>) {
    v.Some? && v.value != ""
  }

  /** The body carries a non-empty userId, userName and an imageData containing ','. */
  predicate Complete(data: map<string, string>) {
    && Truthy(Get(data, "userId"))
    && Truthy(Get(data, "userName"))
    && Truthy(Get(data, "imageData"))
    && ',' in data["imageData"]
  }

  /** Some stored user other than `id` has a face that matches `face`. */
  predicate LinkedElsewhere(users: map<string, UserRow>, id: string, face: Encoding, sameFace: FaceMatcher) {
    exists u :: u in users && u != id && sameFace(users[u].faceEncoding, face)
  }

  /** `attendance` already holds a row for `id` on `date`. */
  predicate MarkedOn(attendance: seq<AttendanceRow>, id: string, date: string) {
    exists i :: 0 <= i < |attendance| && attendance[i].userId == id && attendance[i].date == date
  }

  const NoData := Response(Reply("error", Some("no data")), 400)
  const IncompleteData := Response(Reply("error", Some("incomplete data")), 400)
  const NoFaceFound := Response(Reply("face_mismatch", Some("no face found")), 400)
  const FaceLinked := Response(Reply("face_mismatch", Some("Face already linked")), 403)
  const AlreadyMarked := Response(Reply("exists", None), 200)
  const Marked := Response(Reply("success", None), 200)

  /**
   * The specification of one request: validation first, then the face scan,
   * then the check against other users' faces, then the duplicate-today
   * check, and only then the REPLACE into `users` and the INSERT into
   * `attendance`.
   */
  function MarkSpec(t: Tables, body: Body, scan: FaceScan, sameFace: FaceMatcher, today: string, now: string): (s: Step)
    ensures s.tables != t <==> s.response == Marked
    ensures t.attendance <= s.tables.attendance && |s.tables.attendance| <= |t.attendance| + 1
    ensures t.users.Keys <= s.tables.users.Keys
  {
    if body.None? || body.value == map[] then Step(NoData, t)
    else if !Complete(body.value) then Step(IncompleteData, t)
    else match scan
      case ScanError(m) => Step(Response(Reply("error", Some(m)), 500), t)
      case NoFace => Step(NoFaceFound, t)
      case FaceFound(face) =>
        var id, name := body.value["userId"], body.value["userName"];
        if LinkedElsewhere(t.users, id, face, sameFace) then Step(FaceLinked, t)
        else if MarkedOn(t.attendance, id, today) then Step(AlreadyMarked, t)
        else Step(Marked, Tables(
          t.users[id := UserRow(name, face)],
          t.attendance + [AttendanceRow(id, name, today, now, Get(body.value, "confidence"))]))
  }

  /** The server's database connection, holding both tables. */
  class Database {
    var users: map<string, UserRow>
    var attendance: seq<AttendanceRow>

    constructor (users0: map<string, UserRow>, attendance0: seq<AttendanceRow>)
      ensures users == users0 && attendance == attendance0
    {
      users, attendance := users0, attendance0;
    }

    function Contents(): Tables
      reads this
    {
      Tables(users, attendance)
    }

    /**
     * mark_attendance: the tables change only on success, and then by exactly
     * what MarkSpec says; the reply is MarkSpec's.
     */
    method MarkAttendance(body: Body, scan: FaceScan, sameFace: FaceMatcher, today: string, now: string)
      returns (response: Response)
      modifies this
      ensures Step(response, Contents()) == MarkSpec(old(Contents()), body, scan, sameFace, today, now)
      ensures old(OneRowPerUserPerDay(attendance)) ==> OneRowPerUserPerDay(attendance)
    {
      if OneRowPerUserPerDay(attendance) {
        MarkKeepsOneRowPerUserPerDay(Contents(), body, scan, sameFace, today, now);
      }
      if body.None? || body.value == map[] {
        return NoData;
      }
      var data := body.value;
      var userId, userName, imgData := Get(data, "userId"), Get(data, "userName"), Get(data, "imageData");
      if !Truthy(userId) || !Truthy(userName) || !Truthy(imgData) || ',' !in imgData.value {
        return IncompleteData;
      }
      assert Complete(data);
      var face;
      match scan {
        case ScanError(m) => return Response(Reply("error", Some(m)), 500);
        case NoFace => return NoFaceFound;
        case FaceFound(e) => face := e;
      }
      // Scan every stored user; the row order of the SELECT is unspecified.
      var remaining := users.Keys;
      while remaining != {}
        invariant remaining <= users.Keys
        invariant forall u :: u in users && u !in remaining ==>
                    !(sameFace(users[u].faceEncoding, face) && u != userId.value)
        decreases remaining
      {
        var u :| u in remaining;
        if sameFace(users[u].faceEncoding, face) && u != userId.value {
          return FaceLinked;
        }
        remaining := remaining - {u};
      }
      // SELECT 1 FROM attendance WHERE user_id=? AND date=?
      if MarkedOn(attendance, userId.value, today) {
        return AlreadyMarked;
      }
      users := users[userId.value := UserRow(userName.value, face)];
      attendance := attendance + [AttendanceRow(userId.value, userName.value, today, now, Get(data, "confidence"))];
      return Marked;
    }
  }

  // ----- Properties of one request -----

  /** A `null` or empty JSON body, or one lacking a field, is rejected and changes nothing. */
  lemma InputRejection(t: Tables, body: Body, scan: FaceScan, sameFace: FaceMatcher, today: string, now: string)
    ensures var s := MarkSpec(t, body, scan, sameFace, today, now);
      && (body.None? || body.value == map[] ==> s == Step(NoData, t))
      && (body.Some? && body.value != map[] && !Complete(body.value) ==> s == Step(IncompleteData, t))
  {
  }

  /** A complete request whose image holds no face is answered face_mismatch / 'no face found'. */
  lemma NoFaceRejection(t: Tables, data: map<string, string>, sameFace: FaceMatcher, today: string, now: string)
    requires Complete(data)
    ensures MarkSpec(t, Some(data), NoFace, sameFace, today, now) == Step(NoFaceFound, t)
  {
  }

  /**
   * A complete request with a face is answered 403 face_mismatch exactly when
   * another user's stored face matches; a match with the requester's own row
   * does not count.  Either way nothing changes in that case.
   */
  lemma FaceLinkedIff(t: Tables, data: map<string, string>, face: Encoding, sameFace: FaceMatcher, today: string, now: string)
    requires Complete(data)
    ensures var s := MarkSpec(t, Some(data), FaceFound(face), sameFace, today, now);
      && (s.response == FaceLinked <==> LinkedElsewhere(t.users, data["userId"], face, sameFace))
      && (s.response == FaceLinked ==> s.tables == t)
  {
  }

  /** The duplicate check runs only once the face check has passed, and changes nothing. */
  lemma DuplicateTodayIff(t: Tables, data: map<string, string>, face: Encoding, sameFace: FaceMatcher, today: string, now: string)
    requires Complete(data)
    ensures var s := MarkSpec(t, Some(data), FaceFound(face), sameFace, today, now);
      && (s.response == AlreadyMarked <==>
            !LinkedElsewhere(t.users, data["userId"], face, sameFace) && MarkedOn(t.attendance, data["userId"], today))
      && (s.response == AlreadyMarked ==> s.tables == t)
  {
  }

  /**
   * Success happens exactly when every check passes; it replaces the user's
   * row (leaving every other user as it was) and appends exactly one row.
   */
  lemma SuccessPath(t: Tables, body: Body, scan: FaceScan, sameFace: FaceMatcher, today: string, now: string)
    ensures var s := MarkSpec(t, body, scan, sameFace, today, now);
      && (s.response.reply.status == "success" <==>
            && body.Some? && body.value != map[] && Complete(body.value) && scan.FaceFound?
            && !LinkedElsewhere(t.users, body.value["userId"], scan.encoding, sameFace)
            && !MarkedOn(t.attendance, body.value["userId"], today))
      && (s.response.reply.status == "success" ==>
            var id, name := body.value["userId"], body.value["userName"];
            && s.response == Marked
            && s.tables.users.Keys == t.users.Keys + {id}
            && s.tables.users[id] == UserRow(name, scan.encoding)
            && (forall u :: u in t.users && u != id ==> s.tables.users[u] == t.users[u])
            && s.tables.attendance == t.attendance + [AttendanceRow(id, name, today, now, Get(body.value, "confidence"))])
  {
  }

  /** Only a successful request changes the tables. */
  lemma TablesChangeOnlyOnSuccess(t: Tables, body: Body, scan: FaceScan, sameFace: FaceMatcher, today: string, now: string)
    ensures var s := MarkSpec(t, body, scan, sameFace, today, now);
      s.response.reply.status != "success" ==> s.tables == t
  {
  }

  // ----- One row per user per day -----

  /** No two rows of `attendance` share a (user_id, date) pair. */
  ghost predicate OneRowPerUserPerDay(attendance: seq<AttendanceRow>) {
    forall i, j :: 0 <= i < j < |attendance| ==>
      !(attendance[i].userId == attendance[j].userId && attendance[i].date == attendance[j].date)
  }

  /** One request keeps the table free of (user_id, date) duplicates. */
  lemma MarkKeepsOneRowPerUserPerDay(t: Tables, body: Body, scan: FaceScan, sameFace: FaceMatcher, today: string, now: string)
    requires OneRowPerUserPerDay(t.attendance)
    ensures OneRowPerUserPerDay(MarkSpec(t, body, scan, sameFace, today, now).tables.attendance)
  {
    var s := MarkSpec(t, body, scan, sameFace, today, now);
    if s.tables != t {
      var a, n := s.tables.attendance, |t.attendance|;
      assert a[..n] == t.attendance;
      forall i, j | 0 <= i < j < |a|
        ensures !(a[i].userId == a[j].userId && a[i].date == a[j].date)
      {
        if j == n {
          assert a[i] == t.attendance[i];
        }
      }
    }
  }

  /** One call of the endpoint, with everything the environment supplies. */
  datatype Call = Call(body: Body, scan: FaceScan, today: string, now: string)

  /** The tables after a sequence of calls, handled one after another; rows are only ever appended. */
  function Replay(t: Tables, calls: seq<Call>, sameFace: FaceMatcher): (r: Tables)
    ensures t.attendance <= r.attendance && |r.attendance| <= |t.attendance| + |calls|
    ensures t.users.Keys <= r.users.Keys
    decreases |calls|
  {
    if calls == [] then t
    else
      var c := calls[0];
      Replay(MarkSpec(t, c.body, c.scan, sameFace, c.today, c.now).tables, calls[1..], sameFace)
  }

  /** Any sequence of calls keeps a duplicate-free table duplicate-free. */
  lemma {:induction false} ReplayKeepsOneRowPerUserPerDay(t: Tables, calls: seq<Call>, sameFace: FaceMatcher)
    requires OneRowPerUserPerDay(t.attendance)
    ensures OneRowPerUserPerDay(Replay(t, calls, sameFace).attendance)
    decreases |calls|
  {
    if calls != [] {
      var c := calls[0];
      MarkKeepsOneRowPerUserPerDay(t, c.body, c.scan, sameFace, c.today, c.now);
      ReplayKeepsOneRowPerUserPerDay(MarkSpec(t, c.body, c.scan, sameFace, c.today, c.now).tables, calls[1..], sameFace);
    }
  }
}
