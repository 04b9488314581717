/**
 * The Flask endpoint GET /api/attendance_list:
 * `SELECT * FROM attendance ORDER BY date DESC, time DESC LIMIT 10`
 * followed by a projection of each row onto the JSON item.
 */
module Recent {
  import opened Prelude
  import opened Api
  import opened Backend

  /** The LIMIT of the query. */
  const RecentLimit := 10

  /** sqlite's BINARY collation on TEXT: lexicographic order of the characters. */
  predicate TextLess(a: string, b: string)
    decreases |a|
  {
    if a == [] then b != []
    else if b == [] then false
    else if a[0] != b[0] then a[0] < b[0]
    else TextLess(a[1..], b[1..])
  }

  lemma {:induction false} TextLessIrreflexive(a: string)
    ensures !TextLess(a, a)
    decreases |a|
  {
    if a != [] {
      TextLessIrreflexive(a[1..]);
    }
  }

  lemma {:induction false} TextLessTransitive(a: string, b: string, c: string)
    requires TextLess(a, b) && TextLess(b, c)
    ensures TextLess(a, c)
    decreases |a|
  {
    if a != [] && a[0] == b[0] && b[0] == c[0] {
      TextLessTransitive(a[1..], b[1..], c[1..]);
    }
  }

  lemma {:induction false} TextLessTotal(a: string, b: string)
    ensures TextLess(a, b) || a == b || TextLess(b, a)
    decreases |a|
  {
    if a != [] && b != [] && a[0] == b[0] {
      TextLessTotal(a[1..], b[1..]);
      if a[1..] == b[1..] {
        assert a == [a[0]] + a[1..] && b == [b[0]] + b[1..];
      }
    }
  }

  /** `x` comes strictly before `y` in the query's order: a later date, or the same date and a later time. */
  predicate Newer(x: AttendanceRow, y: AttendanceRow) {
    TextLess(y.date, x.date) || (y.date == x.date && TextLess(y.time, x.time))
  }

  lemma NewerAsymmetric(x: AttendanceRow, y: AttendanceRow)
    requires Newer(x, y)
    ensures !Newer(y, x)
  {
    TextLessIrreflexive(x.date);
    TextLessIrreflexive(x.time);
    if TextLess(y.date, x.date) && TextLess(x.date, y.date) {
      TextLessTransitive(x.date, y.date, x.date);
    }
    if TextLess(y.time, x.time) && TextLess(x.time, y.time) {
      TextLessTransitive(x.time, y.time, x.time);
    }
  }

  /** "Not newer" is transitive: the query's order is a total preorder. */
  lemma NotNewerTransitive(x: AttendanceRow, y: AttendanceRow, z: AttendanceRow)
    requires !Newer(x, y) && !Newer(y, z)
    ensures !Newer(x, z)
  {
    TextLessTotal(x.date, y.date);
    TextLessTotal(y.date, z.date);
    TextLessTotal(x.time, y.time);
    TextLessTotal(y.time, z.time);
    if Newer(x, z) {
      if TextLess(z.date, x.date) {
        if TextLess(x.date, y.date) { TextLessTransitive(z.date, x.date, y.date); }
        if TextLess(z.date, y.date) {
          if TextLess(y.date, z.date) { TextLessTransitive(z.date, y.date, z.date); TextLessIrreflexive(z.date); }
        }
        if TextLess(y.date, z.date) { TextLessTransitive(y.date, z.date, x.date); }
      } else {
        if TextLess(x.time, y.time) && TextLess(y.time, z.time) { TextLessTransitive(x.time, y.time, z.time); }
        if TextLess(z.time, x.time) && TextLess(x.time, y.time) { TextLessTransitive(z.time, x.time, y.time); }
        if TextLess(y.time, z.time) && TextLess(z.time, x.time) { TextLessTransitive(y.time, z.time, x.time); }
        if TextLess(z.time, y.time) && TextLess(y.time, z.time) { TextLessTransitive(z.time, y.time, z.time); TextLessIrreflexive(z.time); }
        if TextLess(x.date, y.date) && TextLess(y.date, x.date) { TextLessTransitive(x.date, y.date, x.date); TextLessIrreflexive(x.date); }
      }
    }
  }

  /** ORDER BY date DESC, time DESC: no row is newer than a row before it. */
  ghost predicate NewestFirst(rows: seq<AttendanceRow>) {
    forall i, j :: 0 <= i < j < |rows| ==> !Newer(rows[j], rows[i])
  }

  /** Puts `x` into newest-first `rows`, after every row strictly newer than it. */
  function Insert(x: AttendanceRow, rows: seq<AttendanceRow>): (r: seq<AttendanceRow>)
    requires NewestFirst(rows)
    ensures NewestFirst(r)
    ensures multiset(r) == multiset(rows) + multiset{x}
  {
    if rows == [] || !Newer(rows[0], x) then
      forall j | 0 <= j < |rows|
        ensures !Newer(rows[j], x)
      {
        if j > 0 { NotNewerTransitive(rows[j], rows[0], x); }
      }
      [x] + rows
    else
      var rest := Insert(x, rows[1..]);
      forall j | 0 <= j < |rest|
        ensures !Newer(rest[j], rows[0])
      {
        assert rest[j] in multiset(rest);
        if rest[j] == x {
          NewerAsymmetric(rows[0], x);
        } else {
          assert rest[j] in multiset(rows[1..]);
          var k :| 0 <= k < |rows[1..]| && rows[1..][k] == rest[j];
          assert rows[k + 1] == rest[j];
        }
      }
      assert rows == [rows[0]] + rows[1..];
      [rows[0]] + rest
  }

  /** The rows in the query's order (insertion sort). */
  function SortNewestFirst(rows: seq<AttendanceRow>): (r: seq<AttendanceRow>)
    ensures NewestFirst(r)
    ensures multiset(r) == multiset(rows)
  {
    if rows == [] then []
    else
      assert rows == rows[..|rows| - 1] + [rows[|rows| - 1]];
      Insert(rows[|rows| - 1], SortNewestFirst(rows[..|rows| - 1]))
  }

  /** The rows the query returns: the first RecentLimit rows in that order. */
  function RecentRows(attendance: seq<AttendanceRow>): (r: seq<AttendanceRow>)
    ensures |r| == Min(RecentLimit, |attendance|)
    ensures NewestFirst(r)
    ensures multiset(r) <= multiset(attendance)
  {
    var s := SortNewestFirst(attendance);
    assert s == s[..Min(RecentLimit, |s|)] + s[Min(RecentLimit, |s|)..];
    assert |s| == |multiset(s)| == |attendance|;
    s[..Min(RecentLimit, |s|)]
  }

  /** The rows kept are the newest: a row strictly newer than a returned row is returned too. */
  lemma RecentRowsAreNewest(attendance: seq<AttendanceRow>, x: AttendanceRow, i: nat)
    requires x in attendance
    requires i < |RecentRows(attendance)| && Newer(x, RecentRows(attendance)[i])
    ensures x in RecentRows(attendance)
  {
    var s := SortNewestFirst(attendance);
    var k := Min(RecentLimit, |s|);
    assert |s| == |multiset(s)| == |attendance|;
    assert RecentRows(attendance) == s[..k];
    assert x in multiset(attendance);
    var p :| 0 <= p < |s| && s[p] == x;
    if p >= k {
      assert false;
    }
    assert s[..k][p] == x;
  }

  /** The JSON item for one row: the columns under their renamed keys. */
  function ToItem(r: AttendanceRow): ListItem {
    ListItem(r.userId, r.name, r.date, r.time, r.confidence)
  }

  /** The `data` array of recent_attendance. */
  function RecentAttendance(attendance: seq<AttendanceRow>): (items: seq<ListItem>)
    ensures |items| == Min(RecentLimit, |attendance|)
    ensures forall i :: 0 <= i < |items| ==>
      var r := RecentRows(attendance)[i];
      && items[i].userId == r.userId && items[i].userName == r.name
      && items[i].date == r.date && items[i].time == r.time && items[i].confidence == r.confidence
  {
    var rows := RecentRows(attendance);
    seq(|rows|, i requires 0 <= i < |rows| => ToItem(rows[i]))
  }

  /** The reply of the endpoint. */
  function RecentAttendanceReply(attendance: seq<AttendanceRow>): (r: ListReply)
    ensures r.status == "success" && |r.data| <= RecentLimit
    ensures r.data == RecentAttendance(attendance)
  {
    ListReply("success", RecentAttendance(attendance))
  }
}
