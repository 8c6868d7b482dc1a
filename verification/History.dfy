// Chat history retention: a table of text rows that SaveText inserts into and
// prunes, and the merged read over text rows and files.

module History {
  import opened Wrappers

  // `id` is the AUTOINCREMENT key. Rows of one table differ in id.
  datatype Row = Row(id: nat, room: string, user: string, username: string, content: string, timestamp: int)

  datatype File = File(id: string, room: string, user: string, username: string,
                       filename: string, mimeType: string, size: nat, timestamp: int)

  // ORDER BY timestamp DESC, id DESC
  predicate Newer(a: Row, b: Row) {
    a.timestamp > b.timestamp || (a.timestamp == b.timestamp && a.id > b.id)
  }

  function InRoom(rows: set<Row>, room: string): set<Row> {
    set r | r in rows && r.room == room
  }

  function NewerThan(rows: set<Row>, x: Row): set<Row> {
    set r | r in rows && Newer(r, x)
  }

  // The LIMIT-n prefix of the rows of a room in that order: those with fewer
  // than n newer rows.
  function Top(rows: set<Row>, room: string, n: nat): set<Row> {
    set r | r in rows && r.room == room && |NewerThan(InRoom(rows, room), r)| < n
  }

  ghost predicate Keyed(rows: set<Row>) {
    forall a, b :: a in rows && b in rows && a.id == b.id ==> a == b
  }

  // ------------------------------------------------- what LIMIT n selects

  lemma {:induction false} Newest(rows: set<Row>) returns (x: Row)
    requires rows != {} && Keyed(rows)
    ensures x in rows && forall r :: r in rows && r != x ==> Newer(x, r)
    decreases |rows|
  {
    var y :| y in rows;
    if rows == {y} {
      x := y;
    } else {
      assert |rows - {y}| < |rows|;
      assert y in rows && rows - {y} != {};
      var z := Newest(rows - {y});
      x := if Newer(y, z) then y else z;
      forall r | r in rows && r != x ensures Newer(x, r) {
        assert r != y ==> r in rows - {y};
        assert y.id != z.id;
      }
    }
  }

  lemma OneNewerLess(all: set<Row>, x: Row, r: Row)
    requires x in all && Newer(x, r)
    ensures |NewerThan(all, r)| == |NewerThan(all - {x}, r)| + 1
  {
    assert NewerThan(all, r) == NewerThan(all - {x}, r) + {x};
  }

  // With the newest row set aside, every other row has one newer row less.
  lemma TopPeel(rows: set<Row>, room: string, n: nat, x: Row)
    requires n > 0 && x in InRoom(rows, room)
    requires forall r :: r in InRoom(rows, room) && r != x ==> Newer(x, r)
    ensures x in Top(rows, room, n)
    ensures Top(rows, room, n) - {x} == Top(rows - {x}, room, n - 1)
  {
    var all := InRoom(rows, room);
    var rest := Top(rows - {x}, room, n - 1);
    assert InRoom(rows - {x}, room) == all - {x};
    assert NewerThan(all, x) == {} by {
      assert forall r :: r in all && r != x ==> !Newer(r, x);
    }
    forall r ensures r in Top(rows, room, n) - {x} <==> r in rest {
      if r in all && r != x {
        OneNewerLess(all, x, r);
      }
    }
  }

  // `top` is n elements of `all`, or all of them.
  ghost predicate Capped<T>(top: set<T>, all: set<T>, n: nat) {
    |top| == (if |all| <= n then |all| else n) && (|all| <= n ==> top == all)
  }

  lemma CappedPeel<T>(top: set<T>, all: set<T>, n: nat, x: T)
    requires n > 0 && x in top && x in all && Capped(top - {x}, all - {x}, n - 1)
    ensures Capped(top, all, n)
  {
    assert top == (top - {x}) + {x} && all == (all - {x}) + {x};
  }

  // LIMIT n selects n rows, or all if there are fewer.
  lemma {:induction false} TopSize(rows: set<Row>, room: string, n: nat)
    requires Keyed(rows)
    ensures Capped(Top(rows, room, n), InRoom(rows, room), n)
    decreases n
  {
    var all := InRoom(rows, room);
    if n == 0 || all == {} {
      assert Top(rows, room, n) == {};
    } else {
      var x := Newest(all);
      TopPeel(rows, room, n, x);
      TopSize(rows - {x}, room, n - 1);
      assert InRoom(rows - {x}, room) == all - {x};
      CappedPeel(Top(rows, room, n), all, n, x);
    }
  }

  // A row left out of the top has the whole top newer than it.
  lemma TopNewer(rows: set<Row>, room: string, n: nat, t: Row, x: Row)
    requires Keyed(rows) && t in Top(rows, room, n) && x in InRoom(rows, room) && x !in Top(rows, room, n)
    ensures Newer(t, x)
  {
    var all := InRoom(rows, room);
    if !Newer(t, x) {
      assert NewerThan(all, x) <= NewerThan(all, t);
      Subset(NewerThan(all, x), NewerThan(all, t));
    }
  }

  lemma {:induction false} Subset<T>(a: set<T>, b: set<T>)
    requires a <= b
    ensures |a| <= |b|
  {
    assert b == a + (b - a);
  }

  // A row that every other row of its room is older than is in the top.
  lemma NewestIsTop(rows: set<Row>, row: Row, n: nat)
    requires n > 0 && row in rows
    requires forall r :: r in rows && r.room == row.room && r != row ==> r.timestamp <= row.timestamp && r.id < row.id
    ensures row in Top(rows, row.room, n)
  {
    assert NewerThan(InRoom(rows, row.room), row) == {};
  }

  // Any table between the top of a log and the log has the same top.
  lemma TopSandwich(rows: set<Row>, log: set<Row>, room: string, n: nat)
    requires Keyed(log) && rows <= log && Top(log, room, n) <= rows
    ensures Top(rows, room, n) == Top(log, room, n)
  {
    var few, all := InRoom(rows, room), InRoom(log, room);
    forall r | r in few ensures r in Top(rows, room, n) <==> r in Top(log, room, n) {
      Subset(NewerThan(few, r), NewerThan(all, r));
      if r !in Top(log, room, n) {
        TopSize(log, room, n);
        forall t | t in Top(log, room, n) ensures t in NewerThan(few, r) {
          TopNewer(log, room, n, t, r);
        }
        Subset(Top(log, room, n), NewerThan(few, r));
      }
    }
  }

  // --------------------------------------------------- inserts and prunes

  // The table, with everything ever inserted and, for each room, how many rows
  // were inserted into it since the last prune of that room that succeeded.
  datatype State = State(rows: set<Row>, log: set<Row>, nextId: nat, since: map<string, nat>)

  const Empty: State := State({}, {}, 1, map[])

  // One statement of some SaveText call. A failed statement is no step.
  datatype Event =
    | Insert(room: string, user: string, username: string, content: string, timestamp: int)
    | Prune(room: string)

  function Since(s: State, room: string): nat {
    if room in s.since then s.since[room] else 0
  }

  function Step(s: State, e: Event, maxPerRoom: nat): State {
    match e
    case Insert(room, user, username, content, timestamp) =>
      var row := Row(s.nextId, room, user, username, content, timestamp);
      State(s.rows + {row}, s.log + {row}, s.nextId + 1, s.since[room := Since(s, room) + 1])
    case Prune(room) =>
      s.(rows := (set r | r in s.rows && (r.room != room || r in Top(s.rows, room, maxPerRoom))),
         since := s.since[room := 0])
  }

  function Exec(events: seq<Event>, maxPerRoom: nat): State {
    if events == [] then Empty
    else Step(Exec(events[..|events| - 1], maxPerRoom), events[|events| - 1], maxPerRoom)
  }

  ghost predicate Inv(s: State, maxPerRoom: nat) {
    && Keyed(s.log) && s.rows <= s.log
    && (forall r :: r in s.log ==> r.id < s.nextId)
    && (forall room :: Top(s.log, room, maxPerRoom) <= s.rows)
    && (forall room :: |InRoom(s.rows, room)| <= maxPerRoom + Since(s, room))
  }

  lemma TopOfMore(log: set<Row>, row: Row, room: string, n: nat)
    ensures Top(log + {row}, room, n) <= Top(log, room, n) + {row}
  {
    forall r | r in Top(log + {row}, room, n) && r != row ensures r in Top(log, room, n) {
      Subset(NewerThan(InRoom(log, room), r), NewerThan(InRoom(log + {row}, room), r));
    }
  }

  lemma InRoomOfMore(rows: set<Row>, row: Row, room: string)
    ensures |InRoom(rows + {row}, room)| <= |InRoom(rows, room)| + if room == row.room then 1 else 0
  {
    assert InRoom(rows + {row}, room) == InRoom(rows, room) + if room == row.room then {row} else {};
  }

  lemma InsertOk(s: State, e: Event, maxPerRoom: nat)
    requires Inv(s, maxPerRoom) && e.Insert?
    ensures Inv(Step(s, e, maxPerRoom), maxPerRoom)
  {
    var t := Step(s, e, maxPerRoom);
    var row := Row(s.nextId, e.room, e.user, e.username, e.content, e.timestamp);
    assert t.rows == s.rows + {row} && t.log == s.log + {row};
    forall room ensures Top(t.log, room, maxPerRoom) <= t.rows {
      TopOfMore(s.log, row, room, maxPerRoom);
      assert Top(s.log, room, maxPerRoom) <= s.rows;
    }
    forall room ensures |InRoom(t.rows, room)| <= maxPerRoom + Since(t, room) {
      InRoomOfMore(s.rows, row, room);
    }
  }

  lemma PruneOk(s: State, room: string, maxPerRoom: nat)
    requires Inv(s, maxPerRoom)
    ensures Inv(Step(s, Prune(room), maxPerRoom), maxPerRoom)
    ensures InRoom(Step(s, Prune(room), maxPerRoom).rows, room) == Top(s.log, room, maxPerRoom)
  {
    var t := Step(s, Prune(room), maxPerRoom);
    TopSandwich(s.rows, s.log, room, maxPerRoom);
    TopSize(s.rows, room, maxPerRoom);
    assert InRoom(t.rows, room) == Top(s.rows, room, maxPerRoom);
    forall q | q != room ensures InRoom(t.rows, q) == InRoom(s.rows, q) {}
    forall q ensures Top(s.log, q, maxPerRoom) <= t.rows {}
  }

  // Whatever calls interleave, prunes fail and clocks do, the table holds the
  // newest maxPerRoom rows of everything ever inserted into a room, and at most
  // one row more for each insert since its last successful prune.
  lemma {:induction false} RetentionHolds(events: seq<Event>, maxPerRoom: nat)
    ensures Inv(Exec(events, maxPerRoom), maxPerRoom)
  {
    if events != [] {
      var n := |events| - 1;
      RetentionHolds(events[..n], maxPerRoom);
      match events[n]
      case Insert(_, _, _, _, _) => InsertOk(Exec(events[..n], maxPerRoom), events[n], maxPerRoom);
      case Prune(room) => PruneOk(Exec(events[..n], maxPerRoom), room, maxPerRoom);
    } else {
      forall room ensures InRoom({}, room) == {} {}
    }
  }

  // A successful prune leaves exactly the newest maxPerRoom rows ever inserted
  // into its room, and the other rooms alone.
  lemma PruneIsExact(events: seq<Event>, room: string, other: string, maxPerRoom: nat)
    ensures var s := Exec(events, maxPerRoom); var t := Exec(events + [Prune(room)], maxPerRoom);
      && InRoom(t.rows, room) == Top(s.log, room, maxPerRoom)
      && t.log == s.log
      && (other != room ==> InRoom(t.rows, other) == InRoom(s.rows, other))
  {
    RetentionHolds(events, maxPerRoom);
    PruneOk(Exec(events, maxPerRoom), room, maxPerRoom);
    assert (events + [Prune(room)])[..|events|] == events;
  }

  // s is where some events lead.
  ghost predicate Reaches(events: seq<Event>, n: nat, s: State) {
    Exec(events, n) == s
  }

  // The order that a prune goes by: of rows with one timestamp, the later insert
  // is kept.
  lemma LostIsOlder(rows: set<Row>, log: set<Row>, room: string, n: nat, kept: Row, lost: Row)
    requires Keyed(log) && InRoom(rows, room) == Top(log, room, n)
    requires kept in rows && kept.room == room && lost in log && lost.room == room && lost !in rows
    ensures kept.timestamp > lost.timestamp || (kept.timestamp == lost.timestamp && kept.id > lost.id)
  {
    assert kept in InRoom(rows, room) && lost !in InRoom(rows, room);
    TopNewer(log, room, n, kept, lost);
  }

  // In any run: the rows that a prune leaves of its room outrank every other row
  // ever inserted there, and number n or are all there are.
  lemma PruneKeepsLatest(events: seq<Event>, n: nat, s: State, room: string, kept: Row, lost: Row)
    requires Reaches(events, n, s)
    ensures var t := Step(s, Prune(room), n);
      && |InRoom(t.rows, room)| == (if |InRoom(s.log, room)| <= n then |InRoom(s.log, room)| else n)
      && (kept in t.rows && lost in s.log && kept.room == room && lost.room == room && lost !in t.rows ==>
            kept.timestamp > lost.timestamp || (kept.timestamp == lost.timestamp && kept.id > lost.id))
  {
    RetentionHolds(events, n);
    PruneOk(s, room, n);
    TopSize(s.log, room, n);
    var t := Step(s, Prune(room), n);
    if kept in t.rows && lost in s.log && kept.room == room && lost.room == room && lost !in t.rows {
      LostIsOlder(t.rows, s.log, room, n, kept, lost);
    }
  }

  // The clock behind the inserts into a room never went back.
  ghost predicate Steady(events: seq<Event>, room: string) {
    forall i, j :: 0 <= i < j < |events| && Into(events[i], room) && Into(events[j], room) ==>
      events[i].timestamp <= events[j].timestamp
  }

  predicate Into(e: Event, room: string) {
    e.Insert? && e.room == room
  }

  // Row r is what the i-th event inserted.
  ghost predicate InsertedBy(events: seq<Event>, n: nat, i: nat, r: Row) {
    && i < |events| && events[i].Insert?
    && r == Row(Exec(events[..i], n).nextId, events[i].room, events[i].user, events[i].username,
                events[i].content, events[i].timestamp)
  }

  // The log is what was inserted, and later rows have higher keys.
  lemma {:induction false} LogIsInserted(events: seq<Event>, n: nat, r: Row) returns (i: nat)
    requires r in Exec(events, n).log
    ensures InsertedBy(events, n, i, r)
  {
    var last := |events| - 1;
    if r in Exec(events[..last], n).log {
      i := LogIsInserted(events[..last], n, r);
      assert events[..last][..i] == events[..i];
    } else {
      i := last;
    }
  }

  lemma {:induction false} IdsRise(events: seq<Event>, n: nat, i: nat, j: nat)
    requires i <= j <= |events|
    ensures Exec(events[..i], n).nextId <= Exec(events[..j], n).nextId
    ensures i < j && events[i].Insert? ==> Exec(events[..i], n).nextId < Exec(events[..j], n).nextId
    decreases j
  {
    if i < j {
      assert events[..j][..j - 1] == events[..j - 1];
      IdsRise(events, n, i, j - 1);
    }
  }

  lemma {:induction false} InsertedIsLogged(events: seq<Event>, n: nat, i: nat, r: Row)
    requires InsertedBy(events, n, i, r)
    ensures r in Exec(events, n).log
    decreases |events|
  {
    var last := |events| - 1;
    if i < last {
      assert events[..last][..i] == events[..i];
      InsertedIsLogged(events[..last], n, i, r);
    }
  }

  // With a clock that never goes back, what a prune leaves of its room is what was
  // inserted last.
  lemma LastInsertsStay(events: seq<Event>, n: nat, s: State, room: string, i: nat, j: nat, earlier: Row, later: Row)
    requires Reaches(events, n, s) && Steady(events, room)
    requires i < j && InsertedBy(events, n, i, earlier) && InsertedBy(events, n, j, later)
    requires earlier.room == room && later.room == room
    ensures earlier in Step(s, Prune(room), n).rows ==> later in Step(s, Prune(room), n).rows
  {
    IdsRise(events, n, i, j);
    InsertedIsLogged(events, n, j, later);
    PruneKeepsLatest(events, n, s, room, earlier, later);
  }

  // ------------------------------------------------------- the merged read

  datatype Item = Text(row: Row) | Upload(file: File)

  function Time(x: Item): int {
    if x.Text? then x.row.timestamp else x.file.timestamp
  }

  function Merged(rows: set<Row>, files: set<File>, room: string): set<Item> {
    (set r | r in InRoom(rows, room) :: Text(r)) + (set f | f in files && f.room == room :: Upload(f))
  }

  // Oldest first.
  ghost predicate Chronological(out: seq<Item>) {
    forall i, j :: 0 <= i < j < |out| ==> Time(out[i]) <= Time(out[j])
  }

  // The newest `limit` items, ties broken in any way.
  ghost predicate NewestOf(chosen: set<Item>, all: set<Item>, limit: nat) {
    && chosen <= all && |chosen| == (if |all| <= limit then |all| else limit)
    && (forall x, y :: x in chosen && y in all && y !in chosen ==> Time(x) >= Time(y))
  }

  // The result sets Load may return: ORDER BY timestamp leaves ties open, in
  // the selection and in the order.
  ghost predicate MayLoad(rows: set<Row>, files: set<File>, room: string, limit: nat, out: seq<Item>) {
    NoDup(out) && Chronological(out) && NewestOf(Elems(out), Merged(rows, files, room), limit)
  }

  lemma MergedTexts(rows: set<Row>, log: set<Row>, files: set<File>, room: string)
    requires rows <= log
    ensures Merged(rows, files, room) <= Merged(log, files, room)
    ensures forall x :: x in Merged(log, files, room) && x !in Merged(rows, files, room) ==>
      x.Text? && x.row in InRoom(log, room) && x.row !in rows
  {
  }

  lemma {:induction false} TextsSize(rows: set<Row>)
    ensures |(set r | r in rows :: Text(r))| == |rows|
  {
    if rows != {} {
      var x :| x in rows;
      TextsSize(rows - {x});
      assert (set r | r in rows :: Text(r)) == (set r | r in rows - {x} :: Text(r)) + {Text(x)};
    }
  }

  // The newest n text rows of a log, as items of a table that still has them.
  lemma TopTexts(rows: set<Row>, log: set<Row>, files: set<File>, room: string, n: nat) returns (texts: set<Item>)
    requires Keyed(log) && Top(log, room, n) <= rows
    ensures texts <= Merged(rows, files, room) && |texts| == |Top(log, room, n)|
    ensures forall t :: t in texts ==> t.Text? && t.row in Top(log, room, n)
  {
    var top := Top(log, room, n);
    texts := set r | r in top :: Text(r);
    TextsSize(top);
  }

  // A pruned row is no newer than anything chosen from the table.
  lemma PrunedIsOld(rows: set<Row>, log: set<Row>, files: set<File>, room: string, n: nat, limit: nat,
                    chosen: set<Item>, x: Item, y: Row)
    requires Keyed(log) && Top(log, room, n) <= rows && limit <= n
    requires NewestOf(chosen, Merged(rows, files, room), limit)
    requires x in chosen && y in InRoom(log, room) && y !in Top(log, room, n)
    ensures Time(x) >= y.timestamp
  {
    if Time(x) < y.timestamp {
      var texts := TopTexts(rows, log, files, room, n);
      TopSize(log, room, n);
      assert |texts| == n;
      forall t | t in texts ensures t in chosen && t != x {
        TopNewer(log, room, n, t.row, y);
      }
      Subset(texts + {x}, chosen);
    }
  }

  lemma SameCap(rows: set<Row>, log: set<Row>, files: set<File>, room: string, n: nat, limit: nat)
    requires Keyed(log) && rows <= log && Top(log, room, n) <= rows && limit <= n
    ensures var few, all := |Merged(rows, files, room)|, |Merged(log, files, room)|;
      (if few <= limit then few else limit) == (if all <= limit then all else limit)
  {
    MergedTexts(rows, log, files, room);
    Subset(Merged(rows, files, room), Merged(log, files, room));
    TopSize(log, room, n);
    if |InRoom(log, room)| <= n {
      assert InRoom(rows, room) == InRoom(log, room);
    } else {
      var texts := TopTexts(rows, log, files, room, n);
      Subset(texts, Merged(rows, files, room));
    }
  }

  // Nothing the read needs was pruned: for a limit within the cap, what may be
  // read from the table may be read from the log that was never pruned.
  lemma PruningInvisible(rows: set<Row>, log: set<Row>, files: set<File>, room: string,
      n: nat, limit: nat, out: seq<Item>)
    requires Keyed(log) && rows <= log && Top(log, room, n) <= rows && limit <= n
    requires MayLoad(rows, files, room, limit, out)
    ensures MayLoad(log, files, room, limit, out)
  {
    MergedTexts(rows, log, files, room);
    SameCap(rows, log, files, room, n, limit);
    forall x, y | x in Elems(out) && y in Merged(log, files, room) && y !in Elems(out) ensures Time(x) >= Time(y) {
      if y !in Merged(rows, files, room) {
        PrunedIsOld(rows, log, files, room, n, limit, Elems(out), x, y.row);
      }
    }
  }

  // The same for every table a run can produce.
  lemma PruningInvisibleInRuns(events: seq<Event>, n: nat, s: State, files: set<File>, room: string,
      limit: nat, out: seq<Item>)
    requires Reaches(events, n, s) && limit <= n && MayLoad(s.rows, files, room, limit, out)
    ensures MayLoad(s.log, files, room, limit, out)
  {
    RetentionHolds(events, n);
    PruningInvisible(s.rows, s.log, files, room, n, limit, out);
  }

  // What the table offers that is no older than t.
  function NoOlder(rows: set<Row>, files: set<File>, room: string, t: int): set<Item> {
    set x | x in Merged(rows, files, room) && Time(x) >= t
  }

  // y is the newest row of the room that the log has and the table lost.
  ghost predicate NewestLost(rows: set<Row>, log: set<Row>, room: string, y: Row) {
    && y in InRoom(log, room) && y !in rows
    && forall z :: z in InRoom(log, room) && z !in rows ==> z.timestamp <= y.timestamp
  }

  lemma LostRowsCount(rows: set<Row>, log: set<Row>, files: set<File>, room: string, y: Row)
    requires rows <= log && NewestLost(rows, log, room, y)
    ensures |Merged(rows, files, room)| < |Merged(log, files, room)|
  {
    MergedTexts(rows, log, files, room);
    assert Text(y) in Merged(log, files, room) && Text(y) !in Merged(rows, files, room);
    Subset(Merged(rows, files, room) + {Text(y)}, Merged(log, files, room));
  }

  // Enough items as new as the newest lost row: then all of the newest are.
  lemma ChosenNoOlder(rows: set<Row>, files: set<File>, room: string, limit: nat, chosen: set<Item>, t: int)
    requires NewestOf(chosen, Merged(rows, files, room), limit) && |NoOlder(rows, files, room, t)| >= limit
    ensures forall x :: x in chosen ==> Time(x) >= t
  {
    var few := NoOlder(rows, files, room, t);
    forall x | x in chosen ensures Time(x) >= t {
      if Time(x) < t {
        Subset(few + {x}, chosen);
      }
    }
  }

  lemma EnoughIsInvisible(rows: set<Row>, log: set<Row>, files: set<File>, room: string,
      limit: nat, out: seq<Item>, y: Row)
    requires rows <= log && NewestLost(rows, log, room, y) && MayLoad(rows, files, room, limit, out)
    requires |NoOlder(rows, files, room, y.timestamp)| >= limit
    ensures MayLoad(log, files, room, limit, out)
  {
    MergedTexts(rows, log, files, room);
    LostRowsCount(rows, log, files, room, y);
    Subset(NoOlder(rows, files, room, y.timestamp), Merged(rows, files, room));
    ChosenNoOlder(rows, files, room, limit, Elems(out), y.timestamp);
  }

  // For any limit: a read of a table that lost rows answers as the log would exactly
  // if the table and the files still hold `limit` items no older than the newest
  // lost row.
  lemma InvisibleExactly(rows: set<Row>, log: set<Row>, files: set<File>, room: string,
      limit: nat, out: seq<Item>, y: Row)
    requires rows <= log && NewestLost(rows, log, room, y) && MayLoad(rows, files, room, limit, out)
    ensures MayLoad(log, files, room, limit, out) <==> |NoOlder(rows, files, room, y.timestamp)| >= limit
  {
    var chosen, few := Elems(out), NoOlder(rows, files, room, y.timestamp);
    MergedTexts(rows, log, files, room);
    LostRowsCount(rows, log, files, room, y);
    assert Text(y) in Merged(log, files, room) && Text(y) !in Merged(rows, files, room);
    if |few| >= limit {
      EnoughIsInvisible(rows, log, files, room, limit, out, y);
    }
    if MayLoad(log, files, room, limit, out) {
      assert chosen <= few;
      Subset(chosen, few);
    }
  }

  // The same for every table a run can produce; one that lost nothing of the room
  // answers as the log in any case.
  lemma InvisibleExactlyInRuns(events: seq<Event>, n: nat, s: State, files: set<File>, room: string,
      limit: nat, out: seq<Item>)
    requires Reaches(events, n, s) && MayLoad(s.rows, files, room, limit, out)
    ensures MayLoad(s.log, files, room, limit, out) <==>
            forall y :: NewestLost(s.rows, s.log, room, y) ==> |NoOlder(s.rows, files, room, y.timestamp)| >= limit
  {
    RetentionHolds(events, n);
    forall y | NewestLost(s.rows, s.log, room, y)
      ensures MayLoad(s.log, files, room, limit, out) <==> |NoOlder(s.rows, files, room, y.timestamp)| >= limit
    {
      InvisibleExactly(s.rows, s.log, files, room, limit, out, y);
    }
    if forall y :: !NewestLost(s.rows, s.log, room, y) {
      NothingLost(s.rows, s.log, room);
      assert InRoom(s.rows, room) == InRoom(s.log, room);
    }
  }

  lemma {:induction false} LastOf(rows: set<Row>) returns (y: Row)
    requires rows != {}
    ensures y in rows && forall z :: z in rows ==> z.timestamp <= y.timestamp
    decreases rows
  {
    y :| y in rows;
    if rows - {y} != {} {
      var z := LastOf(rows - {y});
      if z.timestamp > y.timestamp { y := z; }
    }
  }

  lemma NothingLost(rows: set<Row>, log: set<Row>, room: string)
    requires forall y :: !NewestLost(rows, log, room, y)
    ensures InRoom(log, room) <= rows
  {
    var lost := InRoom(log, room) - rows;
    if lost != {} {
      var y := LastOf(lost);
      assert NewestLost(rows, log, room, y);
    }
    assert forall r :: r in InRoom(log, room) && r !in rows ==> r in lost;
  }

  lemma TextsOnly(rows: set<Row>, room: string)
    ensures |Merged(rows, {}, room)| == |InRoom(rows, room)|
  {
    TextsSize(InRoom(rows, room));
    assert Merged(rows, {}, room) == set r | r in InRoom(rows, room) :: Text(r);
  }

  // The cap on the limit is needed: in a room without files, right after a prune
  // that removed anything, no read with a larger limit answers as the log would.
  lemma LimitBeyondCapShows(events: seq<Event>, n: nat, s: State, room: string, limit: nat, out: seq<Item>)
    requires Reaches(events, n, s) && limit > n && |InRoom(s.log, room)| > n
    requires MayLoad(Step(s, Prune(room), n).rows, {}, room, limit, out)
    ensures !MayLoad(s.log, {}, room, limit, out)
  {
    RetentionHolds(events, n);
    PruneOk(s, room, n);
    TopSize(s.log, room, n);
    TextsOnly(Step(s, Prune(room), n).rows, room);
    TextsOnly(s.log, room);
  }

  // -------------------------------------------------------------- repository

  datatype Kind = TextEntry | FileEntry

  datatype HistoryEntry = HistoryEntry(kind: Kind, fromUser: string, fromUsername: string, timestamp: int,
                                       content: string, fileId: string, filename: string, mimeType: string, size: nat)

  // The columns of the union: the fields of the other kind are blank.
  function ToEntry(x: Item): HistoryEntry {
    match x
    case Text(r) => HistoryEntry(TextEntry, r.user, r.username, r.timestamp, r.content, "", "", "", 0)
    case Upload(f) => HistoryEntry(FileEntry, f.user, f.username, f.timestamp, "", f.id, f.filename, f.mimeType, f.size)
  }

  lemma {:induction false} Latest(left: set<Item>) returns (x: Item)
    requires left != {}
    ensures x in left && forall y :: y in left ==> Time(y) <= Time(x)
    decreases |left|
  {
    x :| x in left;
    var rest := left - {x};
    if rest != {} {
      assert |rest| < |left|;
      var z := Latest(rest);
      assert left == rest + {x};
      x := if Time(z) > Time(x) then z else x;
    }
  }

  class MessageRepo {
    const maxPerRoom: nat
    var messages: set<Row>
    var nextId: nat
    ghost var log: set<Row>
    ghost var since: map<string, nat>

    constructor (maxPerRoom: nat)
      ensures this.maxPerRoom == maxPerRoom && Value() == Empty
    {
      this.maxPerRoom := maxPerRoom;
      messages, nextId, log, since := {}, 1, {}, map[];
    }

    ghost function Value(): State
      reads this
    {
      State(messages, log, nextId, since)
    }

    method InsertRow(room: string, user: string, username: string, content: string, timestamp: int)
      modifies this
      ensures Value() == Step(old(Value()), Insert(room, user, username, content, timestamp), maxPerRoom)
    {
      var row := Row(nextId, room, user, username, content, timestamp);
      since := since[room := Since(Value(), room) + 1];
      messages, log, nextId := messages + {row}, log + {row}, nextId + 1;
    }

    method PruneRoom(room: string)
      modifies this
      ensures Value() == Step(old(Value()), Prune(room), maxPerRoom)
    {
      var keep := Top(messages, room, maxPerRoom);
      messages := set r | r in messages && (r.room != room || r in keep);
      since := since[room := 0];
    }

    // Insert first; a prune that fails does not undo it. `ok` is what the caller
    // sees: whether the message was stored.
    method SaveText(room: string, user: string, username: string, content: string, timestamp: int,
                    insertFails: bool, pruneFails: bool) returns (ok: bool)
      requires Inv(Value(), maxPerRoom)
      modifies this
      ensures ok == !insertFails && Inv(Value(), maxPerRoom)
      ensures !ok ==> Value() == old(Value())
      ensures ok ==> log == old(log) + {Row(old(nextId), room, user, username, content, timestamp)}
      ensures ok ==> nextId == old(nextId) + 1
      ensures forall r: Row :: r.room != room ==> (r in messages <==> r in old(messages))
      ensures ok && !pruneFails ==> InRoom(messages, room) == Top(log, room, maxPerRoom)
      ensures ok && !pruneFails ==> forall k, d :: k in messages && k.room == room && d in log && d.room == room ==>
        d in messages || k.timestamp > d.timestamp || (k.timestamp == d.timestamp && k.id > d.id)
      ensures ok && maxPerRoom > 0 && (forall d :: d in old(log) && d.room == room ==> d.timestamp <= timestamp) ==>
        Row(old(nextId), room, user, username, content, timestamp) in messages
      ensures ok && pruneFails ==> messages == old(messages) + {Row(old(nextId), room, user, username, content, timestamp)}
    {
      if insertFails { return false; }
      ghost var row := Row(nextId, room, user, username, content, timestamp);
      InsertOk(Value(), Insert(room, user, username, content, timestamp), maxPerRoom);
      InsertRow(room, user, username, content, timestamp);
      if !pruneFails {
        PruneOk(Value(), room, maxPerRoom);
        PruneRoom(room);
        forall k, d | k in messages && k.room == room && d in log && d.room == room && d !in messages
          ensures k.timestamp > d.timestamp || (k.timestamp == d.timestamp && k.id > d.id)
        {
          LostIsOlder(messages, log, room, maxPerRoom, k, d);
        }
        if maxPerRoom > 0 && forall d :: d in old(log) && d.room == room ==> d.timestamp <= timestamp {
          NewestIsTop(log, row, maxPerRoom);
        }
      }
      ok := true;
    }

    // The newest `limit` texts and files of a room, oldest first.
    // `out` says which row or file each entry comes from.
    method Load(files: set<File>, room: string, limit: nat)
      returns (entries: seq<HistoryEntry>, ghost out: seq<Item>)
      ensures MayLoad(messages, files, room, limit, out)
      ensures |entries| == |out| <= limit && NoDup(out)
      ensures forall i :: 0 <= i < |out| ==> Stored(messages, files, room, out[i]) && Shows(entries[i], out[i])
      ensures forall i, j :: 0 <= i < j < |entries| ==> entries[i].timestamp <= entries[j].timestamp
      ensures forall x :: Stored(messages, files, room, x) && x !in out ==> |entries| == limit
      ensures forall x, e :: Stored(messages, files, room, x) && x !in out && e in entries ==>
        e.timestamp >= if x.Text? then x.row.timestamp else x.file.timestamp
    {
      var all := Merged(messages, files, room);
      var left := all;
      entries, out := [], [];
      while |entries| < limit && left != {}
        invariant Splits(all, left, out) && Ordered(left, out) && |out| <= limit
        invariant entries == Entries(out)
        decreases |left|
      {
        var x := PickNewest(left);
        SplitNext(all, left, out, x);
        OrderedNext(left, out, x);
        EntriesNext(x, out);
        entries, out, left := [ToEntry(x)] + entries, [x] + out, left - {x};
      }
      LoadedAll(all, left, limit, out);
      EntriesShow(messages, files, room, limit, out);
    }
  }

  // The item is a row of the messages table or of the files table, of that room.
  predicate Stored(rows: set<Row>, files: set<File>, room: string, x: Item) {
    match x
    case Text(r) => r in rows && r.room == room
    case Upload(f) => f in files && f.room == room
  }

  // The entry says what the row or the file says.
  predicate Shows(e: HistoryEntry, x: Item) {
    && (x.Text? ==>
          && e.kind == TextEntry && e.fromUser == x.row.user && e.fromUsername == x.row.username
          && e.timestamp == x.row.timestamp && e.content == x.row.content
          && e.fileId == "" && e.filename == "" && e.mimeType == "" && e.size == 0)
    && (x.Upload? ==>
          && e.kind == FileEntry && e.fromUser == x.file.user && e.fromUsername == x.file.username
          && e.timestamp == x.file.timestamp && e.content == ""
          && e.fileId == x.file.id && e.filename == x.file.filename
          && e.mimeType == x.file.mimeType && e.size == x.file.size)
  }

  lemma EntriesShow(rows: set<Row>, files: set<File>, room: string, limit: nat, out: seq<Item>)
    requires MayLoad(rows, files, room, limit, out)
    ensures |out| <= limit
    ensures forall i :: 0 <= i < |out| ==> Stored(rows, files, room, out[i]) && Shows(Entries(out)[i], out[i])
    ensures forall i, j :: 0 <= i < j < |out| ==> Entries(out)[i].timestamp <= Entries(out)[j].timestamp
    ensures forall x :: Stored(rows, files, room, x) && x !in out ==> |out| == limit
    ensures forall x, e :: Stored(rows, files, room, x) && x !in out && e in Entries(out) ==>
      e.timestamp >= if x.Text? then x.row.timestamp else x.file.timestamp
  {
    DistinctSize(out);
    forall i | 0 <= i < |out| ensures Stored(rows, files, room, out[i]) && Shows(Entries(out)[i], out[i]) {
      assert out[i] in Elems(out);
    }
    var all := Merged(rows, files, room);
    forall x | Stored(rows, files, room, x) && x !in out
      ensures |out| == limit
      ensures forall e :: e in Entries(out) ==> e.timestamp >= if x.Text? then x.row.timestamp else x.file.timestamp
    {
      assert x in all && x !in Elems(out);
      if |all| <= limit {
        SameSize(Elems(out), all);
      }
      forall e | e in Entries(out) ensures e.timestamp >= if x.Text? then x.row.timestamp else x.file.timestamp {
        var i :| 0 <= i < |out| && Entries(out)[i] == e;
        assert out[i] in Elems(out) && Time(out[i]) >= Time(x);
      }
    }
  }

  lemma SameSize<T>(a: set<T>, b: set<T>)
    requires a <= b && |a| == |b|
    ensures a == b
  {
    Subset(b - a, b);
    assert b == a + (b - a);
  }

  function Entries(out: seq<Item>): seq<HistoryEntry> {
    seq(|out|, i requires 0 <= i < |out| => ToEntry(out[i]))
  }

  lemma EntriesNext(x: Item, out: seq<Item>)
    ensures Entries([x] + out) == [ToEntry(x)] + Entries(out)
  {
    var next := [x] + out;
    forall i | 0 <= i < |next| ensures Entries(next)[i] == ([ToEntry(x)] + Entries(out))[i] {
      assert i > 0 ==> next[i] == out[i - 1];
    }
  }

  method PickNewest(left: set<Item>) returns (x: Item)
    requires left != {}
    ensures x in left && forall y :: y in left ==> Time(y) <= Time(x)
  {
    ghost var latest := Latest(left);
    x :| x in left && forall y :: y in left ==> Time(y) <= Time(x);
  }

  // `out` and `left` split `all`, ...
  ghost predicate Splits(all: set<Item>, left: set<Item>, out: seq<Item>) {
    NoDup(out) && left == all - Elems(out) && Elems(out) <= all
  }

  // ... and `out` is oldest first and nowhere older than what is left.
  ghost predicate Ordered(left: set<Item>, out: seq<Item>) {
    Chronological(out) && forall i, y :: 0 <= i < |out| && y in left ==> Time(y) <= Time(out[i])
  }

  lemma SplitNext(all: set<Item>, left: set<Item>, out: seq<Item>, x: Item)
    requires Splits(all, left, out) && x in left
    ensures Splits(all, left - {x}, [x] + out)
  {
    assert Elems([x] + out) == {x} + Elems(out);
    assert x !in Elems(out);
  }

  lemma OrderedNext(left: set<Item>, out: seq<Item>, x: Item)
    requires Ordered(left, out) && x in left && forall y :: y in left ==> Time(y) <= Time(x)
    ensures Ordered(left - {x}, [x] + out)
  {
  }

  lemma {:induction false} DistinctSize<T>(s: seq<T>)
    requires NoDup(s)
    ensures |Elems(s)| == |s|
  {
    if s != [] {
      var n := |s| - 1;
      DistinctSize(s[..n]);
      assert Elems(s) == Elems(s[..n]) + {s[n]};
    }
  }

  lemma LoadedAll(all: set<Item>, left: set<Item>, limit: nat, out: seq<Item>)
    requires Splits(all, left, out) && Ordered(left, out) && |out| <= limit && (|out| == limit || left == {})
    ensures NewestOf(Elems(out), all, limit)
  {
    DistinctSize(out);
    assert all == left + Elems(out);
    assert |all| == |left| + |out|;
    forall x, y | x in Elems(out) && y in all && y !in Elems(out) ensures Time(x) >= Time(y) {
      assert x in out;
    }
  }
}
