/**
 * The log synchroniser: the push state kept beside the log table, and the rounds that pull from and push to the
 * other log. A record's number is its position in the table. A committed round is one step; a failed one is undone.
 */
module PushSync {
  import opened Prelude

  datatype Row = Row(
    dxCall: string, band: string, epoch: real, completed: bool, fromRumlog: bool, uuid: string, pushed: bool)

  /** What happened to a record, with the number of ticks seen so far; bookkeeping the program does not keep. */
  datatype Mark = Pushed(tick: nat) | Requeued(tick: nat) | Confirmed

  datatype Db = Db(rows: seq<Row>, pending: map<nat, int>, cursor: int, ticks: nat, marks: seq<seq<Mark>>)

  /** One row of the other log. */
  datatype Remote = Remote(pk: int, dxCall: string, band: string, epoch: real, uuid: string)

  predicate SameSize(db: Db) { |db.marks| == |db.rows| }

  // ---- the push state machine ------------------------------------------------

  function InsertRecord(db: Db, row: Row): Db {
    db.(rows := db.rows + [row.(pushed := row.fromRumlog)],
        marks := db.marks + [if row.fromRumlog then [Confirmed] else []])
  }

  function MarkPushed(db: Db, id: nat): Db
    requires SameSize(db) && id < |db.rows|
  {
    db.(rows := db.rows[id := db.rows[id].(pushed := true)], pending := db.pending[id := 1],
        marks := db.marks[id := db.marks[id] + [Pushed(db.ticks)]])
  }

  function ConfirmPushed(db: Db, id: nat): Db
    requires SameSize(db) && id < |db.rows|
  {
    db.(rows := db.rows[id := db.rows[id].(pushed := true)], pending := db.pending - {id},
        marks := db.marks[id := db.marks[id] + [Confirmed]])
  }

  predicate Due(pending: map<nat, int>, id: nat, limit: int) { id in pending && pending[id] >= limit }

  function DueIds(pending: map<nat, int>, limit: int): set<nat> { set id | id in pending && pending[id] >= limit }

  function TickedRow(row: Row, due: bool): Row { if due then row.(pushed := false) else row }

  function TickedRows(db: Db, limit: int): seq<Row> {
    seq(|db.rows|, i requires 0 <= i < |db.rows| => TickedRow(db.rows[i], Due(db.pending, i, limit)))
  }

  /** The counters of the records below `n` that are not due, one higher. */
  function Aged(pending: map<nat, int>, limit: int, n: nat): (aged: map<nat, int>)
    ensures forall id :: id in aged <==> id < n && id in pending && pending[id] < limit
    ensures forall id | id in aged :: aged[id] == pending[id] + 1
  {
    if n == 0 then map[]
    else
      var aged := Aged(pending, limit, n - 1);
      if n - 1 in pending && pending[n - 1] < limit then aged[n - 1 := pending[n - 1] + 1] else aged
  }

  function TickedMarks(db: Db, limit: int): seq<seq<Mark>> {
    seq(|db.marks|, i requires 0 <= i < |db.marks| =>
      if Due(db.pending, i, limit) then db.marks[i] + [Requeued(db.ticks + 1)] else db.marks[i])
  }

  /** Every unconfirmed push ages by one; those at the limit go back to the queue. */
  function Tick(db: Db, limit: int): Db {
    db.(rows := TickedRows(db, limit), pending := Aged(db.pending, limit, |db.rows|), ticks := db.ticks + 1,
        marks := TickedMarks(db, limit))
  }

  // ---- pulling ---------------------------------------------------------------

  predicate Matches(row: Row, dxCall: string, band: string, epoch: real) {
    row.dxCall == dxCall && row.band == band && row.completed && -120.0 <= row.epoch - epoch <= 120.0
  }

  /** The numbers below `n` of the completed rows for this call and band within the window, in order. */
  function MatchingIds(rows: seq<Row>, n: nat, r: Remote): (ids: seq<nat>)
    requires n <= |rows|
    ensures forall i | 0 <= i < |ids| :: ids[i] < n && Matches(rows[ids[i]], r.dxCall, r.band, r.epoch)
  {
    if n == 0 then []
    else
      var ids := MatchingIds(rows, n - 1, r);
      if Matches(rows[n - 1], r.dxCall, r.band, r.epoch) then ids + [n - 1] else ids
  }

  function HasUuid(rows: seq<Row>, uuid: string): bool {
    rows != [] && (rows[|rows| - 1].uuid == uuid || HasUuid(rows[..|rows| - 1], uuid))
  }

  predicate Known(db: Db, r: Remote) {
    (r.uuid != "" && HasUuid(db.rows, r.uuid)) || MatchingIds(db.rows, |db.rows|, r) != []
  }

  function RowOf(r: Remote): Row { Row(r.dxCall, r.band, r.epoch, true, true, r.uuid, true) }

  function Adopt(db: Db, id: nat, r: Remote): Db
    requires SameSize(db) && id < |db.rows|
  {
    ConfirmPushed(db.(rows := db.rows[id := db.rows[id].(band := r.band, uuid := r.uuid)]), id)
  }

  function AdoptAll(db: Db, ids: seq<nat>, r: Remote): (v: Db)
    requires SameSize(db) && forall i | 0 <= i < |ids| :: ids[i] < |db.rows|
    ensures SameSize(v) && |v.rows| == |db.rows|
  {
    if ids == [] then db else Adopt(AdoptAll(db, ids[..|ids| - 1], r), ids[|ids| - 1], r)
  }

  function PullOne(db: Db, r: Remote): (v: Db)
    requires SameSize(db)
    ensures SameSize(v)
  {
    if Known(db, r) then AdoptAll(db, MatchingIds(db.rows, |db.rows|, r), r) else InsertRecord(db, RowOf(r))
  }

  function PullAll(db: Db, fetched: seq<Remote>): (v: Db)
    requires SameSize(db)
    ensures SameSize(v)
  {
    if fetched == [] then db
    else
      var v := PullOne(PullAll(db, fetched[..|fetched| - 1]), fetched[|fetched| - 1]);
      v.(cursor := Max(v.cursor, fetched[|fetched| - 1].pk))
  }

  // ---- pushing ---------------------------------------------------------------

  predicate Queued(row: Row) { !row.pushed && row.completed }

  function QueuedIds(rows: seq<Row>, n: nat): (ids: seq<nat>)
    requires n <= |rows|
    ensures forall i | 0 <= i < |ids| :: ids[i] < n && Queued(rows[ids[i]])
    ensures forall i, j | 0 <= i < j < |ids| :: ids[i] < ids[j]
  {
    if n == 0 then []
    else
      var ids := QueuedIds(rows, n - 1);
      if Queued(rows[n - 1]) then ids + [n - 1] else ids
  }

  datatype Key = Key(dxCall: string, band: string, window: int)

  function Window(epoch: real): int { (epoch / 120.0).Floor }

  function KeyOf(row: Row): Key { Key(row.dxCall, row.band, Window(row.epoch)) }

  predicate KeySeen(rows: seq<Row>, ids: seq<nat>, key: Key)
    requires forall i | 0 <= i < |ids| :: ids[i] < |rows|
  {
    ids != [] && (KeyOf(rows[ids[|ids| - 1]]) == key || KeySeen(rows, ids[..|ids| - 1], key))
  }

  /** Keep the first record of every key. */
  function Deduped(rows: seq<Row>, ids: seq<nat>): (kept: seq<nat>)
    requires forall i | 0 <= i < |ids| :: ids[i] < |rows|
    ensures forall i | 0 <= i < |kept| :: kept[i] in ids
  {
    if ids == [] then []
    else
      var last := ids[|ids| - 1];
      var kept := Deduped(rows, ids[..|ids| - 1]);
      if KeySeen(rows, ids[..|ids| - 1], KeyOf(rows[last])) then kept else kept + [last]
  }

  function MarkAll(db: Db, ids: seq<nat>, accepted: set<nat>): (v: Db)
    requires SameSize(db) && forall i | 0 <= i < |ids| :: ids[i] < |db.rows|
    ensures SameSize(v) && |v.rows| == |db.rows|
  {
    if ids == [] then db
    else
      var v := MarkAll(db, ids[..|ids| - 1], accepted);
      if ids[|ids| - 1] in accepted then MarkPushed(v, ids[|ids| - 1]) else v
  }

  function PushIds(db: Db): (ids: seq<nat>)
    ensures forall i | 0 <= i < |ids| :: ids[i] < |db.rows| && Queued(db.rows[ids[i]])
  {
    var queued := QueuedIds(db.rows, |db.rows|);
    var ids := Deduped(db.rows, queued);
    assert forall i | 0 <= i < |ids| :: ids[i] in queued;
    ids
  }

  function PushRound(db: Db, accepted: set<nat>): (v: Db)
    requires SameSize(db)
    ensures SameSize(v)
  {
    MarkAll(db, PushIds(db), accepted)
  }

  // ---- rounds ------------------------------------------------------------------

  /** A sync round, or what other programs do to the table in between: log a record, void one. */
  datatype Action =
    | Sync(fetched: seq<Remote>, accepted: set<nat>, commits: bool)
    | Log(row: Row)
    | Void(id: nat)

  function Synced(db: Db, fetched: seq<Remote>, accepted: set<nat>, limit: int): (v: Db)
    requires SameSize(db)
    ensures SameSize(v)
  {
    PushRound(Tick(PullAll(db, fetched), limit), accepted)
  }

  function Step(db: Db, x: Action, limit: int): (v: Db)
    requires SameSize(db)
    ensures SameSize(v)
  {
    match x
    case Sync(fetched, accepted, commits) => if commits then Synced(db, fetched, accepted, limit) else db
    case Log(row) => InsertRecord(db, row.(fromRumlog := false))
    case Void(id) => if id < |db.rows| then db.(rows := db.rows[id := db.rows[id].(completed := false)]) else db
  }

  function Run(db: Db, xs: seq<Action>, limit: int): (v: Db)
    requires SameSize(db)
    ensures SameSize(v)
  {
    if xs == [] then db else Step(Run(db, xs[..|xs| - 1], limit), xs[|xs| - 1], limit)
  }

  const EMPTY := Db([], map[], 0, 0, [])

  // ---- what holds between rounds --------------------------------------------------

  /** Pushed only fresh or requeued; requeued exactly `limit` ticks after its push; once confirmed, only confirmed. */
  predicate LegalNext(before: seq<Mark>, m: Mark, limit: int) {
    match m
    case Pushed(_) => before == [] || before[|before| - 1].Requeued?
    case Requeued(t) => before != [] && before[|before| - 1].Pushed? && t == before[|before| - 1].tick + limit
    case Confirmed => true
  }

  predicate LegalMarks(marks: seq<Mark>, limit: int) {
    forall i | 0 <= i < |marks| :: LegalNext(marks[..i], marks[i], limit)
  }

  /** The flag and the attempt counter say what the record's last mark says. */
  predicate Agrees(row: Row, pending: map<nat, int>, id: nat, ticks: nat, marks: seq<Mark>, limit: int) {
    if marks == [] || marks[|marks| - 1].Requeued? then !row.pushed && id !in pending
    else if marks[|marks| - 1].Confirmed? then row.pushed && id !in pending
    else row.pushed && id in pending && pending[id] == 1 + ticks - marks[|marks| - 1].tick && 1 <= pending[id] <= limit
  }

  predicate Filed(db: Db, id: nat, limit: int)
    requires SameSize(db) && id < |db.rows|
  {
    && Agrees(db.rows[id], db.pending, id, db.ticks, db.marks[id], limit)
    && LegalMarks(db.marks[id], limit)
  }

  ghost predicate Sound(db: Db, limit: int) {
    && SameSize(db)
    && (forall id | id in db.pending :: id < |db.rows|)
    && (forall id | 0 <= id < |db.rows| :: Filed(db, id, limit))
  }

  lemma OneMoreMark(marks: seq<Mark>, m: Mark, limit: int)
    requires LegalMarks(marks, limit) && LegalNext(marks, m, limit)
    ensures LegalMarks(marks + [m], limit)
  {
    forall i | 0 <= i < |marks + [m]| ensures LegalNext((marks + [m])[..i], (marks + [m])[i], limit) {
      assert (marks + [m])[..i] == marks[..i];
    }
    assert marks[..|marks|] == marks;
  }

  lemma InsertKeepsSound(db: Db, row: Row, limit: int)
    requires Sound(db, limit)
    ensures Sound(InsertRecord(db, row), limit)
  {
    var v := InsertRecord(db, row);
    forall id | 0 <= id < |v.rows| ensures Filed(v, id, limit) {
      if id < |db.rows| {
        assert Filed(db, id, limit);
      }
    }
  }

  lemma MarkKeepsSound(db: Db, id: nat, limit: int)
    requires 1 <= limit && Sound(db, limit) && id < |db.rows| && !db.rows[id].pushed
    ensures Sound(MarkPushed(db, id), limit)
  {
    var v := MarkPushed(db, id);
    forall k | 0 <= k < |v.rows| ensures Filed(v, k, limit) {
      assert Filed(db, k, limit);
      if k == id {
        OneMoreMark(db.marks[id], Pushed(db.ticks), limit);
      }
    }
  }

  lemma ConfirmKeepsSound(db: Db, id: nat, limit: int)
    requires Sound(db, limit) && id < |db.rows|
    ensures Sound(ConfirmPushed(db, id), limit)
  {
    var v := ConfirmPushed(db, id);
    forall k | 0 <= k < |v.rows| ensures Filed(v, k, limit) {
      assert Filed(db, k, limit);
      if k == id {
        OneMoreMark(db.marks[id], Confirmed, limit);
      }
    }
  }

  lemma TickKeepsSound(db: Db, limit: int)
    requires 1 <= limit && Sound(db, limit)
    ensures Sound(Tick(db, limit), limit)
  {
    var v := Tick(db, limit);
    forall k | 0 <= k < |v.rows| ensures Filed(v, k, limit) {
      assert Filed(db, k, limit);
      if Due(db.pending, k, limit) {
        OneMoreMark(db.marks[k], Requeued(db.ticks + 1), limit);
      }
    }
  }

  lemma RelabelKeepsSound(db: Db, id: nat, row: Row, limit: int)
    requires Sound(db, limit) && id < |db.rows| && row.pushed == db.rows[id].pushed
    ensures Sound(db.(rows := db.rows[id := row]), limit)
  {
    var v := db.(rows := db.rows[id := row]);
    forall k | 0 <= k < |v.rows| ensures Filed(v, k, limit) {
      assert Filed(db, k, limit);
    }
  }

  lemma {:induction false} AdoptAllKeepsSound(db: Db, ids: seq<nat>, r: Remote, limit: int)
    requires Sound(db, limit) && forall i | 0 <= i < |ids| :: ids[i] < |db.rows|
    ensures Sound(AdoptAll(db, ids, r), limit)
  {
    if ids != [] {
      AdoptAllKeepsSound(db, ids[..|ids| - 1], r, limit);
      var v, id := AdoptAll(db, ids[..|ids| - 1], r), ids[|ids| - 1];
      RelabelKeepsSound(v, id, v.rows[id].(band := r.band, uuid := r.uuid), limit);
      ConfirmKeepsSound(v.(rows := v.rows[id := v.rows[id].(band := r.band, uuid := r.uuid)]), id, limit);
    }
  }

  lemma {:induction false} PullKeepsSound(db: Db, fetched: seq<Remote>, limit: int)
    requires Sound(db, limit)
    ensures Sound(PullAll(db, fetched), limit)
  {
    if fetched != [] {
      PullKeepsSound(db, fetched[..|fetched| - 1], limit);
      var v, r := PullAll(db, fetched[..|fetched| - 1]), fetched[|fetched| - 1];
      if Known(v, r) {
        AdoptAllKeepsSound(v, MatchingIds(v.rows, |v.rows|, r), r, limit);
      } else {
        InsertKeepsSound(v, RowOf(r), limit);
      }
      var u := PullOne(v, r);
      forall k | 0 <= k < |u.rows| ensures Filed(u.(cursor := Max(u.cursor, r.pk)), k, limit) {
        assert Filed(u, k, limit);
      }
    }
  }

  /** Distinct records, so marking the earlier ones leaves the later ones unpushed. */
  lemma {:induction false} MarkAllKeepsSound(db: Db, ids: seq<nat>, accepted: set<nat>, limit: int)
    requires 1 <= limit && Sound(db, limit)
    requires forall i | 0 <= i < |ids| :: ids[i] < |db.rows| && !db.rows[ids[i]].pushed
    requires forall i, j | 0 <= i < j < |ids| :: ids[i] != ids[j]
    ensures Sound(MarkAll(db, ids, accepted), limit)
    ensures forall k | 0 <= k < |db.rows| && k !in ids :: MarkAll(db, ids, accepted).rows[k] == db.rows[k]
  {
    if ids != [] {
      var init, last := ids[..|ids| - 1], ids[|ids| - 1];
      MarkAllKeepsSound(db, init, accepted, limit);
      assert last !in init;
      if last in accepted {
        MarkKeepsSound(MarkAll(db, init, accepted), last, limit);
      }
      forall k | 0 <= k < |db.rows| && k !in ids ensures MarkAll(db, ids, accepted).rows[k] == db.rows[k] {
        assert k !in init;
      }
    }
  }

  lemma {:induction false} DedupedDistinct(rows: seq<Row>, ids: seq<nat>)
    requires forall i | 0 <= i < |ids| :: ids[i] < |rows|
    requires forall i, j | 0 <= i < j < |ids| :: ids[i] < ids[j]
    ensures forall i, j | 0 <= i < j < |Deduped(rows, ids)| :: Deduped(rows, ids)[i] < Deduped(rows, ids)[j]
  {
    if ids != [] {
      DedupedDistinct(rows, ids[..|ids| - 1]);
    }
  }

  lemma PushKeepsSound(db: Db, accepted: set<nat>, limit: int)
    requires 1 <= limit && Sound(db, limit)
    ensures Sound(PushRound(db, accepted), limit)
  {
    DedupedDistinct(db.rows, QueuedIds(db.rows, |db.rows|));
    MarkAllKeepsSound(db, PushIds(db), accepted, limit);
  }

  lemma StepKeepsSound(db: Db, x: Action, limit: int)
    requires 1 <= limit && Sound(db, limit)
    ensures Sound(Step(db, x, limit), limit)
  {
    match x
    case Sync(fetched, accepted, commits) =>
      PullKeepsSound(db, fetched, limit);
      TickKeepsSound(PullAll(db, fetched), limit);
      PushKeepsSound(Tick(PullAll(db, fetched), limit), accepted, limit);
    case Log(row) => InsertKeepsSound(db, row.(fromRumlog := false), limit);
    case Void(id) =>
      if id < |db.rows| { RelabelKeepsSound(db, id, db.rows[id].(completed := false), limit); }
  }

  /**
   * Over any rounds, records logged and voided in between: the counters are exactly the pushed, unconfirmed records
   * with one to `limit` attempts, and every record's history is legal.
   */
  lemma {:induction false} RunIsSound(xs: seq<Action>, limit: int)
    requires 1 <= limit
    ensures Sound(Run(EMPTY, xs, limit), limit)
  {
    if xs != [] {
      RunIsSound(xs[..|xs| - 1], limit);
      StepKeepsSound(Run(EMPTY, xs[..|xs| - 1], limit), xs[|xs| - 1], limit);
    }
  }

  // ---- what that means for a record ------------------------------------------------

  predicate Held(db: Db, id: nat)
    requires SameSize(db)
  {
    id < |db.rows| && db.marks[id] != [] && db.marks[id][|db.marks[id]| - 1].Confirmed?
  }

  /** The counters are exactly the records pushed and not known to have arrived, and fewer than `limit` ticks old. */
  lemma PendingIsUnconfirmed(xs: seq<Action>, limit: int, id: nat)
    requires 1 <= limit && id < |Run(EMPTY, xs, limit).rows|
    ensures var db := Run(EMPTY, xs, limit);
            && (id in db.pending <==> db.rows[id].pushed && !Held(db, id))
            && (id in db.pending ==> 1 <= db.pending[id] <= limit)
  {
    RunIsSound(xs, limit);
    assert Filed(Run(EMPTY, xs, limit), id, limit);
  }

  lemma {:induction false} ConfirmedIsFinal(marks: seq<Mark>, limit: int, i: nat, j: nat)
    requires LegalMarks(marks, limit) && i <= j < |marks| && marks[i].Confirmed?
    ensures marks[j].Confirmed?
  {
    if i < j {
      ConfirmedIsFinal(marks, limit, i, j - 1);
      assert LegalNext(marks[..j], marks[j], limit);
    }
  }

  /** Histories only grow. */
  ghost predicate Extends(a: Db, b: Db)
    requires SameSize(a) && SameSize(b)
  {
    |a.rows| <= |b.rows| && forall id | 0 <= id < |a.rows| :: a.marks[id] <= b.marks[id]
  }

  lemma {:induction false} AdoptAllExtends(db: Db, ids: seq<nat>, r: Remote)
    requires SameSize(db) && forall i | 0 <= i < |ids| :: ids[i] < |db.rows|
    ensures Extends(db, AdoptAll(db, ids, r))
  {
    if ids != [] {
      AdoptAllExtends(db, ids[..|ids| - 1], r);
    }
  }

  lemma {:induction false} PullAllExtends(db: Db, fetched: seq<Remote>)
    requires SameSize(db)
    ensures Extends(db, PullAll(db, fetched))
  {
    if fetched != [] {
      PullAllExtends(db, fetched[..|fetched| - 1]);
      var v, r := PullAll(db, fetched[..|fetched| - 1]), fetched[|fetched| - 1];
      if Known(v, r) {
        AdoptAllExtends(v, MatchingIds(v.rows, |v.rows|, r), r);
      }
    }
  }

  lemma {:induction false} MarkAllExtends(db: Db, ids: seq<nat>, accepted: set<nat>)
    requires SameSize(db) && forall i | 0 <= i < |ids| :: ids[i] < |db.rows|
    ensures Extends(db, MarkAll(db, ids, accepted))
  {
    if ids != [] {
      MarkAllExtends(db, ids[..|ids| - 1], accepted);
    }
  }

  lemma StepExtends(db: Db, x: Action, limit: int)
    requires SameSize(db)
    ensures Extends(db, Step(db, x, limit))
  {
    match x
    case Sync(fetched, accepted, commits) =>
      PullAllExtends(db, fetched);
      var v := Tick(PullAll(db, fetched), limit);
      MarkAllExtends(v, PushIds(v), accepted);
    case _ =>
  }

  lemma StepKeepsHeld(db: Db, x: Action, limit: int, id: nat)
    requires 1 <= limit && Sound(db, limit) && Held(db, id)
    ensures Sound(Step(db, x, limit), limit) && Held(Step(db, x, limit), id)
  {
    StepKeepsSound(db, x, limit);
    StepExtends(db, x, limit);
    var v := Step(db, x, limit);
    assert Filed(v, id, limit);
    ConfirmedIsFinal(v.marks[id], limit, |db.marks[id]| - 1, |v.marks[id]| - 1);
  }

  lemma HeldIsNotQueued(db: Db, limit: int, id: nat)
    requires Sound(db, limit) && Held(db, id)
    ensures db.rows[id].pushed && id !in db.pending && id !in PushIds(db)
  {
    assert Filed(db, id, limit);
  }

  /** A record known to have arrived is never requeued or pushed again: it stays flagged and out of every queue. */
  lemma {:induction false} ConfirmedStays(db: Db, xs: seq<Action>, limit: int, id: nat)
    requires 1 <= limit && Sound(db, limit) && Held(db, id)
    ensures var v := Run(db, xs, limit);
            Sound(v, limit) && Held(v, id) && v.rows[id].pushed && id !in v.pending && id !in PushIds(v)
  {
    if xs != [] {
      ConfirmedStays(db, xs[..|xs| - 1], limit, id);
      StepKeepsHeld(Run(db, xs[..|xs| - 1], limit), xs[|xs| - 1], limit, id);
    }
    HeldIsNotQueued(Run(db, xs, limit), limit, id);
  }

  // ---- what one pulled row confirms --------------------------------------------------

  lemma {:induction false} MatchingIdsComplete(rows: seq<Row>, n: nat, r: Remote, id: nat)
    requires n <= |rows|
    ensures id in MatchingIds(rows, n, r) <==> id < n && Matches(rows[id], r.dxCall, r.band, r.epoch)
    ensures var ids := MatchingIds(rows, n, r); forall i, j | 0 <= i < j < |ids| :: ids[i] != ids[j]
  {
    if n > 0 {
      MatchingIdsComplete(rows, n - 1, r, id);
    }
  }

  lemma {:induction false} AdoptAllConfirms(db: Db, ids: seq<nat>, r: Remote, id: nat)
    requires SameSize(db) && id < |db.rows| && forall i | 0 <= i < |ids| :: ids[i] < |db.rows|
    requires forall i, j | 0 <= i < j < |ids| :: ids[i] != ids[j]
    ensures AdoptAll(db, ids, r).marks[id] == db.marks[id] + (if id in ids then [Confirmed] else [])
  {
    if ids == [] {
      assert db.marks[id] + [] == db.marks[id];
    } else {
      var init, last := ids[..|ids| - 1], ids[|ids| - 1];
      AdoptAllConfirms(db, init, r, id);
      assert last !in init;
      assert id in ids <==> id == last || id in init;
    }
  }

  /** A pulled row confirms exactly the completed records for its call and band within the window, every one of them. */
  lemma PullConfirmsExactly(db: Db, r: Remote, id: nat)
    requires SameSize(db) && id < |db.rows|
    ensures PullOne(db, r).marks[id]
         == db.marks[id] + (if Matches(db.rows[id], r.dxCall, r.band, r.epoch) then [Confirmed] else [])
  {
    var ids := MatchingIds(db.rows, |db.rows|, r);
    MatchingIdsComplete(db.rows, |db.rows|, r, id);
    if Known(db, r) {
      AdoptAllConfirms(db, ids, r, id);
    } else {
      assert db.marks[id] + [] == db.marks[id];
    }
  }

  /** A row recognised by its identifier alone confirms nothing: outside the window its record will be requeued. */
  lemma IdentifierAloneConfirmsNothing(db: Db, r: Remote)
    requires SameSize(db) && r.uuid != "" && HasUuid(db.rows, r.uuid)
    requires forall id | 0 <= id < |db.rows| :: !Matches(db.rows[id], r.dxCall, r.band, r.epoch)
    ensures PullOne(db, r) == db
  {
    NoMatchNoIds(db.rows, |db.rows|, r);
  }

  lemma {:induction false} NoMatchNoIds(rows: seq<Row>, n: nat, r: Remote)
    requires n <= |rows| && forall id | 0 <= id < n :: !Matches(rows[id], r.dxCall, r.band, r.epoch)
    ensures MatchingIds(rows, n, r) == []
  {
    if n > 0 {
      NoMatchNoIds(rows, n - 1, r);
    }
  }

  // ---- what deduplication keeps ----------------------------------------------------------

  /** A record is kept exactly when no earlier record of the list has its call, band and 120 s bucket. */
  lemma {:induction false} KeptExactlyWhenFirst(rows: seq<Row>, ids: seq<nat>, k: nat)
    requires forall i | 0 <= i < |ids| :: ids[i] < |rows|
    requires forall i, j | 0 <= i < j < |ids| :: ids[i] != ids[j]
    requires k < |ids|
    ensures ids[k] in Deduped(rows, ids) <==> !KeySeen(rows, ids[..k], KeyOf(rows[ids[k]]))
  {
    var init, last := ids[..|ids| - 1], ids[|ids| - 1];
    if k < |init| {
      KeptExactlyWhenFirst(rows, init, k);
      assert init[..k] == ids[..k];
    } else {
      assert last !in init && forall id | id in Deduped(rows, init) :: id in init;
    }
  }

  /** Every record of the list has a kept one with its key. */
  lemma {:induction false} EveryKeyIsKept(rows: seq<Row>, ids: seq<nat>, key: Key)
    requires forall i | 0 <= i < |ids| :: ids[i] < |rows|
    ensures forall i | 0 <= i < |Deduped(rows, ids)| :: Deduped(rows, ids)[i] < |rows|
    ensures KeySeen(rows, ids, key) <==> KeySeen(rows, Deduped(rows, ids), key)
  {
    if ids != [] {
      var init, last := ids[..|ids| - 1], ids[|ids| - 1];
      EveryKeyIsKept(rows, init, key);
      var before, kept := Deduped(rows, init), Deduped(rows, ids);
      if kept == before + [last] {
        assert (before + [last])[..|before|] == before;
      }
    }
  }

  lemma SameCellIsClose(x: real, y: real)
    requires Window(x) == Window(y)
    ensures -120.0 < x - y < 120.0
  {
    var cell := Window(x) as real;
    assert cell <= x / 120.0 < cell + 1.0 && cell <= y / 120.0 < cell + 1.0;
  }

  lemma {:induction false} SeenAt(rows: seq<Row>, ids: seq<nat>, key: Key) returns (at: nat)
    requires forall i | 0 <= i < |ids| :: ids[i] < |rows|
    requires KeySeen(rows, ids, key)
    ensures at < |ids| && KeyOf(rows[ids[at]]) == key
  {
    if KeyOf(rows[ids[|ids| - 1]]) == key {
      at := |ids| - 1;
    } else {
      at := SeenAt(rows, ids[..|ids| - 1], key);
    }
  }

  lemma {:induction false} IsSeen(rows: seq<Row>, ids: seq<nat>, key: Key, at: nat)
    requires forall i | 0 <= i < |ids| :: ids[i] < |rows|
    requires at < |ids| && KeyOf(rows[ids[at]]) == key
    ensures KeySeen(rows, ids, key)
  {
    if at < |ids| - 1 {
      IsSeen(rows, ids[..|ids| - 1], key, at);
    }
  }

  /**
   * The window is a fixed grid: of two queued records of one call and band both survive exactly when they fall in two
   * cells and each is the first of its own.
   */
  lemma BothKeptExactlyWhen(rows: seq<Row>, ids: seq<nat>, i: nat, j: nat)
    requires forall k | 0 <= k < |ids| :: ids[k] < |rows|
    requires forall k, m | 0 <= k < m < |ids| :: ids[k] != ids[m]
    requires i < j < |ids| && rows[ids[i]].dxCall == rows[ids[j]].dxCall && rows[ids[i]].band == rows[ids[j]].band
    ensures ids[i] in Deduped(rows, ids) && ids[j] in Deduped(rows, ids)
            <==> && Window(rows[ids[i]].epoch) != Window(rows[ids[j]].epoch)
                 && !KeySeen(rows, ids[..i], KeyOf(rows[ids[i]])) && !KeySeen(rows, ids[..j], KeyOf(rows[ids[j]]))
  {
    KeptExactlyWhenFirst(rows, ids, i);
    KeptExactlyWhenFirst(rows, ids, j);
    if KeyOf(rows[ids[i]]) == KeyOf(rows[ids[j]]) {
      IsSeen(rows, ids[..j], KeyOf(rows[ids[j]]), i);
    }
  }

  /** A record is dropped only for an earlier one of its call and band less than 120 s away. */
  lemma DroppedForNeighbour(rows: seq<Row>, ids: seq<nat>, j: nat) returns (i: nat)
    requires forall k | 0 <= k < |ids| :: ids[k] < |rows|
    requires forall k, m | 0 <= k < m < |ids| :: ids[k] != ids[m]
    requires j < |ids| && ids[j] !in Deduped(rows, ids)
    ensures i < j && rows[ids[i]].dxCall == rows[ids[j]].dxCall && rows[ids[i]].band == rows[ids[j]].band
    ensures -120.0 < rows[ids[i]].epoch - rows[ids[j]].epoch < 120.0
  {
    KeptExactlyWhenFirst(rows, ids, j);
    i := SeenAt(rows, ids[..j], KeyOf(rows[ids[j]]));
    SameCellIsClose(rows[ids[i]].epoch, rows[ids[j]].epoch);
  }

  // ---- in which round a duplicate is pushed -------------------------------------------

  predicate Waits(row: Row, key: Key) { Queued(row) && KeyOf(row) == key }

  /** How many of the records below `n` are queued under `key`. */
  function Ahead(rows: seq<Row>, key: Key, n: nat): nat
    requires n <= |rows|
  {
    if n == 0 then 0 else Ahead(rows, key, n - 1) + (if Waits(rows[n - 1], key) then 1 else 0)
  }

  /** How many earlier records are queued under the key of this one. */
  function Turn(rows: seq<Row>, id: nat): nat
    requires id < |rows|
  {
    Ahead(rows, KeyOf(rows[id]), id)
  }

  predicate FirstOfKey(rows: seq<Row>, id: nat)
    requires id < |rows|
  {
    Queued(rows[id]) && Turn(rows, id) == 0
  }

  lemma {:induction false} AheadGrows(rows: seq<Row>, key: Key, i: nat, n: nat)
    requires i < n <= |rows|
    ensures Ahead(rows, key, i) + (if Waits(rows[i], key) then 1 else 0) <= Ahead(rows, key, n)
  {
    if i < n - 1 {
      AheadGrows(rows, key, i, n - 1);
    }
  }

  /** Every lower turn is some earlier record's. */
  lemma {:induction false} AtTurn(rows: seq<Row>, key: Key, n: nat, turn: nat) returns (j: nat)
    requires n <= |rows| && turn < Ahead(rows, key, n)
    ensures j < n && Waits(rows[j], key) && Ahead(rows, key, j) == turn
  {
    if turn < Ahead(rows, key, n - 1) {
      j := AtTurn(rows, key, n - 1, turn);
    } else {
      j := n - 1;
    }
  }

  lemma {:induction false} SeenExactlyWhenAhead(rows: seq<Row>, key: Key, n: nat)
    requires n <= |rows|
    ensures KeySeen(rows, QueuedIds(rows, n), key) <==> Ahead(rows, key, n) > 0
  {
    if n > 0 {
      SeenExactlyWhenAhead(rows, key, n - 1);
      var ids := QueuedIds(rows, n - 1);
      assert (ids + [n - 1])[..|ids|] == ids;
    }
  }

  lemma DedupedStep(rows: seq<Row>, ids: seq<nat>, last: nat)
    requires last < |rows| && forall i | 0 <= i < |ids| :: ids[i] < |rows|
    ensures Deduped(rows, ids + [last])
         == Deduped(rows, ids) + (if KeySeen(rows, ids, KeyOf(rows[last])) then [] else [last])
  {
    assert (ids + [last])[..|ids|] == ids;
  }

  /** The records below `n` that are the first of their key, in order. */
  function Firsts(rows: seq<Row>, n: nat): seq<nat>
    requires n <= |rows|
  {
    if n == 0 then [] else Firsts(rows, n - 1) + (if FirstOfKey(rows, n - 1) then [n - 1] else [])
  }

  lemma {:induction false} InFirsts(rows: seq<Row>, n: nat, id: nat)
    requires n <= |rows| && id < |rows|
    ensures id in Firsts(rows, n) <==> id < n && FirstOfKey(rows, id)
  {
    if n > 0 {
      InFirsts(rows, n - 1, id);
    }
  }

  lemma {:induction false} DedupedAreFirsts(rows: seq<Row>, n: nat)
    requires n <= |rows|
    ensures Deduped(rows, QueuedIds(rows, n)) == Firsts(rows, n)
  {
    if n > 0 {
      DedupedAreFirsts(rows, n - 1);
      var ids := QueuedIds(rows, n - 1);
      if Queued(rows[n - 1]) {
        assert QueuedIds(rows, n) == ids + [n - 1];
        DedupedStep(rows, ids, n - 1);
        SeenExactlyWhenAhead(rows, KeyOf(rows[n - 1]), n - 1);
      } else {
        assert QueuedIds(rows, n) == ids;
      }
    }
  }

  /** Record `id` with a push of this tick added, if it was sent. */
  predicate Sent(db: Db, v: Db, id: nat, sent: bool)
    requires SameSize(db) && SameSize(v) && id < |db.rows| == |v.rows|
  {
    && v.rows[id] == (if sent then db.rows[id].(pushed := true) else db.rows[id])
    && v.marks[id] == db.marks[id] + (if sent then [Pushed(db.ticks)] else [])
    && (id in v.pending <==> sent || id in db.pending)
    && (id in v.pending ==> v.pending[id] == if sent then 1 else db.pending[id])
  }

  lemma {:induction false} MarkAllSends(db: Db, ids: seq<nat>, accepted: set<nat>, id: nat)
    requires SameSize(db) && id < |db.rows| && forall i | 0 <= i < |ids| :: ids[i] < |db.rows|
    requires forall i, j | 0 <= i < j < |ids| :: ids[i] != ids[j]
    ensures var v := MarkAll(db, ids, accepted);
            v.ticks == db.ticks && v.cursor == db.cursor && Sent(db, v, id, id in ids && id in accepted)
  {
    if ids == [] {
      assert db.marks[id] + [] == db.marks[id];
    } else {
      var init, last := ids[..|ids| - 1], ids[|ids| - 1];
      MarkAllSends(db, init, accepted, id);
      assert last !in init;
      assert id in ids <==> id == last || id in init;
    }
  }

  /** The other log accepts every record that a round with nothing pulled sends to it. */
  predicate AllAccepted(db: Db, accepted: set<nat>, limit: int) {
    forall i | 0 <= i < |PushIds(Tick(db, limit))| :: PushIds(Tick(db, limit))[i] in accepted
  }

  /** Such a round pushes exactly the first record of every key, those requeued by its own tick included. */
  lemma RoundPushesFirsts(db: Db, accepted: set<nat>, limit: int, id: nat)
    requires SameSize(db) && AllAccepted(db, accepted, limit) && id < |db.rows|
    ensures var u, v := Tick(db, limit), Synced(db, [], accepted, limit);
            && |v.rows| == |u.rows| == |db.rows| && SameSize(u) && u.ticks == v.ticks == db.ticks + 1
            && Sent(u, v, id, FirstOfKey(u.rows, id))
  {
    var u := Tick(db, limit);
    DedupedAreFirsts(u.rows, |u.rows|);
    InFirsts(u.rows, |u.rows|, id);
    DedupedDistinct(u.rows, QueuedIds(u.rows, |u.rows|));
    MarkAllSends(u, PushIds(u), accepted, id);
    assert id in PushIds(u) ==> id in accepted;
  }

  // ---- the rotation of one key's records ------------------------------------------------

  function Rounds(db: Db, rounds: seq<set<nat>>, limit: int): (v: Db)
    requires SameSize(db)
    ensures SameSize(v) && |v.rows| == |db.rows|
  {
    if rounds == [] then db else Synced(Rounds(db, rounds[..|rounds| - 1], limit), [], rounds[|rounds| - 1], limit)
  }

  predicate AcceptedRounds(db: Db, rounds: seq<set<nat>>, limit: int)
    requires SameSize(db)
  {
    rounds == [] || (&& AcceptedRounds(db, rounds[..|rounds| - 1], limit)
                     && AllAccepted(Rounds(db, rounds[..|rounds| - 1], limit), rounds[|rounds| - 1], limit))
  }

  /** The turn served in round `n + 1`: the first `limit` turns, over and over. */
  function Served(n: nat, limit: int): (turn: nat)
    requires 1 <= limit
    ensures turn < limit && (n < limit ==> turn == n)
  {
    if n == 0 || Served(n - 1, limit) + 1 == limit then 0 else Served(n - 1, limit) + 1
  }

  lemma {:induction false} ServedIsRemainder(n: nat, limit: int)
    requires 1 <= limit
    ensures Served(n, limit) == n % limit
  {
    if n > 0 {
      ServedIsRemainder(n - 1, limit);
      NextRemainder(n - 1, limit);
    } else {
      assert 0 % limit == 0;
    }
  }

  lemma NextRemainder(n: nat, limit: int)
    requires 1 <= limit
    ensures (n + 1) % limit == if n % limit + 1 == limit then 0 else n % limit + 1
  {
    var q, r := n / limit, n % limit;
    assert n + 1 == q * limit + (r + 1);
    if r + 1 == limit {
      assert n + 1 == (q + 1) * limit;
      RemainderOf(n + 1, q + 1, 0, limit);
    } else {
      RemainderOf(n + 1, q, r + 1, limit);
    }
  }

  lemma RemainderOf(x: int, q: int, r: int, limit: int)
    requires 0 <= r < limit && x == q * limit + r
    ensures x % limit == r
  {
    var d := x / limit - q;
    assert x % limit == r - d * limit;
    assert (d >= 1 ==> d * limit >= limit) && (d <= -1 ==> d * limit <= -limit);
  }

  /** What happens to a record of turn `turn` in the first `n` rounds. */
  function Pushes(ticks: nat, limit: int, turn: nat, n: nat): seq<Mark>
    requires 1 <= limit
  {
    if n == 0 then []
    else
      Pushes(ticks, limit, turn, n - 1)
      + (if Served(n - 1, limit) != turn then []
         else (if n > limit then [Requeued(ticks + n)] else []) + [Pushed(ticks + n)])
  }

  /** The attempts counted by the end of round `n` for a turn that has been served. */
  function Attempts(n: nat, limit: int, turn: nat): int
    requires 1 <= limit
  {
    var next := Served(n, limit);
    if turn < next then next - turn else next - turn + limit
  }

  /** Where record `id` of the key stands after `n` rounds from `db`. */
  predicate Placed(db: Db, v: Db, n: nat, limit: int, id: nat)
    requires 1 <= limit && SameSize(db) && SameSize(v) && id < |db.rows| == |v.rows|
  {
    var turn := Turn(db.rows, id);
    if !Queued(db.rows[id]) then
      v.rows[id] == db.rows[id] && id !in v.pending && v.marks[id] == db.marks[id]
    else
      && v.marks[id] == db.marks[id] + Pushes(db.ticks, limit, turn, n)
      && if turn < limit && turn < n then
           && v.rows[id] == db.rows[id].(pushed := true)
           && id in v.pending && v.pending[id] == Attempts(n, limit, turn)
         else
           v.rows[id] == db.rows[id] && id !in v.pending
  }

  predicate Rotating(db: Db, v: Db, n: nat, limit: int, key: Key)
    requires 1 <= limit && SameSize(db) && SameSize(v)
  {
    && |v.rows| == |db.rows| && v.ticks == db.ticks + n
    && (forall id | 0 <= id < |db.rows| :: KeyOf(v.rows[id]) == KeyOf(db.rows[id]))
    && (forall id | 0 <= id < |db.rows| && KeyOf(db.rows[id]) == key :: Placed(db, v, n, limit, id))
  }

  /** In the queue of the next round are the record due, if any, and those never served so far. */
  predicate Next(db: Db, n: nat, limit: int, id: nat)
    requires 1 <= limit && id < |db.rows|
  {
    var turn := Turn(db.rows, id);
    Queued(db.rows[id]) && (turn == Served(n, limit) || turn >= limit || turn >= n)
  }

  lemma NextWaits(db: Db, v: Db, n: nat, limit: int, key: Key, id: nat)
    requires 1 <= limit && SameSize(db) && SameSize(v) && Rotating(db, v, n, limit, key) && id < |db.rows|
    ensures Waits(Tick(v, limit).rows[id], key) <==> KeyOf(db.rows[id]) == key && Next(db, n, limit, id)
  {
    if KeyOf(db.rows[id]) == key {
      assert Placed(db, v, n, limit, id);
    }
  }

  /** The first of them is the one whose turn is served. */
  lemma FirstIsServed(db: Db, v: Db, n: nat, limit: int, key: Key, id: nat)
    requires 1 <= limit && SameSize(db) && SameSize(v) && Rotating(db, v, n, limit, key)
    requires id < |db.rows| && KeyOf(db.rows[id]) == key
    ensures FirstOfKey(Tick(v, limit).rows, id)
            <==> Queued(db.rows[id]) && Turn(db.rows, id) == Served(n, limit)
  {
    var rows, turn, next := Tick(v, limit).rows, Turn(db.rows, id), Served(n, limit);
    assert KeyOf(rows[id]) == key;
    NextWaits(db, v, n, limit, key, id);
    if Waits(rows[id], key) && turn != next {
      var j := AtTurn(db.rows, key, id, next);
      NextWaits(db, v, n, limit, key, j);
      AheadGrows(rows, key, j, id);
    } else if Queued(db.rows[id]) && turn == next && Ahead(rows, key, id) > 0 {
      var j := AtTurn(rows, key, id, 0);
      NextWaits(db, v, n, limit, key, j);
      AheadGrows(db.rows, key, j, id);
      assert false;
    }
  }

  /** One record over one round: requeued if due, then sent if its turn is served. */
  lemma PlacedAfter(db: Db, v: Db, u: Db, w: Db, n: nat, limit: int, id: nat)
    requires 1 <= limit && SameSize(db) && SameSize(v) && id < |db.rows| == |v.rows| && v.ticks == db.ticks + n
    requires u == Tick(v, limit) && Placed(db, v, n, limit, id)
    requires SameSize(w) && |w.rows| == |u.rows|
    requires Sent(u, w, id, Queued(db.rows[id]) && Turn(db.rows, id) == Served(n, limit))
    ensures Placed(db, w, n + 1, limit, id)
  {
    var turn := Turn(db.rows, id);
    if !Queued(db.rows[id]) {
    } else if turn == Served(n, limit) {
      assert Served(n + 1, limit) == if turn + 1 == limit then 0 else turn + 1;
    } else if turn < limit && turn < n {
      assert v.pending[id] < limit;
    } else {
    }
  }

  lemma StaysPlaced(db: Db, v: Db, accepted: set<nat>, n: nat, limit: int, key: Key, id: nat)
    requires 1 <= limit && SameSize(db) && SameSize(v) && Rotating(db, v, n, limit, key)
    requires AllAccepted(v, accepted, limit) && id < |db.rows| && KeyOf(db.rows[id]) == key
    ensures |Synced(v, [], accepted, limit).rows| == |db.rows|
    ensures Placed(db, Synced(v, [], accepted, limit), n + 1, limit, id)
  {
    assert Placed(db, v, n, limit, id);
    RoundPushesFirsts(v, accepted, limit, id);
    FirstIsServed(db, v, n, limit, key, id);
    PlacedAfter(db, v, Tick(v, limit), Synced(v, [], accepted, limit), n, limit, id);
  }

  lemma RoundKeepsRotating(db: Db, v: Db, accepted: set<nat>, n: nat, limit: int, key: Key)
    requires 1 <= limit && SameSize(db) && SameSize(v) && Rotating(db, v, n, limit, key)
    requires AllAccepted(v, accepted, limit)
    ensures |db.rows| > 0 ==> Rotating(db, Synced(v, [], accepted, limit), n + 1, limit, key)
  {
    var w := Synced(v, [], accepted, limit);
    forall id | 0 <= id < |db.rows|
      ensures |w.rows| == |db.rows| && w.ticks == v.ticks + 1 && KeyOf(w.rows[id]) == KeyOf(db.rows[id])
      ensures KeyOf(db.rows[id]) == key ==> Placed(db, w, n + 1, limit, id)
    {
      RoundPushesFirsts(v, accepted, limit, id);
      if KeyOf(db.rows[id]) == key {
        StaysPlaced(db, v, accepted, n, limit, key, id);
      }
    }
    if |db.rows| > 0 {
      RoundPushesFirsts(v, accepted, limit, 0);
    }
  }

  /** No push of a record with this key is waiting for its confirmation. */
  predicate NoneCounting(db: Db, key: Key) {
    forall id | id in db.pending :: id < |db.rows| ==> KeyOf(db.rows[id]) != key
  }

  lemma {:induction false} RoundsKeepRotating(db: Db, rounds: seq<set<nat>>, limit: int, key: Key)
    requires 1 <= limit && SameSize(db) && AcceptedRounds(db, rounds, limit) && NoneCounting(db, key) && db.rows != []
    ensures Rotating(db, Rounds(db, rounds, limit), |rounds|, limit, key)
  {
    if rounds == [] {
      forall id | 0 <= id < |db.rows| ensures db.marks[id] + [] == db.marks[id] {}
    } else {
      var front := rounds[..|rounds| - 1];
      RoundsKeepRotating(db, front, limit, key);
      RoundKeepsRotating(db, Rounds(db, front, limit), rounds[|rounds| - 1], |front|, limit, key);
    }
  }

  /**
   * Deduplication puts a duplicate off, and may put it off for ever. Over rounds with nothing pulled and every sent
   * record accepted, a queued record with `turn` earlier ones of its call, band and cell is pushed in round
   * `turn + 1` and every `limit` rounds after it if `turn < limit`, and otherwise never.
   */
  lemma PushedInItsTurn(db: Db, rounds: seq<set<nat>>, limit: int, id: nat)
    requires 1 <= limit && SameSize(db) && AcceptedRounds(db, rounds, limit)
    requires id < |db.rows| && Queued(db.rows[id]) && NoneCounting(db, KeyOf(db.rows[id]))
    ensures var v, turn := Rounds(db, rounds, limit), Turn(db.rows, id);
            && |v.rows| == |db.rows| && (v.rows[id].pushed <==> turn < limit && turn < |rounds|)
            && v.marks[id] == db.marks[id] + Pushes(db.ticks, limit, turn, |rounds|)
  {
    RoundsKeepRotating(db, rounds, limit, KeyOf(db.rows[id]));
    assert Placed(db, Rounds(db, rounds, limit), |rounds|, limit, id);
  }

  /** In the marks: a push in round `m + 1` exactly when that round serves the turn. */
  lemma {:induction false} PushesExactlyWhenServed(ticks: nat, limit: int, turn: nat, n: nat, m: nat)
    requires 1 <= limit && m < n
    ensures Pushed(ticks + m + 1) in Pushes(ticks, limit, turn, n) <==> m % limit == turn
  {
    ServedIsRemainder(n - 1, limit);
    if m < n - 1 {
      PushesExactlyWhenServed(ticks, limit, turn, n - 1, m);
    } else {
      NotYetPushed(ticks, limit, turn, n - 1);
    }
  }

  lemma {:induction false} NotYetPushed(ticks: nat, limit: int, turn: nat, n: nat)
    requires 1 <= limit
    ensures forall m: nat | m > ticks + n :: Pushed(m) !in Pushes(ticks, limit, turn, n)
  {
    if n > 0 {
      NotYetPushed(ticks, limit, turn, n - 1);
    }
  }

  /** Rounds in which everything sent is accepted. */
  lemma {:induction false} WillingRounds(db: Db, n: nat, limit: int) returns (rounds: seq<set<nat>>)
    requires SameSize(db)
    ensures |rounds| == n && AcceptedRounds(db, rounds, limit)
  {
    if n == 0 {
      rounds := [];
    } else {
      var front := WillingRounds(db, n - 1, limit);
      var v := Rounds(db, front, limit);
      rounds := front + [set id | id in PushIds(Tick(v, limit))];
      assert rounds[..|rounds| - 1] == front;
    }
  }

  ghost predicate NeverPushed(db: Db, limit: int, id: nat)
    requires SameSize(db) && id < |db.rows|
  {
    forall rounds | AcceptedRounds(db, rounds, limit) :: !Rounds(db, rounds, limit).rows[id].pushed
  }

  /** However many rounds follow, a queued record is never pushed exactly when `limit` others are before it. */
  lemma NeverPushedExactlyWhen(db: Db, limit: int, id: nat)
    requires 1 <= limit && SameSize(db) && id < |db.rows| && Queued(db.rows[id]) && NoneCounting(db, KeyOf(db.rows[id]))
    ensures NeverPushed(db, limit, id) <==> limit <= Turn(db.rows, id)
  {
    if limit <= Turn(db.rows, id) {
      forall rounds | AcceptedRounds(db, rounds, limit) ensures !Rounds(db, rounds, limit).rows[id].pushed {
        PushedInItsTurn(db, rounds, limit, id);
      }
    } else {
      var rounds := WillingRounds(db, Turn(db.rows, id) + 1, limit);
      PushedInItsTurn(db, rounds, limit, id);
    }
  }
}
