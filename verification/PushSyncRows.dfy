/** What a round does to the single record: which rows a pull inserts, adopts or leaves, and which a push sends. */
module PushSyncRows {
  import opened Prelude
  import opened PushSync

  // ---- pulling ---------------------------------------------------------------

  /** A logged record of the contact the other log's row is about. */
  predicate SameContact(row: Row, r: Remote) {
    row.completed && row.dxCall == r.dxCall && row.band == r.band && row.epoch - 120.0 <= r.epoch <= row.epoch + 120.0
  }

  /** The table has a record of the contact, or one with the row's own identifier. */
  predicate Recognised(rows: seq<Row>, r: Remote) {
    || (r.uuid != "" && exists i :: 0 <= i < |rows| && rows[i].uuid == r.uuid)
    || (exists i :: 0 <= i < |rows| && SameContact(rows[i], r))
  }

  lemma {:induction false} UuidIsThere(rows: seq<Row>, uuid: string)
    ensures HasUuid(rows, uuid) <==> exists i :: 0 <= i < |rows| && rows[i].uuid == uuid
  {
    if rows != [] {
      var front := rows[..|rows| - 1];
      UuidIsThere(front, uuid);
      assert forall i | 0 <= i < |front| :: front[i] == rows[i];
      if HasUuid(front, uuid) {
        var i :| 0 <= i < |front| && front[i].uuid == uuid;
        assert rows[i].uuid == uuid;
      }
    }
  }

  lemma ContactsAreFound(rows: seq<Row>, r: Remote)
    ensures MatchingIds(rows, |rows|, r) != [] <==> exists i :: 0 <= i < |rows| && SameContact(rows[i], r)
  {
    var ids := MatchingIds(rows, |rows|, r);
    if ids != [] {
      assert SameContact(rows[ids[0]], r);
    }
    if i :| 0 <= i < |rows| && SameContact(rows[i], r) {
      MatchingIdsComplete(rows, |rows|, r, i);
    }
  }

  lemma KnownIsRecognised(db: Db, r: Remote)
    ensures Known(db, r) <==> Recognised(db.rows, r)
  {
    UuidIsThere(db.rows, r.uuid);
    ContactsAreFound(db.rows, r);
  }

  lemma {:induction false} AdoptAllAdopts(db: Db, ids: seq<nat>, r: Remote, id: nat)
    requires SameSize(db) && id < |db.rows| && forall i | 0 <= i < |ids| :: ids[i] < |db.rows|
    ensures var v := AdoptAll(db, ids, r);
            && v.rows[id] == (if id in ids then db.rows[id].(band := r.band, uuid := r.uuid, pushed := true)
                              else db.rows[id])
            && (id in v.pending <==> id in db.pending && id !in ids)
            && v.cursor == db.cursor && v.ticks == db.ticks
  {
    if ids != [] {
      var init, last := ids[..|ids| - 1], ids[|ids| - 1];
      AdoptAllAdopts(db, init, r, id);
      assert id in ids <==> id == last || id in init;
    }
  }

  /** What becomes of record `id`: a record of the row's contact takes its identifier and counts as arrived. */
  predicate AdoptedOrKept(db: Db, v: Db, r: Remote, id: nat)
    requires id < |db.rows| <= |v.rows|
  {
    && v.rows[id] == (if SameContact(db.rows[id], r) then db.rows[id].(uuid := r.uuid, pushed := true) else db.rows[id])
    && (id in v.pending <==> id in db.pending && !SameContact(db.rows[id], r))
  }

  /**
   * A pulled row adds a record exactly when it is not recognised, one that is never sent back; and every record of
   * its contact, and no other, counts as arrived and takes its identifier.
   */
  lemma PullDecides(db: Db, r: Remote)
    requires SameSize(db)
    ensures var v := PullOne(db, r);
            && |v.rows| == |db.rows| + (if Recognised(db.rows, r) then 0 else 1)
            && (!Recognised(db.rows, r) ==>
                  && v.rows[|db.rows|] == Row(r.dxCall, r.band, r.epoch, true, true, r.uuid, true)
                  && v.marks[|db.rows|] == [Confirmed])
            && (forall id | 0 <= id < |db.rows| :: AdoptedOrKept(db, v, r, id))
  {
    var v, ids := PullOne(db, r), MatchingIds(db.rows, |db.rows|, r);
    KnownIsRecognised(db, r);
    forall id | 0 <= id < |db.rows| ensures AdoptedOrKept(db, v, r, id) {
      MatchingIdsComplete(db.rows, |db.rows|, r, id);
      if Known(db, r) {
        AdoptAllAdopts(db, ids, r, id);
      }
    }
  }

  /** Pulling a row again never adds another record. */
  lemma PullTwiceAddsOnce(db: Db, r: Remote)
    requires SameSize(db)
    ensures |PullOne(PullOne(db, r), r).rows| == |PullOne(db, r).rows|
  {
    var v := PullOne(db, r);
    PullDecides(db, r);
    PullDecides(v, r);
    if Recognised(db.rows, r) {
      if i :| 0 <= i < |db.rows| && SameContact(db.rows[i], r) {
        assert AdoptedOrKept(db, v, r, i) && SameContact(v.rows[i], r);
      } else {
        var i :| 0 <= i < |db.rows| && db.rows[i].uuid == r.uuid;
        assert AdoptedOrKept(db, v, r, i) && v.rows[i].uuid == r.uuid;
      }
    } else {
      assert SameContact(v.rows[|db.rows|], r);
    }
  }

  /** The cursor moves to the highest key seen, and never back. */
  lemma {:induction false} CursorIsHighest(db: Db, fetched: seq<Remote>)
    requires SameSize(db)
    ensures var c := PullAll(db, fetched).cursor;
            && db.cursor <= c && (forall i | 0 <= i < |fetched| :: fetched[i].pk <= c)
            && (c == db.cursor || exists i :: 0 <= i < |fetched| && fetched[i].pk == c)
  {
    if fetched != [] {
      var front, last := fetched[..|fetched| - 1], fetched[|fetched| - 1];
      CursorIsHighest(db, front);
      var v := PullAll(db, front);
      PullKeepsCursor(v, last);
      assert forall i | 0 <= i < |front| :: front[i] == fetched[i];
      if v.cursor != db.cursor {
        var i :| 0 <= i < |front| && front[i].pk == v.cursor;
        assert fetched[i].pk == v.cursor;
      }
    }
  }

  lemma PullKeepsCursor(db: Db, r: Remote)
    requires SameSize(db)
    ensures PullOne(db, r).cursor == db.cursor
  {
    if Known(db, r) && db.rows != [] {
      AdoptAllAdopts(db, MatchingIds(db.rows, |db.rows|, r), r, 0);
    }
  }

  // ---- pushing ---------------------------------------------------------------

  predicate Sendable(row: Row) { row.completed && !row.pushed }

  /** Of one call and band, and in the same 120 s cell. */
  predicate Duplicates(a: Row, b: Row) {
    a.dxCall == b.dxCall && a.band == b.band && (a.epoch / 120.0).Floor == (b.epoch / 120.0).Floor
  }

  lemma FirstOfKeyExactlyWhen(rows: seq<Row>, id: nat)
    requires id < |rows|
    ensures FirstOfKey(rows, id) <==>
              Sendable(rows[id]) && forall j | 0 <= j < id :: !(Sendable(rows[j]) && Duplicates(rows[j], rows[id]))
  {
    var key := KeyOf(rows[id]);
    if j :| 0 <= j < id && Sendable(rows[j]) && Duplicates(rows[j], rows[id]) {
      AheadGrows(rows, key, j, id);
      assert Waits(rows[j], key);
    } else if Ahead(rows, key, id) > 0 {
      var j := AtTurn(rows, key, id, 0);
      assert Sendable(rows[j]) && Duplicates(rows[j], rows[id]);
    }
  }

  /**
   * One push sends and marks a record exactly when it is complete and unpushed, no such record before it duplicates
   * it, and the other log accepts it. Every other record keeps flag, counter and history.
   */
  lemma PushedExactlyWhen(db: Db, accepted: set<nat>, id: nat)
    requires SameSize(db) && id < |db.rows|
    ensures var v := PushRound(db, accepted);
            && |v.rows| == |db.rows|
            && Sent(db, v, id,
                    && id in accepted && Sendable(db.rows[id])
                    && forall j | 0 <= j < id :: !(Sendable(db.rows[j]) && Duplicates(db.rows[j], db.rows[id])))
  {
    DedupedAreFirsts(db.rows, |db.rows|);
    InFirsts(db.rows, |db.rows|, id);
    DedupedDistinct(db.rows, QueuedIds(db.rows, |db.rows|));
    MarkAllSends(db, PushIds(db), accepted, id);
    FirstOfKeyExactlyWhen(db.rows, id);
  }

  /** Rounds that fail leave no trace, however many there are and wherever they fail. */
  lemma {:induction false} FailedRoundsUndo(db: Db, xs: seq<Action>, limit: int)
    requires SameSize(db) && forall i | 0 <= i < |xs| :: xs[i].Sync? && !xs[i].commits
    ensures Run(db, xs, limit) == db
  {
    if xs != [] {
      FailedRoundsUndo(db, xs[..|xs| - 1], limit);
    }
  }

  // ---- what no round touches ---------------------------------------------------

  /** The contact a record is about, and where it came from. */
  predicate SameRecord(a: Row, b: Row) {
    && a.dxCall == b.dxCall && a.band == b.band && a.epoch == b.epoch && a.fromRumlog == b.fromRumlog
    && a.completed == b.completed
  }

  lemma {:induction false} PullKeepsRecord(db: Db, fetched: seq<Remote>, id: nat)
    requires SameSize(db) && id < |db.rows|
    ensures var v := PullAll(db, fetched); id < |v.rows| && SameRecord(db.rows[id], v.rows[id])
  {
    if fetched != [] {
      PullKeepsRecord(db, fetched[..|fetched| - 1], id);
      var v, r := PullAll(db, fetched[..|fetched| - 1]), fetched[|fetched| - 1];
      PullDecides(v, r);
      assert AdoptedOrKept(v, PullOne(v, r), r, id);
    }
  }

  lemma RoundKeepsRecord(db: Db, fetched: seq<Remote>, accepted: set<nat>, limit: int, id: nat)
    requires SameSize(db) && id < |db.rows|
    ensures var v := Synced(db, fetched, accepted, limit); id < |v.rows| && SameRecord(db.rows[id], v.rows[id])
  {
    PullKeepsRecord(db, fetched, id);
    var u := Tick(PullAll(db, fetched), limit);
    assert SameRecord(db.rows[id], u.rows[id]);
    PushedExactlyWhen(u, accepted, id);
  }

  /** Rounds move flags, counters and identifiers only: the contact of a record never changes, nor whether it stands. */
  lemma {:induction false} RunKeepsRecord(db: Db, xs: seq<Action>, limit: int, id: nat)
    requires SameSize(db) && id < |db.rows| && Void(id) !in xs
    ensures var v := Run(db, xs, limit); id < |v.rows| && SameRecord(db.rows[id], v.rows[id])
  {
    if xs != [] {
      var front, x := xs[..|xs| - 1], xs[|xs| - 1];
      assert x in xs && forall y | y in front :: y in xs;
      RunKeepsRecord(db, front, limit, id);
      var v := Run(db, front, limit);
      match x
      case Sync(fetched, accepted, commits) => if commits { RoundKeepsRecord(v, fetched, accepted, limit, id); }
      case Log(_) =>
      case Void(_) =>
    }
  }
}
