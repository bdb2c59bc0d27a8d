/** The log table and its push state as an object, and the sync round that drives it. */
module PushSyncObject {
  import opened Prelude
  import opened PushSync

  /**
   * Where a round goes wrong, if it does: the other log cannot be opened, or an exception after `rows` pulled rows or
   * while pushing.
   */
  datatype Fault = NoFault | Unreadable | Pulling(rows: nat) | Pushing

  datatype Report = Report(pulled: nat, inserted: nat, pushed: nat, requeued: nat, failed: bool)

  /** The table in the middle of a tick, the counters of `todo` still to be looked at. */
  ghost predicate Halfway(before: Db, rows: seq<Row>, pending: map<nat, int>, todo: set<nat>, limit: int) {
    && |rows| == |before.rows| && todo <= pending.Keys <= before.pending.Keys
    && (forall id | id in todo :: pending[id] == before.pending[id])
    && (forall id | id in before.pending && id !in todo :: id in pending <==> before.pending[id] < limit)
    && (forall id | id in pending && id !in todo :: pending[id] == before.pending[id] + 1)
    && (forall id | 0 <= id < |rows| ::
          rows[id] == TickedRow(before.rows[id], id !in todo && Due(before.pending, id, limit)))
  }

  lemma HalfwayStart(before: Db, limit: int)
    ensures Halfway(before, before.rows, before.pending, before.pending.Keys, limit)
    ensures DueIds(before.pending, limit) - before.pending.Keys == {}
  {
  }

  lemma HalfwayOne(before: Db, rows: seq<Row>, pending: map<nat, int>, todo: set<nat>, id: nat, limit: int)
    requires Halfway(before, rows, pending, todo, limit) && id in todo && id < |rows|
    ensures Due(pending, id, limit) == Due(before.pending, id, limit)
    ensures Due(pending, id, limit) ==>
      Halfway(before, rows[id := rows[id].(pushed := false)], pending - {id}, todo - {id}, limit)
    ensures !Due(pending, id, limit) ==> Halfway(before, rows, pending[id := pending[id] + 1], todo - {id}, limit)
  {
  }

  lemma OneFewer(due: set<nat>, todo: set<nat>, id: nat)
    requires id in todo
    ensures |due - (todo - {id})| == |due - todo| + (if id in due then 1 else 0)
  {
    if id in due {
      assert due - (todo - {id}) == (due - todo) + {id};
    } else {
      assert due - (todo - {id}) == due - todo;
    }
  }

  lemma HalfwayThrough(before: Db, rows: seq<Row>, pending: map<nat, int>, limit: int)
    requires Halfway(before, rows, pending, {}, limit) && forall id | id in before.pending :: id < |before.rows|
    ensures rows == TickedRows(before, limit) && pending == Aged(before.pending, limit, |before.rows|)
  {
    CountersThrough(before, rows, pending, limit);
  }

  lemma CountersThrough(before: Db, rows: seq<Row>, pending: map<nat, int>, limit: int)
    requires Halfway(before, rows, pending, {}, limit) && forall id | id in before.pending :: id < |before.rows|
    ensures pending == Aged(before.pending, limit, |before.rows|)
  {
    var aged := Aged(before.pending, limit, |before.rows|);
    forall id | id in pending ensures id in aged && aged[id] == pending[id] {
    }
    forall id | id in aged ensures id in pending {
    }
  }

  lemma OneMoreMarked(db: Db, ids: seq<nat>, i: nat, accepted: set<nat>)
    requires SameSize(db) && i < |ids| && forall k | 0 <= k < |ids| :: ids[k] < |db.rows|
    ensures var v := MarkAll(db, ids[..i], accepted);
            MarkAll(db, ids[..i + 1], accepted) == if ids[i] in accepted then MarkPushed(v, ids[i]) else v
  {
    assert ids[..i + 1][..i] == ids[..i];
  }

  lemma OneMorePulled(db: Db, fetched: seq<Remote>, i: nat)
    requires SameSize(db) && i < |fetched|
    ensures var v := PullOne(PullAll(db, fetched[..i]), fetched[i]);
            PullAll(db, fetched[..i + 1]) == v.(cursor := Max(v.cursor, fetched[i].pk))
  {
    assert fetched[..i + 1][..i] == fetched[..i];
  }

  class Ft8Db {
    var rows: seq<Row>
    var pending: map<nat, int>
    var cursor: int
    ghost var ticks: nat
    ghost var marks: seq<seq<Mark>>

    ghost function View(): Db
      reads this
    {
      Db(rows, pending, cursor, ticks, marks)
    }

    ghost predicate Valid()
      reads this
    {
      SameSize(View()) && forall id | id in pending :: id < |rows|
    }

    constructor ()
      ensures Valid() && View() == EMPTY
    {
      rows, pending, cursor, ticks, marks := [], map[], 0, 0, [];
    }

    method Insert(row: Row)
      requires Valid()
      modifies this
      ensures Valid() && View() == InsertRecord(old(View()), row)
    {
      rows := rows + [row.(pushed := row.fromRumlog)];
      marks := marks + [if row.fromRumlog then [Confirmed] else []];
    }

    method Mark(id: nat)
      requires Valid() && id < |rows|
      modifies this
      ensures Valid() && View() == MarkPushed(old(View()), id)
    {
      rows := rows[id := rows[id].(pushed := true)];
      pending := pending[id := 1];
      marks := marks[id := marks[id] + [Pushed(ticks)]];
    }

    method UpdateFromRumlog(id: nat, r: Remote)
      requires Valid() && id < |rows|
      modifies `rows
      ensures rows == old(rows)[id := old(rows)[id].(band := r.band, uuid := r.uuid)]
    {
      rows := rows[id := rows[id].(band := r.band, uuid := r.uuid)];
    }

    method Confirm(id: nat)
      requires Valid() && id < |rows|
      modifies this
      ensures Valid() && View() == ConfirmPushed(old(View()), id)
    {
      rows := rows[id := rows[id].(pushed := true)];
      pending := pending - {id};
      marks := marks[id := marks[id] + [Confirmed]];
    }

    method Requeue(id: nat)
      requires id < |rows|
      modifies `rows
      ensures rows == old(rows)[id := old(rows)[id].(pushed := false)]
    {
      rows := rows[id := rows[id].(pushed := false)];
    }

    /** One counter: requeue its record if it is at the limit. */
    method AgeOne(ghost before: Db, counters: map<nat, int>, ghost todo: set<nat>, id: nat, limit: int)
      returns (aged: map<nat, int>, due: bool)
      requires id in todo && id < |rows| && Halfway(before, rows, counters, todo, limit) && id in counters
      modifies `rows
      ensures |rows| == |old(rows)| && Halfway(before, rows, aged, todo - {id}, limit)
      ensures due <==> id in DueIds(before.pending, limit)
    {
      HalfwayOne(before, rows, counters, todo, id, limit);
      due := counters[id] >= limit;
      if due {
        Requeue(id);
        aged := counters - {id};
      } else {
        aged := counters[id := counters[id] + 1];
      }
    }

    /** Age every counter once; a record whose counter is at the limit goes back to the queue. */
    method AgeCounters(limit: int) returns (counters: map<nat, int>, requeued: nat)
      requires Valid()
      modifies `rows
      ensures Halfway(old(View()), rows, counters, {}, limit)
      ensures requeued == |DueIds(pending, limit)|
    {
      ghost var before := View();
      counters, requeued := pending, 0;
      var todo := pending.Keys;
      HalfwayStart(before, limit);
      while todo != {}
        invariant Halfway(before, rows, counters, todo, limit)
        invariant requeued == |DueIds(before.pending, limit) - todo|
        decreases |todo|
      {
        var id :| id in todo;
        var due;
        counters, due := AgeOne(before, counters, todo, id, limit);
        OneFewer(DueIds(before.pending, limit), todo, id);
        requeued := if due then requeued + 1 else requeued;
        todo := todo - {id};
      }
      assert DueIds(before.pending, limit) - {} == DueIds(before.pending, limit);
    }

    method TickUnconfirmed(limit: int) returns (requeued: nat)
      requires Valid()
      modifies this
      ensures Valid() && View() == Tick(old(View()), limit)
      ensures requeued == |DueIds(old(pending), limit)|
    {
      ghost var before := View();
      var counters, n := AgeCounters(limit);
      HalfwayThrough(before, rows, counters, limit);
      pending, requeued := counters, n;
      ticks := ticks + 1;
      marks := TickedMarks(before, limit);
    }

    /** One row of the other log: new here, or confirming every record it matches. */
    method Pull(r: Remote) returns (inserted: bool)
      requires Valid()
      modifies this
      ensures Valid() && View() == PullOne(old(View()), r)
      ensures inserted == !Known(old(View()), r)
      ensures |rows| == |old(rows)| + (if inserted then 1 else 0)
    {
      var matched := MatchingIds(rows, |rows|, r);
      inserted := !((r.uuid != "" && HasUuid(rows, r.uuid)) || matched != []);
      if inserted {
        Insert(RowOf(r));
        return;
      }
      var i := 0;
      while i < |matched|
        invariant 0 <= i <= |matched| && Valid() && |rows| == |old(rows)|
        invariant View() == AdoptAll(old(View()), matched[..i], r)
      {
        assert matched[..i + 1][..i] == matched[..i];
        UpdateFromRumlog(matched[i], r);
        Confirm(matched[i]);
        i := i + 1;
      }
      assert matched[..i] == matched;
    }

    method PullRows(fetched: seq<Remote>) returns (inserted: nat)
      requires Valid()
      modifies this
      ensures Valid() && View() == PullAll(old(View()), fetched)
      ensures |rows| == |old(rows)| + inserted
    {
      ghost var before := View();
      inserted := 0;
      var i := 0;
      while i < |fetched|
        invariant 0 <= i <= |fetched| && Valid()
        invariant View() == PullAll(before, fetched[..i])
        invariant |rows| == |old(rows)| + inserted
      {
        OneMorePulled(before, fetched, i);
        var new_ := Pull(fetched[i]);
        if new_ {
          inserted := inserted + 1;
        }
        cursor := Max(cursor, fetched[i].pk);
        i := i + 1;
      }
      assert fetched[..i] == fetched;
    }

    /** Keep one record per key: the first one of the list. */
    method DedupePending(ids: seq<nat>) returns (unique: seq<nat>)
      requires forall i | 0 <= i < |ids| :: ids[i] < |rows|
      ensures unique == Deduped(rows, ids)
    {
      var seen: set<Key> := {};
      unique := [];
      var i := 0;
      while i < |ids|
        invariant 0 <= i <= |ids| && unique == Deduped(rows, ids[..i])
        invariant forall key :: key in seen <==> KeySeen(rows, ids[..i], key)
      {
        assert ids[..i + 1][..i] == ids[..i];
        var key := KeyOf(rows[ids[i]]);
        if key !in seen {
          seen := seen + {key};
          unique := unique + [ids[i]];
        }
        i := i + 1;
      }
      assert ids[..i] == ids;
    }

    /** Mark those of the records sent that the other log accepted. */
    method MarkAccepted(ids: seq<nat>, accepted: set<nat>) returns (pushed: nat)
      requires Valid() && forall k | 0 <= k < |ids| :: ids[k] < |rows|
      modifies this
      ensures Valid() && View() == MarkAll(old(View()), ids, accepted) && pushed <= |ids|
    {
      ghost var before := View();
      pushed := 0;
      var i := 0;
      while i < |ids|
        invariant 0 <= i <= |ids| && Valid() && |rows| == |before.rows| && pushed <= i
        invariant View() == MarkAll(before, ids[..i], accepted)
      {
        OneMoreMarked(before, ids, i, accepted);
        if ids[i] in accepted {
          Mark(ids[i]);
          pushed := pushed + 1;
        }
        i := i + 1;
      }
      assert ids[..i] == ids;
    }

    method PushRows(accepted: set<nat>) returns (pushed: nat)
      requires Valid()
      modifies this
      ensures Valid() && View() == PushRound(old(View()), accepted)
      ensures pushed <= |PushIds(old(View()))|
    {
      var ids := DedupePending(QueuedIds(rows, |rows|));
      assert ids == PushIds(View());
      pushed := MarkAccepted(ids, accepted);
    }

    /** One round: pull and confirm, age, push; any exception leaves the table and its push state as they were. */
    method RunSyncOnce(fetched: seq<Remote>, accepted: set<nat>, limit: int, fault: Fault) returns (report: Report)
      requires Valid() && (fault.Pulling? ==> fault.rows <= |fetched|)
      modifies this
      ensures Valid() && View() == Step(old(View()), Sync(fetched, accepted, fault.NoFault?), limit)
      ensures report.failed == !fault.NoFault?
      ensures fault.NoFault? ==>
                && report.pulled == |fetched| && report.inserted == |rows| - |old(rows)|
                && report.requeued == |DueIds(PullAll(old(View()), fetched).pending, limit)|
    {
      report := Report(0, 0, 0, 0, true);
      if fault.Unreadable? {
        return;
      }
      var rows0, pending0, cursor0 := rows, pending, cursor;
      ghost var ticks0, marks0 := ticks, marks;
      var inserted := PullRows(if fault.Pulling? then fetched[..fault.rows] else fetched);
      var requeued, pushed := 0, 0;
      if !fault.Pulling? {
        requeued := TickUnconfirmed(limit);
      }
      if fault.NoFault? {
        pushed := PushRows(accepted);
        report := Report(|fetched|, inserted, pushed, requeued, false);
      } else {
        rows, pending, cursor := rows0, pending0, cursor0;
        ticks, marks := ticks0, marks0;
      }
    }
  }
}
