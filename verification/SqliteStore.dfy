/** The store's methods (internal/storage/sqlite/store.go) over the two tables. */
module SqliteStore {
  import opened Alerts
  import opened Basics
  import opened StoreSpec
  import opened SqliteTables

  datatype SaveOutcome = SaveDone | SaveFailed(statement: nat)

  datatype MarkOutcome = MarkDone | MarkNotFound | MarkFailed

  class Store {
    var groups: seq<GroupRow>
    var alerts: seq<AlertRow>

    function State(): Db
      reads this
    {
      Db(groups, alerts)
    }

    ghost predicate Valid()
      reads this
    {
      Inv(State())
    }

    constructor ()
      ensures State() == Db([], []) && Valid()
    {
      groups, alerts := [], [];
    }

    /** `ids` are the random ids the statements draw; `failAt` injects a failure as in `Op`. */
    method Save(g: AlertGroup, now: Time, ids: seq<Id>, failAt: nat) returns (outcome: SaveOutcome)
      requires Valid() && |ids| == |g.alerts| + 1
      modifies this
      ensures Valid()
      ensures outcome.SaveDone? <==> old(Succeeds(State(), SaveOp(g, now, ids, failAt)))
      ensures State() == old(Perform(State(), SaveOp(g, now, ids, failAt)))
      ensures Abs(groups) == if outcome.SaveDone? then Upsert(old(Abs(groups)), g, now) else old(Abs(groups))
      ensures outcome.SaveDone? ==> exists gid :: SavedAs(old(State()), State(), g, now, ids, gid)
      ensures outcome.SaveFailed? ==> StopsAt(old(State()), g, now, ids, failAt, outcome.statement)
    {
      ghost var db, op := State(), SaveOp(g, now, ids, failAt);
      PerformKeepsInv(db, op);
      var groups0, alerts0 := groups, alerts;
      outcome := Transact(g, now, ids, failAt);
      if outcome.SaveDone? {
        SaveRefinesUpsert(db, g, now, ids);
        ghost var gid := CommittedIsSaved(db, g, now, ids);
      } else {
        groups, alerts := groups0, alerts0;
      }
    }

    /** The body of the transaction; its failures leave partial writes for `Save` to roll back. */
    method Transact(g: AlertGroup, now: Time, ids: seq<Id>, failAt: nat) returns (outcome: SaveOutcome)
      requires |ids| == |g.alerts| + 1
      modifies this
      ensures outcome.SaveDone? <==> failAt > |g.alerts| + 4 && old(Admissible(State(), g, now, ids))
      ensures outcome.SaveDone? ==> State() == Committed(old(State()), g, now, ids)
      ensures outcome.SaveFailed? ==> StopsAt(old(State()), g, now, ids, failAt, outcome.statement)
    {
      ghost var db := State();
      if failAt == 0 {
        return SaveFailed(0);
      }
      if failAt == 1 || !CanUpsert(groups, g, ids[0]) {
        return SaveFailed(1);
      }
      var (upserted, gid) := UpsertRow(groups, g, now, ids[0]);
      groups := upserted;
      if failAt == 2 {
        return SaveFailed(2);
      }
      alerts := DeleteAlerts(alerts, gid);
      if failAt == 3 {
        return SaveFailed(3);
      }
      var i := 0;
      while i < |g.alerts|
        invariant 0 <= i <= |g.alerts|
        invariant State() == AfterInserts(db, g, now, ids, i)
        invariant failAt >= i + 4
        invariant forall n | 0 <= n < i :: InsertIsPossible(db, g, now, ids, n)
      {
        if failAt == i + 4 {
          return SaveFailed(i + 4);
        }
        assert CanInsert(State(), ids[i + 1], gid) == InsertIsPossible(db, g, now, ids, i);
        if !CanInsert(State(), ids[i + 1], gid) {
          return SaveFailed(i + 4);
        }
        alerts := alerts + [AlertRow(ids[i + 1], gid, Columns(g.alerts[i]))];
        i := i + 1;
      }
      if failAt == |g.alerts| + 4 {
        return SaveFailed(|g.alerts| + 4);
      }
      return SaveDone;
    }

    method MarkSent(key: string, fails: bool) returns (outcome: MarkOutcome)
      requires Valid()
      modifies this
      ensures Valid()
      ensures State() == old(Perform(State(), MarkOp(key, fails)))
      ensures outcome.MarkDone? <==> !fails && key in old(Abs(groups))
      ensures outcome.MarkNotFound? <==> !fails && key !in old(Abs(groups))
      ensures outcome.MarkDone? ==> key in old(Abs(groups)) && Abs(groups) == Mark(old(Abs(groups)), key)
      ensures !outcome.MarkDone? ==> State() == old(State())
    {
      MarkKeepsInv(State(), key);
      MarkRefinesMark(groups, key);
      if fails {
        return MarkFailed;
      }
      var affected := if Find(groups, key) < |groups| then 1 else 0;
      groups := MarkRow(groups, key);
      return if affected == 0 then MarkNotFound else MarkDone;
    }

    /** The `SELECT` of `GetPending`: pending rows, oldest first, at most `limit`. Rows of equal age may come in any
        order. */
    method Query(limit: nat) returns (rows: seq<GroupRow>)
      requires Valid()
      ensures IsAnswer(groups, limit, rows)
      ensures PendingAnswer(Abs(groups), limit, KeysOf(rows))
    {
      var left := PendingRows(groups);
      rows := [];
      NothingTaken(groups);
      while |rows| < limit && left != {}
        invariant |rows| <= limit && Taken(groups, rows, left)
        decreases left
      {
        OldestRowExists(left);
        var r :| r in left && forall q | q in left :: r.receivedAt <= q.receivedAt;
        TakeOneRow(groups, rows, left, r);
        left := left - {r};
        rows := rows + [r];
      }
      TakenIsAnswer(groups, rows, left, limit);
      TakenAnswersQuery(groups, rows, left, limit);
    }

    /** `failAt` injects a failure: 0 at the query, then one per row, and last at the end of the iteration. A failure
        returns no groups at all. */
    method GetPending(limit: nat, failAt: nat) returns (ok: bool, found: seq<AlertGroup>)
      requires Valid()
      ensures ok <==> failAt > Min(limit, |PendingKeys(Abs(groups))|) + 1
      ensures !ok ==> found == []
      ensures forall i | 0 <= i < |found| ::
                found[i].groupKey in Abs(groups) && found[i] == Abs(groups)[found[i].groupKey].group
      ensures ok ==> PendingAnswer(Abs(groups), limit, PayloadKeys(found))
    {
      found := [];
      if failAt == 0 {
        return false, [];
      }
      var rows := Query(limit);
      for i := 0 to |rows|
        invariant |found| == i && failAt > i
        invariant forall j | 0 <= j < i :: found[j] == rows[j].payload
      {
        if failAt == i + 1 {
          return false, [];
        }
        found := found + [rows[i].payload];
      }
      if failAt == |rows| + 1 {
        return false, [];
      }
      ok := true;
      forall i | 0 <= i < |found|
        ensures found[i].groupKey in Abs(groups) && found[i] == Abs(groups)[found[i].groupKey].group
        ensures found[i].groupKey == rows[i].groupKey
      {
        var j :| 0 <= j < |groups| && groups[j] == rows[i];
        AbsLookup(groups, j);
        assert ColumnsAgree(groups[j]);
      }
      assert PayloadKeys(found) == KeysOf(rows);
    }
  }
}
