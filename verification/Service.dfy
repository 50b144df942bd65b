/** The way in (internal/alerts/service.go): validation, then the store. */
module Service {
  import opened Alerts
  import opened StoreSpec
  import opened SqliteStore
  import opened SqliteTables

  datatype Receipt = Received | Rejected(verdict: Verdict) | NotStored

  class AlertService {
    const store: Store
    const maxAlerts: int

    constructor (store: Store, maxAlerts: int)
      ensures this.store == store && this.maxAlerts == maxAlerts
    {
      this.store, this.maxAlerts := store, maxAlerts;
    }

    /** `visits` are the orders in which the validation happens to walk the label maps; the last three parameters stand
        for the clock, the random ids and the failures of the database. */
    method Receive(g: AlertGroup, visits: seq<Visit>, now: Time, ids: seq<Id>, failAt: nat) returns (receipt: Receipt)
      requires VisitsOf(visits, g.alerts) && |ids| == |g.alerts| + 1
      requires store.Valid()
      modifies store
      ensures store.Valid()
      ensures receipt.Rejected? <==> !ValidGroup(g, maxAlerts)
      ensures receipt.Rejected? ==> !receipt.verdict.Passed?
                                    && receipt.verdict == ValidatePayload(g, maxAlerts, visits)
      ensures receipt.Received? <==>
                ValidGroup(g, maxAlerts) && old(Succeeds(store.State(), SaveOp(g, now, ids, failAt)))
      ensures Abs(store.groups) == if receipt.Received? then Upsert(old(Abs(store.groups)), g, now)
                                   else old(Abs(store.groups))
      ensures receipt.Received? ==> AllNamed(g.alerts) && exists gid ::
                && SavedAs(old(store.State()), store.State(), g, now, ids, gid)
                && forall r | r in store.alerts && r.groupId == gid :: r.columns.alertname != ""
      ensures !receipt.Received? ==> store.State() == old(store.State())
    {
      ValidatePayloadExact(g, maxAlerts, visits);
      var verdict := ValidatePayload(g, maxAlerts, visits);
      if !verdict.Passed? {
        return Rejected(verdict);
      }
      var outcome := store.Save(g, now, ids, failAt);
      if outcome.SaveFailed? {
        return NotStored;
      }
      NamelessIsInvalid(g, maxAlerts, visits);
      ghost var gid :| SavedAs(old(store.State()), store.State(), g, now, ids, gid);
      SavedRowsAreNamed(old(store.State()), store.State(), g, now, ids, gid);
      return Received;
    }
  }
}
