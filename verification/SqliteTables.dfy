/** The SQLite store (internal/storage/sqlite/store.go, migrations/sqlite/001_create_alerts.sql): two tables with
    their constraints, a `Save` that writes both statement by statement inside a transaction, and the simple map of
    StoreSpec that they amount to. A table is the sequence of its rows in insertion order. */
module SqliteTables {
  import opened Alerts
  import opened Basics
  import opened StoreSpec

  type Id = string

  datatype GroupRow = GroupRow(
    id: Id,
    groupKey: string,
    receiver: string,
    status: string,
    externalURL: string,
    payload: AlertGroup,
    receivedAt: Time,
    notificationStatus: Status)

  /** The columns of `alerts` that come from the payload. Times are cut to whole seconds. */
  datatype AlertColumns = AlertColumns(
    fingerprint: string,
    status: string,
    alertname: string,
    severity: string,
    startsAt: int,
    endsAt: Option<int>)

  datatype AlertRow = AlertRow(id: Id, groupId: Id, columns: AlertColumns)

  datatype Db = Db(groups: seq<GroupRow>, alerts: seq<AlertRow>)

  const NANOS_PER_SECOND := 1_000_000_000

  function Columns(a: Alert): AlertColumns {
    AlertColumns(a.fingerprint, a.status, ValueAt(a.labels, "alertname"), ValueAt(a.labels, "severity"),
                 a.startsAt / NANOS_PER_SECOND,
                 if a.endsAt == 0 then None else Some(a.endsAt / NANOS_PER_SECOND))
  }

  /** The whole second `column` begins at or before `t`, and the next one after it. */
  predicate InSecond(column: int, t: Time) {
    column * 1_000_000_000 <= t < (column + 1) * 1_000_000_000
  }

  /** What the columns say about the alert. */
  predicate Stores(c: AlertColumns, a: Alert) {
    && c.fingerprint == a.fingerprint
    && c.status == a.status
    && (if "alertname" in a.labels then c.alertname == a.labels["alertname"] else c.alertname == "")
    && (if "severity" in a.labels then c.severity == a.labels["severity"] else c.severity == "")
    && InSecond(c.startsAt, a.startsAt)
    && (if a.endsAt == 0 then c.endsAt.None? else c.endsAt.Some? && InSecond(c.endsAt.value, a.endsAt))
  }

  lemma WholeSeconds(t: Time)
    ensures InSecond(t / NANOS_PER_SECOND, t)
  {
  }

  lemma ColumnsStore(a: Alert)
    ensures Stores(Columns(a), a)
  {
    WholeSeconds(a.startsAt);
    WholeSeconds(a.endsAt);
  }

  function Project(alerts: seq<Alert>): seq<AlertColumns> {
    seq(|alerts|, i requires 0 <= i < |alerts| => Columns(alerts[i]))
  }

  // ----- SQL statements

  predicate HasGroupId(groups: seq<GroupRow>, id: Id) {
    exists i | 0 <= i < |groups| :: groups[i].id == id
  }

  predicate HasAlertId(alerts: seq<AlertRow>, id: Id) {
    exists i | 0 <= i < |alerts| :: alerts[i].id == id
  }

  /** The position of the row with this key, or the number of rows if there is none. */
  function Find(groups: seq<GroupRow>, key: string): (i: nat)
    ensures i <= |groups|
    ensures i < |groups| ==> groups[i].groupKey == key
    ensures forall j | 0 <= j < i :: groups[j].groupKey != key
  {
    if groups == [] then 0 else if groups[0].groupKey == key then 0 else 1 + Find(groups[1..], key)
  }

  function RowFor(id: Id, g: AlertGroup, now: Time): GroupRow {
    GroupRow(id, g.groupKey, g.receiver, g.status, g.externalURL, g, now, Pending)
  }

  /** `INSERT … ON CONFLICT(group_key) DO UPDATE … RETURNING id`, unless it would break the primary key. */
  predicate CanUpsert(groups: seq<GroupRow>, g: AlertGroup, drawn: Id) {
    Find(groups, g.groupKey) < |groups| || !HasGroupId(groups, drawn)
  }

  function UpsertRow(groups: seq<GroupRow>, g: AlertGroup, now: Time, drawn: Id): (seq<GroupRow>, Id) {
    var i := Find(groups, g.groupKey);
    if i < |groups| then (groups[i := RowFor(groups[i].id, g, now)], groups[i].id)
    else (groups + [RowFor(drawn, g, now)], drawn)
  }

  /** `DELETE FROM alerts WHERE alert_group_id = ?` */
  function DeleteAlerts(alerts: seq<AlertRow>, gid: Id): seq<AlertRow> {
    if alerts == [] then []
    else
      var n := |alerts| - 1;
      DeleteAlerts(alerts[..n], gid) + (if alerts[n].groupId == gid then [] else [alerts[n]])
  }

  /** `INSERT INTO alerts …`, unless it would break the primary key or the foreign key. */
  predicate CanInsert(db: Db, drawn: Id, gid: Id) {
    !HasAlertId(db.alerts, drawn) && HasGroupId(db.groups, gid)
  }

  function InsertAlert(db: Db, drawn: Id, gid: Id, a: Alert): Db {
    db.(alerts := db.alerts + [AlertRow(drawn, gid, Columns(a))])
  }

  // ----- the transaction of Save as a whole

  function AfterDelete(db: Db, g: AlertGroup, now: Time, drawn: Id): (Db, Id) {
    var (groups, gid) := UpsertRow(db.groups, g, now, drawn);
    (Db(groups, DeleteAlerts(db.alerts, gid)), gid)
  }

  /** The database after the first `n` alert inserts. */
  function AfterInserts(db: Db, g: AlertGroup, now: Time, ids: seq<Id>, n: nat): Db
    requires n <= |g.alerts| && |ids| == |g.alerts| + 1
    decreases n
  {
    var (start, gid) := AfterDelete(db, g, now, ids[0]);
    if n == 0 then start else InsertAlert(AfterInserts(db, g, now, ids, n - 1), ids[n], gid, g.alerts[n - 1])
  }

  /** No statement of the transaction breaks a constraint. */
  ghost predicate Admissible(db: Db, g: AlertGroup, now: Time, ids: seq<Id>)
    requires |ids| == |g.alerts| + 1
  {
    CanUpsert(db.groups, g, ids[0]) && forall n | 0 <= n < |g.alerts| :: InsertIsPossible(db, g, now, ids, n)
  }

  predicate InsertIsPossible(db: Db, g: AlertGroup, now: Time, ids: seq<Id>, n: nat)
    requires |ids| == |g.alerts| + 1 && n < |g.alerts|
  {
    CanInsert(AfterInserts(db, g, now, ids, n), ids[n + 1], AfterDelete(db, g, now, ids[0]).1)
  }

  // ----- what the tables mean

  function EntryOf(r: GroupRow): Entry {
    Entry(r.payload, r.notificationStatus, r.receivedAt)
  }

  /** The map that the group table amounts to. */
  function Abs(groups: seq<GroupRow>): Table {
    if groups == [] then map[]
    else
      var last := groups[|groups| - 1];
      Abs(groups[..|groups| - 1])[last.groupKey := EntryOf(last)]
  }

  function AlertsOf(alerts: seq<AlertRow>, gid: Id): seq<AlertColumns> {
    if alerts == [] then []
    else AlertsOf(alerts[..|alerts| - 1], gid)
         + (if alerts[|alerts| - 1].groupId == gid then [alerts[|alerts| - 1].columns] else [])
  }

  /** They are the columns of the rows with this group id. */
  lemma {:induction false} AlertsOfExactly(alerts: seq<AlertRow>, gid: Id, c: AlertColumns)
    ensures c in AlertsOf(alerts, gid) <==> exists r :: r in alerts && r.groupId == gid && r.columns == c
  {
    if alerts != [] {
      var n := |alerts| - 1;
      AlertsOfExactly(alerts[..n], gid, c);
      assert alerts == alerts[..n] + [alerts[n]];
    }
  }

  ghost predicate DistinctIds(groups: seq<GroupRow>) {
    forall i, j | 0 <= i < j < |groups| :: groups[i].id != groups[j].id
  }

  ghost predicate DistinctKeys(groups: seq<GroupRow>) {
    forall i, j | 0 <= i < j < |groups| :: groups[i].groupKey != groups[j].groupKey
  }

  ghost predicate AllColumnsAgree(groups: seq<GroupRow>) {
    forall i | 0 <= i < |groups| :: ColumnsAgree(groups[i])
  }

  ghost predicate GroupsInv(groups: seq<GroupRow>) {
    DistinctIds(groups) && DistinctKeys(groups) && AllColumnsAgree(groups)
  }

  /** The searchable columns repeat the payload. */
  predicate ColumnsAgree(r: GroupRow) {
    && r.payload.groupKey == r.groupKey
    && r.payload.receiver == r.receiver
    && r.payload.status == r.status
    && r.payload.externalURL == r.externalURL
  }

  ghost predicate DistinctAlertIds(alerts: seq<AlertRow>) {
    forall i, j | 0 <= i < j < |alerts| :: alerts[i].id != alerts[j].id
  }

  ghost predicate ForeignKeys(db: Db) {
    forall i | 0 <= i < |db.alerts| :: HasGroupId(db.groups, db.alerts[i].groupId)
  }

  ghost predicate AlertIdsInv(db: Db) {
    DistinctAlertIds(db.alerts) && ForeignKeys(db)
  }

  ghost predicate ProjectionInv(db: Db) {
    forall i | 0 <= i < |db.groups| :: AlertsOf(db.alerts, db.groups[i].id) == Project(db.groups[i].payload.alerts)
  }

  /** The same without `Project`: the alerts of each group, one by one. */
  ghost predicate AlertsFollowPayloads(db: Db) {
    forall i | 0 <= i < |db.groups| :: StoresAll(AlertsOf(db.alerts, db.groups[i].id), db.groups[i].payload.alerts)
  }

  ghost predicate StoresAll(columns: seq<AlertColumns>, alerts: seq<Alert>) {
    |columns| == |alerts| && forall i | 0 <= i < |alerts| :: Stores(columns[i], alerts[i])
  }

  lemma ProjectStoresAll(alerts: seq<Alert>)
    ensures StoresAll(Project(alerts), alerts)
  {
    forall i | 0 <= i < |alerts| ensures Stores(Project(alerts)[i], alerts[i]) {
      ColumnsStore(alerts[i]);
    }
  }

  lemma ProjectionFollows(db: Db)
    requires ProjectionInv(db)
    ensures AlertsFollowPayloads(db)
  {
    forall i | 0 <= i < |db.groups|
      ensures StoresAll(AlertsOf(db.alerts, db.groups[i].id), db.groups[i].payload.alerts)
    {
      ProjectStoresAll(db.groups[i].payload.alerts);
    }
  }

  /** Keys and ids are unique, every alert belongs to a group, and a group's alerts are the projection of its payload.
      */
  ghost predicate Inv(db: Db) {
    GroupsInv(db.groups) && AlertIdsInv(db) && ProjectionInv(db)
  }

  // ----- lemmas about the abstraction

  lemma {:induction false} AbsLookup(groups: seq<GroupRow>, i: nat)
    requires DistinctKeys(groups) && i < |groups|
    ensures groups[i].groupKey in Abs(groups) && Abs(groups)[groups[i].groupKey] == EntryOf(groups[i])
  {
    if i < |groups| - 1 {
      AbsLookup(groups[..|groups| - 1], i);
    }
  }

  predicate HasKey(groups: seq<GroupRow>, key: string) {
    exists i | 0 <= i < |groups| :: groups[i].groupKey == key
  }

  lemma {:induction false} AbsKeys(groups: seq<GroupRow>, key: string)
    ensures key in Abs(groups) <==> HasKey(groups, key)
    ensures HasKey(groups, key) <==> Find(groups, key) < |groups|
  {
    if groups != [] {
      var n := |groups| - 1;
      AbsKeys(groups[..n], key);
      assert HasKey(groups, key) <==> HasKey(groups[..n], key) || groups[n].groupKey == key by {
        assert HasKey(groups[..n], key) ==>
                 exists i | 0 <= i < n :: groups[..n][i].groupKey == key && groups[i].groupKey == key;
        assert forall i | 0 <= i < n :: groups[i] == groups[..n][i];
      }
    }
  }

  lemma {:induction false} AbsUpdate(groups: seq<GroupRow>, i: nat, r: GroupRow)
    requires DistinctKeys(groups) && i < |groups| && r.groupKey == groups[i].groupKey
    ensures Abs(groups[i := r]) == Abs(groups)[r.groupKey := EntryOf(r)]
  {
    var n := |groups| - 1;
    if i == n {
      assert groups[i := r][..n] == groups[..n];
    } else {
      assert groups[i := r][..n] == groups[..n][i := r];
      AbsUpdate(groups[..n], i, r);
      assert groups[i].groupKey != groups[n].groupKey;
    }
  }

  lemma AbsAppend(groups: seq<GroupRow>, r: GroupRow)
    ensures Abs(groups + [r]) == Abs(groups)[r.groupKey := EntryOf(r)]
  {
    assert (groups + [r])[..|groups|] == groups;
  }

  lemma AlertsOfAppend(alerts: seq<AlertRow>, r: AlertRow, h: Id)
    ensures AlertsOf(alerts + [r], h) == AlertsOf(alerts, h) + (if r.groupId == h then [r.columns] else [])
  {
    assert (alerts + [r])[..|alerts|] == alerts;
  }

  lemma {:induction false} DeletedAlerts(alerts: seq<AlertRow>, gid: Id, h: Id)
    ensures AlertsOf(DeleteAlerts(alerts, gid), h) == if h == gid then [] else AlertsOf(alerts, h)
  {
    if alerts != [] {
      var n := |alerts| - 1;
      DeletedAlerts(alerts[..n], gid, h);
      assert DeleteAlerts(alerts[..n], gid) + [] == DeleteAlerts(alerts[..n], gid);
      AlertsOfAppend(DeleteAlerts(alerts[..n], gid), alerts[n], h);
    }
  }

  lemma {:induction false} DeletedRows(alerts: seq<AlertRow>, gid: Id)
    requires DistinctAlertIds(alerts)
    ensures forall r | r in DeleteAlerts(alerts, gid) :: r in alerts
    ensures DistinctAlertIds(DeleteAlerts(alerts, gid))
  {
    if alerts != [] {
      var n := |alerts| - 1;
      DeletedRows(alerts[..n], gid);
      var kept := DeleteAlerts(alerts[..n], gid);
      forall i | 0 <= i < |kept| ensures kept[i].id != alerts[n].id {
        assert kept[i] in alerts[..n];
      }
    }
  }

  // ----- Save

  lemma UpsertKeepsGroups(groups: seq<GroupRow>, g: AlertGroup, now: Time, drawn: Id)
    requires GroupsInv(groups) && CanUpsert(groups, g, drawn)
    ensures GroupsInv(UpsertRow(groups, g, now, drawn).0)
  {
  }

  lemma UpsertRefines(groups: seq<GroupRow>, g: AlertGroup, now: Time, drawn: Id)
    requires DistinctKeys(groups)
    ensures Abs(UpsertRow(groups, g, now, drawn).0) == Upsert(Abs(groups), g, now)
  {
    var i := Find(groups, g.groupKey);
    if i < |groups| {
      AbsUpdate(groups, i, RowFor(groups[i].id, g, now));
    } else {
      AbsAppend(groups, RowFor(drawn, g, now));
    }
  }

  /** The row of the key, at its old place or at the end, and all other rows as they were. */
  lemma UpsertFrame(groups: seq<GroupRow>, g: AlertGroup, now: Time, drawn: Id)
    requires DistinctKeys(groups)
    ensures var (after, gid) := UpsertRow(groups, g, now, drawn);
            var k := Find(groups, g.groupKey);
            && k < |after| && after[k] == RowFor(gid, g, now)
            && |groups| <= |after| <= |groups| + 1 && (|after| > |groups| ==> k == |groups|)
            && (forall i | 0 <= i < |groups| && i != k :: after[i] == groups[i] && groups[i].groupKey != g.groupKey)
            && (k < |groups| ==> gid == groups[k].id)
  {
  }

  lemma UpsertKeepsIds(groups: seq<GroupRow>, g: AlertGroup, now: Time, drawn: Id, id: Id)
    requires HasGroupId(groups, id)
    ensures HasGroupId(UpsertRow(groups, g, now, drawn).0, id)
  {
    var i :| 0 <= i < |groups| && groups[i].id == id;
    assert UpsertRow(groups, g, now, drawn).0[i].id == id;
  }

  lemma DeleteKeepsAlertIds(db: Db, g: AlertGroup, now: Time, drawn: Id)
    requires AlertIdsInv(db)
    ensures AlertIdsInv(AfterDelete(db, g, now, drawn).0)
  {
    var (start, gid) := AfterDelete(db, g, now, drawn);
    DeletedRows(db.alerts, gid);
    forall i | 0 <= i < |start.alerts| ensures HasGroupId(start.groups, start.alerts[i].groupId) {
      assert start.alerts[i] in DeleteAlerts(db.alerts, gid);
      var j :| 0 <= j < |db.alerts| && db.alerts[j] == start.alerts[i];
      UpsertKeepsIds(db.groups, g, now, drawn, db.alerts[j].groupId);
    }
  }

  lemma InsertKeepsAlertIds(db: Db, drawn: Id, gid: Id, a: Alert)
    requires AlertIdsInv(db) && CanInsert(db, drawn, gid)
    ensures AlertIdsInv(InsertAlert(db, drawn, gid, a))
  {
  }

  /** After any number of inserts the ids are sound. */
  lemma {:induction false} InsertsKeepIds(db: Db, g: AlertGroup, now: Time, ids: seq<Id>, n: nat)
    requires AlertIdsInv(db) && |ids| == |g.alerts| + 1 && n <= |g.alerts| && Admissible(db, g, now, ids)
    ensures AlertIdsInv(AfterInserts(db, g, now, ids, n))
    ensures AfterInserts(db, g, now, ids, n).groups == UpsertRow(db.groups, g, now, ids[0]).0
    decreases n
  {
    if n == 0 {
      DeleteKeepsAlertIds(db, g, now, ids[0]);
    } else {
      InsertsKeepIds(db, g, now, ids, n - 1);
      var before := AfterInserts(db, g, now, ids, n - 1);
      assert InsertIsPossible(db, g, now, ids, n - 1);
      InsertKeepsAlertIds(before, ids[n], AfterDelete(db, g, now, ids[0]).1, g.alerts[n - 1]);
    }
  }

  lemma OneMoreInsert(db: Db, g: AlertGroup, now: Time, ids: seq<Id>, n: nat, h: Id)
    requires |ids| == |g.alerts| + 1 && 0 < n <= |g.alerts|
    ensures AlertsOf(AfterInserts(db, g, now, ids, n).alerts, h)
         == AlertsOf(AfterInserts(db, g, now, ids, n - 1).alerts, h)
            + (if h == AfterDelete(db, g, now, ids[0]).1 then [Columns(g.alerts[n - 1])] else [])
  {
    var before := AfterInserts(db, g, now, ids, n - 1);
    var row := AlertRow(ids[n], AfterDelete(db, g, now, ids[0]).1, Columns(g.alerts[n - 1]));
    assert AfterInserts(db, g, now, ids, n).alerts == before.alerts + [row];
    AlertsOfAppend(before.alerts, row, h);
  }

  /** Lists that start with nothing, or with `others`, and grow, or do not, by one element of `all` each time. */
  lemma {:induction false} GrowTo(lists: seq<seq<AlertColumns>>, all: seq<AlertColumns>, n: nat, more: bool,
                                  others: seq<AlertColumns>)
    requires n <= |all| && n < |lists| && lists[0] == (if more then [] else others)
    requires forall k | 0 < k <= n :: lists[k] == lists[k - 1] + (if more then [all[k - 1]] else [])
    ensures lists[n] == if more then all[..n] else others
    decreases n
  {
    if n > 0 {
      GrowTo(lists, all, n - 1, more, others);
      assert all[..n] == all[..n - 1] + [all[n - 1]];
      assert others + [] == others;
    }
  }

  lemma NoInsertYet(db: Db, g: AlertGroup, now: Time, ids: seq<Id>, h: Id)
    requires |ids| == |g.alerts| + 1
    ensures AlertsOf(AfterInserts(db, g, now, ids, 0).alerts, h)
         == if h == AfterDelete(db, g, now, ids[0]).1 then [] else AlertsOf(db.alerts, h)
  {
    var gid := AfterDelete(db, g, now, ids[0]).1;
    DeletedAlerts(db.alerts, gid, h);
    assert AfterInserts(db, g, now, ids, 0).alerts == DeleteAlerts(db.alerts, gid);
  }

  /** The alerts of group `h` after the first `n` inserts. */
  function AlertsAfter(db: Db, g: AlertGroup, now: Time, ids: seq<Id>, n: nat, h: Id): seq<AlertColumns>
    requires n <= |g.alerts| && |ids| == |g.alerts| + 1
  {
    AlertsOf(AfterInserts(db, g, now, ids, n).alerts, h)
  }

  /** The id that the upsert gives or keeps. */
  function SavedId(db: Db, g: AlertGroup, now: Time, drawn: Id): Id {
    AfterDelete(db, g, now, drawn).1
  }

  lemma AlertsGrow(db: Db, g: AlertGroup, now: Time, ids: seq<Id>, n: nat, h: Id)
    requires |ids| == |g.alerts| + 1 && 0 < n <= |g.alerts|
    ensures AlertsAfter(db, g, now, ids, n, h)
         == AlertsAfter(db, g, now, ids, n - 1, h)
            + (if h == SavedId(db, g, now, ids[0]) then [Project(g.alerts)[n - 1]] else [])
  {
    OneMoreInsert(db, g, now, ids, n, h);
  }

  /** What holds after the first `n` inserts: the saved group's alerts are the first `n` projections, the others' are as
      they were. */
  lemma InsertsProject(db: Db, g: AlertGroup, now: Time, ids: seq<Id>, n: nat, h: Id)
    requires |ids| == |g.alerts| + 1 && n <= |g.alerts|
    ensures AlertsAfter(db, g, now, ids, n, h)
         == if h == SavedId(db, g, now, ids[0]) then Project(g.alerts)[..n] else AlertsOf(db.alerts, h)
  {
    var lists := seq(n + 1, k requires 0 <= k <= n => AlertsAfter(db, g, now, ids, k, h));
    NoInsertYet(db, g, now, ids, h);
    forall k | 0 < k <= n
      ensures lists[k] == lists[k - 1] + (if h == SavedId(db, g, now, ids[0]) then [Project(g.alerts)[k - 1]] else [])
    {
      AlertsGrow(db, g, now, ids, k, h);
    }
    GrowTo(lists, Project(g.alerts), n, h == SavedId(db, g, now, ids[0]), AlertsOf(db.alerts, h));
  }

  /** The committed state of an admissible `Save`. */
  function Committed(db: Db, g: AlertGroup, now: Time, ids: seq<Id>): Db
    requires |ids| == |g.alerts| + 1
  {
    AfterInserts(db, g, now, ids, |g.alerts|)
  }

  lemma CommittedAlerts(db: Db, g: AlertGroup, now: Time, ids: seq<Id>, h: Id)
    requires |ids| == |g.alerts| + 1
    ensures AlertsOf(Committed(db, g, now, ids).alerts, h)
         == if h == AfterDelete(db, g, now, ids[0]).1 then Project(g.alerts) else AlertsOf(db.alerts, h)
  {
    InsertsProject(db, g, now, ids, |g.alerts|, h);
    assert Project(g.alerts)[..|g.alerts|] == Project(g.alerts);
  }

  // ----- the rows that a Save leaves, one by one

  /** The deletion keeps exactly the rows of other groups. */
  lemma {:induction false} DeletesExactly(alerts: seq<AlertRow>, gid: Id, r: AlertRow)
    ensures r in DeleteAlerts(alerts, gid) <==> r in alerts && r.groupId != gid
  {
    if alerts != [] {
      var n := |alerts| - 1;
      DeletesExactly(alerts[..n], gid, r);
      assert alerts == alerts[..n] + [alerts[n]];
    }
  }

  /** The row of the group: every column, and the payload. */
  predicate IsGroupRow(r: GroupRow, g: AlertGroup, now: Time) {
    && r.groupKey == g.groupKey
    && r.receiver == g.receiver
    && r.status == g.status
    && r.externalURL == g.externalURL
    && r.payload == g
    && r.receivedAt == now
    && r.notificationStatus == Pending
  }

  /** Statement `m` of the transaction would break a constraint. */
  ghost predicate Breaks(db: Db, g: AlertGroup, now: Time, ids: seq<Id>, m: nat)
    requires |ids| == |g.alerts| + 1
  {
    || (m == 1 && !CanUpsert(db.groups, g, ids[0]))
    || (4 <= m < |g.alerts| + 4 && !InsertIsPossible(db, g, now, ids, m - 4))
  }

  /** The transaction stops at statement `m`, and no earlier. */
  ghost predicate StopsAt(db: Db, g: AlertGroup, now: Time, ids: seq<Id>, failAt: nat, m: nat)
    requires |ids| == |g.alerts| + 1
  {
    m <= failAt && (m == failAt || Breaks(db, g, now, ids, m)) && forall l: nat | l < m :: !Breaks(db, g, now, ids, l)
  }

  /** One row for each of the first `n` alerts, in their order, behind the rows `kept`. */
  ghost predicate AddsAlertRows(alerts: seq<AlertRow>, kept: seq<AlertRow>, gid: Id, g: AlertGroup, ids: seq<Id>,
                                n: nat)
    requires n <= |g.alerts| < |ids|
  {
    && |alerts| == |kept| + n && kept <= alerts
    && forall m | |kept| <= m < |kept| + n :: IsAlertRow(alerts[m], ids[m - |kept| + 1], gid, g.alerts[m - |kept|])
  }

  predicate IsAlertRow(r: AlertRow, id: Id, gid: Id, a: Alert) {
    r.id == id && r.groupId == gid && Stores(r.columns, a)
  }

  lemma OneMoreRow(alerts: seq<AlertRow>, kept: seq<AlertRow>, gid: Id, g: AlertGroup, ids: seq<Id>, n: nat)
    requires 0 < n <= |g.alerts| < |ids| && AddsAlertRows(alerts, kept, gid, g, ids, n - 1)
    ensures AddsAlertRows(alerts + [AlertRow(ids[n], gid, Columns(g.alerts[n - 1]))], kept, gid, g, ids, n)
  {
    ColumnsStore(g.alerts[n - 1]);
  }

  lemma {:induction false} InsertsAddRows(db: Db, g: AlertGroup, now: Time, ids: seq<Id>, n: nat)
    requires |ids| == |g.alerts| + 1 && n <= |g.alerts|
    ensures var (start, gid) := AfterDelete(db, g, now, ids[0]);
            AddsAlertRows(AfterInserts(db, g, now, ids, n).alerts, start.alerts, gid, g, ids, n)
    decreases n
  {
    if n > 0 {
      InsertsAddRows(db, g, now, ids, n - 1);
      var (start, gid) := AfterDelete(db, g, now, ids[0]);
      OneMoreRow(AfterInserts(db, g, now, ids, n - 1).alerts, start.alerts, gid, g, ids, n);
    }
  }

  /** What a committed `Save` leaves, column by column: one row for the group under the id `gid`, which an existing row
      keeps; behind the rows of the other groups one row for each alert of the payload; and no other row of the
      group. */
  ghost predicate SavedAs(before: Db, after: Db, g: AlertGroup, now: Time, ids: seq<Id>, gid: Id)
    requires |ids| == |g.alerts| + 1
  {
    && (exists k | 0 <= k < |after.groups| :: after.groups[k].id == gid && IsGroupRow(after.groups[k], g, now))
    && (forall k | 0 <= k < |before.groups| && before.groups[k].groupKey == g.groupKey :: before.groups[k].id == gid)
    && |after.alerts| >= |g.alerts|
    && var kept := after.alerts[..|after.alerts| - |g.alerts|];
       && AddsAlertRows(after.alerts, kept, gid, g, ids, |g.alerts|)
       && forall r :: r in kept <==> r in before.alerts && r.groupId != gid
  }

  lemma GroupRowIsWritten(before: seq<GroupRow>, g: AlertGroup, now: Time, drawn: Id)
    requires DistinctKeys(before)
    ensures var (after, gid) := UpsertRow(before, g, now, drawn);
            && (exists k | 0 <= k < |after| :: after[k].id == gid && IsGroupRow(after[k], g, now))
            && (forall k | 0 <= k < |before| && before[k].groupKey == g.groupKey :: before[k].id == gid)
  {
    var (after, gid) := UpsertRow(before, g, now, drawn);
    UpsertFrame(before, g, now, drawn);
    var k := Find(before, g.groupKey);
    assert after[k].id == gid && IsGroupRow(after[k], g, now);
  }

  lemma OtherRowsAreKept(db: Db, g: AlertGroup, now: Time, ids: seq<Id>)
    requires |ids| == |g.alerts| + 1
    ensures var gid, after := AfterDelete(db, g, now, ids[0]).1, Committed(db, g, now, ids).alerts;
            && |after| >= |g.alerts|
            && var kept := after[..|after| - |g.alerts|];
               && AddsAlertRows(after, kept, gid, g, ids, |g.alerts|)
               && forall r :: r in kept <==> r in db.alerts && r.groupId != gid
  {
    var gid, after := AfterDelete(db, g, now, ids[0]).1, Committed(db, g, now, ids).alerts;
    InsertsAddRows(db, g, now, ids, |g.alerts|);
    var kept := DeleteAlerts(db.alerts, gid);
    assert after[..|after| - |g.alerts|] == kept;
    forall r ensures r in kept <==> r in db.alerts && r.groupId != gid {
      DeletesExactly(db.alerts, gid, r);
    }
  }

  lemma CommittedIsSaved(db: Db, g: AlertGroup, now: Time, ids: seq<Id>) returns (gid: Id)
    requires Inv(db) && |ids| == |g.alerts| + 1 && Admissible(db, g, now, ids)
    ensures SavedAs(db, Committed(db, g, now, ids), g, now, ids, gid)
  {
    gid := AfterDelete(db, g, now, ids[0]).1;
    InsertsKeepIds(db, g, now, ids, |g.alerts|);
    GroupRowIsWritten(db.groups, g, now, ids[0]);
    OtherRowsAreKept(db, g, now, ids);
  }

  /** If every alert of the payload has a name, so has every alert row of the group afterwards. */
  lemma SavedRowsAreNamed(before: Db, after: Db, g: AlertGroup, now: Time, ids: seq<Id>, gid: Id)
    requires |ids| == |g.alerts| + 1 && SavedAs(before, after, g, now, ids, gid) && AllNamed(g.alerts)
    ensures forall r | r in after.alerts && r.groupId == gid :: r.columns.alertname != ""
  {
    var n := |after.alerts| - |g.alerts|;
    forall m | 0 <= m < n ensures after.alerts[m].groupId != gid {
      assert after.alerts[..n][m] == after.alerts[m];
    }
    forall m | n <= m < |after.alerts| ensures after.alerts[m].columns.alertname != "" {
      assert Named(g.alerts[m - n]);
    }
  }

  lemma SaveKeepsProjection(db: Db, g: AlertGroup, now: Time, ids: seq<Id>)
    requires Inv(db) && |ids| == |g.alerts| + 1 && Admissible(db, g, now, ids)
    ensures ProjectionInv(Committed(db, g, now, ids))
  {
    var db' := Committed(db, g, now, ids);
    var k := Find(db.groups, g.groupKey);
    InsertsKeepIds(db, g, now, ids, |g.alerts|);
    UpsertFrame(db.groups, g, now, ids[0]);
    UpsertKeepsGroups(db.groups, g, now, ids[0]);
    forall i | 0 <= i < |db'.groups|
      ensures AlertsOf(db'.alerts, db'.groups[i].id) == Project(db'.groups[i].payload.alerts)
    {
      CommittedAlerts(db, g, now, ids, db'.groups[i].id);
      assert i != k ==> db'.groups[i].id != db'.groups[k].id;
    }
  }

  /** A committed `Save` keeps the invariant and is one update of the map: the key now holds the new payload, pending,
      received now. */
  lemma SaveRefinesUpsert(db: Db, g: AlertGroup, now: Time, ids: seq<Id>)
    requires Inv(db) && |ids| == |g.alerts| + 1 && Admissible(db, g, now, ids)
    ensures Inv(Committed(db, g, now, ids))
    ensures Abs(Committed(db, g, now, ids).groups) == Upsert(Abs(db.groups), g, now)
  {
    UpsertKeepsGroups(db.groups, g, now, ids[0]);
    UpsertRefines(db.groups, g, now, ids[0]);
    InsertsKeepIds(db, g, now, ids, |g.alerts|);
    SaveKeepsProjection(db, g, now, ids);
  }

  /** It keeps the id of an existing row, replaces that row's alerts by exactly those of the payload, and leaves every
      other group, with its alerts, alone. */
  lemma SaveTouchesOneGroup(db: Db, g: AlertGroup, now: Time, ids: seq<Id>)
    requires Inv(db) && |ids| == |g.alerts| + 1 && Admissible(db, g, now, ids)
    ensures var db' := Committed(db, g, now, ids);
            var k := Find(db.groups, g.groupKey);
            && |db.groups| <= |db'.groups|
            && k < |db'.groups| && db'.groups[k].groupKey == g.groupKey
            && StoresAll(AlertsOf(db'.alerts, db'.groups[k].id), g.alerts)
            && (k < |db.groups| ==> db'.groups[k].id == db.groups[k].id)
            && (forall i | 0 <= i < |db.groups| && i != k ::
                  && db'.groups[i] == db.groups[i]
                  && AlertsOf(db'.alerts, db.groups[i].id) == AlertsOf(db.alerts, db.groups[i].id))
  {
    var db' := Committed(db, g, now, ids);
    var k := Find(db.groups, g.groupKey);
    InsertsKeepIds(db, g, now, ids, |g.alerts|);
    UpsertFrame(db.groups, g, now, ids[0]);
    UpsertKeepsGroups(db.groups, g, now, ids[0]);
    CommittedAlerts(db, g, now, ids, db'.groups[k].id);
    ProjectStoresAll(g.alerts);
    forall i | 0 <= i < |db.groups| && i != k
      ensures AlertsOf(db'.alerts, db.groups[i].id) == AlertsOf(db.alerts, db.groups[i].id)
    {
      CommittedAlerts(db, g, now, ids, db.groups[i].id);
      assert db'.groups[i].id != db'.groups[k].id;
    }
  }

  predicate IsNewId(db: Db, id: Id) {
    !HasGroupId(db.groups, id) && !HasAlertId(db.alerts, id)
  }

  /** The alerts after `n` inserts use old ids and the first `n` drawn ones. */
  lemma {:induction false} InsertedIds(db: Db, g: AlertGroup, now: Time, ids: seq<Id>, n: nat)
    requires |ids| == |g.alerts| + 1 && n <= |g.alerts| && DistinctAlertIds(db.alerts)
    ensures var db' := AfterInserts(db, g, now, ids, n);
            && (forall r | r in db'.alerts :: r in db.alerts || r.id in ids[1..n + 1])
            && db'.groups == UpsertRow(db.groups, g, now, ids[0]).0
    decreases n
  {
    if n == 0 {
      DeletedRows(db.alerts, AfterDelete(db, g, now, ids[0]).1);
    } else {
      InsertedIds(db, g, now, ids, n - 1);
      assert ids[1..n + 1] == ids[1..n] + [ids[n]];
    }
  }

  /** Ids that are new and different from each other never break a constraint: only a collision, or an injected failure,
      can make a `Save` fail. */
  lemma NewIdsAreAdmissible(db: Db, g: AlertGroup, now: Time, ids: seq<Id>)
    requires Inv(db) && |ids| == |g.alerts| + 1
    requires Distinct(ids) && forall i | 0 <= i < |ids| :: IsNewId(db, ids[i])
    ensures Admissible(db, g, now, ids)
  {
    assert IsNewId(db, ids[0]);
    UpsertFrame(db.groups, g, now, ids[0]);
    forall n | 0 <= n < |g.alerts| ensures InsertIsPossible(db, g, now, ids, n) {
      InsertedIds(db, g, now, ids, n);
      var before := AfterInserts(db, g, now, ids, n);
      assert IsNewId(db, ids[n + 1]);
      forall i | 0 <= i < |before.alerts| ensures before.alerts[i].id != ids[n + 1] {
        assert before.alerts[i] in before.alerts;
      }
    }
  }

  // ----- MarkSent

  function MarkRow(groups: seq<GroupRow>, key: string): seq<GroupRow> {
    var i := Find(groups, key);
    if i < |groups| then groups[i := groups[i].(notificationStatus := Sent)] else groups
  }

  lemma MarkKeepsGroups(groups: seq<GroupRow>, key: string)
    requires GroupsInv(groups)
    ensures GroupsInv(MarkRow(groups, key)) && |MarkRow(groups, key)| == |groups|
    ensures forall i | 0 <= i < |groups| ::
              && MarkRow(groups, key)[i].id == groups[i].id
              && MarkRow(groups, key)[i].groupKey == groups[i].groupKey
              && MarkRow(groups, key)[i].payload == groups[i].payload
  {
    assert forall i | 0 <= i < |groups| :: ColumnsAgree(groups[i]);
  }

  lemma MarkKeepsInv(db: Db, key: string)
    requires Inv(db)
    ensures Inv(db.(groups := MarkRow(db.groups, key)))
  {
    var after := db.(groups := MarkRow(db.groups, key));
    MarkKeepsGroups(db.groups, key);
    forall j | 0 <= j < |db.alerts| ensures HasGroupId(after.groups, db.alerts[j].groupId) {
      assert HasGroupId(db.groups, db.alerts[j].groupId);
      var i :| 0 <= i < |db.groups| && db.groups[i].id == db.alerts[j].groupId;
      assert after.groups[i].id == db.alerts[j].groupId;
    }
  }

  /** `MarkSent` flips the status of the key's row and touches nothing else; it finds no row exactly for a missing
      key. */
  lemma MarkRefinesMark(groups: seq<GroupRow>, key: string)
    requires DistinctKeys(groups)
    ensures key in Abs(groups) <==> Find(groups, key) < |groups|
    ensures key in Abs(groups) ==> Abs(MarkRow(groups, key)) == Mark(Abs(groups), key)
    ensures key !in Abs(groups) ==> MarkRow(groups, key) == groups
  {
    AbsKeys(groups, key);
    var i := Find(groups, key);
    if i < |groups| {
      AbsUpdate(groups, i, groups[i].(notificationStatus := Sent));
      AbsLookup(groups, i);
    }
  }

  // ----- any sequence of operations

  /** One store call. `failAt` is the statement that fails, if it is reached: 0 begin, 1 upsert, 2 delete, 3 prepare,
      then one per alert, and last the commit. */
  datatype Op =
    | SaveOp(group: AlertGroup, now: Time, ids: seq<Id>, failAt: nat)
    | MarkOp(key: string, fails: bool)

  ghost predicate Succeeds(db: Db, op: Op) {
    match op
    case SaveOp(g, now, ids, failAt) =>
      |ids| == |g.alerts| + 1 && failAt > |g.alerts| + 4 && Admissible(db, g, now, ids)
    case MarkOp(key, fails) => !fails && Find(db.groups, key) < |db.groups|
  }

  /** A failed transaction leaves the database as it was. */
  ghost function Perform(db: Db, op: Op): Db {
    if !Succeeds(db, op) then db
    else match op
      case SaveOp(g, now, ids, _) => Committed(db, g, now, ids)
      case MarkOp(key, _) => db.(groups := MarkRow(db.groups, key))
  }

  ghost function PerformAll(db: Db, ops: seq<Op>): Db
    decreases |ops|
  {
    if ops == [] then db else PerformAll(Perform(db, ops[0]), ops[1..])
  }

  /** The same calls on the map, where `db` only decides which of them succeed. */
  ghost function SpecAll(t: Table, db: Db, ops: seq<Op>): Table
    decreases |ops|
  {
    if ops == [] then t
    else
      var op := ops[0];
      var t' := if !Succeeds(db, op) then t
                else match op
                  case SaveOp(g, now, _, _) => Upsert(t, g, now)
                  case MarkOp(key, _) => if key in t then Mark(t, key) else t;
      SpecAll(t', Perform(db, op), ops[1..])
  }

  /** Rows keep their places, keys and ids. */
  ghost predicate SameRows(before: seq<GroupRow>, after: seq<GroupRow>) {
    && |before| <= |after|
    && forall i | 0 <= i < |before| :: after[i].id == before[i].id && after[i].groupKey == before[i].groupKey
  }

  lemma SaveKeepsRows(db: Db, g: AlertGroup, now: Time, ids: seq<Id>)
    requires Inv(db) && |ids| == |g.alerts| + 1 && Admissible(db, g, now, ids)
    ensures SameRows(db.groups, Committed(db, g, now, ids).groups)
  {
    InsertsKeepIds(db, g, now, ids, |g.alerts|);
    UpsertFrame(db.groups, g, now, ids[0]);
  }

  lemma PerformKeepsInv(db: Db, op: Op)
    requires Inv(db)
    ensures Inv(Perform(db, op)) && SameRows(db.groups, Perform(db, op).groups)
  {
    if Succeeds(db, op) {
      match op
      case SaveOp(g, now, ids, _) =>
        SaveRefinesUpsert(db, g, now, ids);
        SaveKeepsRows(db, g, now, ids);
      case MarkOp(key, _) => MarkKeepsInv(db, key);
    }
  }

  /** Under any sequence of `Save` and `MarkSent`, with any of their statements failing, the two tables keep their
      invariant and refine the map; a row, once there, keeps its key and its id for ever. */
  lemma {:induction false} StoreRefinesMap(db: Db, ops: seq<Op>)
    requires Inv(db)
    ensures Inv(PerformAll(db, ops)) && AlertsFollowPayloads(PerformAll(db, ops))
    ensures Abs(PerformAll(db, ops).groups) == SpecAll(Abs(db.groups), db, ops)
    ensures SameRows(db.groups, PerformAll(db, ops).groups)
    decreases |ops|
  {
    if ops != [] {
      var op := ops[0];
      PerformKeepsInv(db, op);
      if Succeeds(db, op) {
        match op
        case SaveOp(g, now, ids, _) => SaveRefinesUpsert(db, g, now, ids);
        case MarkOp(key, _) => MarkRefinesMark(db.groups, key);
      }
      StoreRefinesMap(Perform(db, op), ops[1..]);
    } else {
      ProjectionFollows(db);
    }
  }

  function KeysOf(rows: seq<GroupRow>): seq<string> {
    seq(|rows|, i requires 0 <= i < |rows| => rows[i].groupKey)
  }

  function PayloadKeys(found: seq<AlertGroup>): seq<string> {
    seq(|found|, i requires 0 <= i < |found| => found[i].groupKey)
  }

  // ----- GetPending

  function PendingRows(groups: seq<GroupRow>): set<GroupRow> {
    set r | r in groups && r.notificationStatus == Pending
  }

  lemma {:induction false} OldestRowExists(rows: set<GroupRow>)
    requires rows != {}
    ensures exists r :: r in rows && forall q | q in rows :: r.receivedAt <= q.receivedAt
  {
    var r :| r in rows;
    if rows != {r} {
      OldestRowExists(rows - {r});
      var o :| o in rows - {r} && forall q | q in rows - {r} :: o.receivedAt <= q.receivedAt;
      var oldest := if r.receivedAt < o.receivedAt then r else o;
      assert forall q | q in rows :: oldest.receivedAt <= q.receivedAt;
    }
  }

  /** The row behind a pending key. */
  lemma RowOf(groups: seq<GroupRow>, k: string) returns (r: GroupRow)
    requires DistinctKeys(groups) && k in PendingKeys(Abs(groups))
    ensures r in PendingRows(groups) && r.groupKey == k && Abs(groups)[k] == EntryOf(r)
  {
    AbsKeys(groups, k);
    var i :| 0 <= i < |groups| && groups[i].groupKey == k;
    AbsLookup(groups, i);
    r := groups[i];
  }

  lemma KeyOfRow(groups: seq<GroupRow>, r: GroupRow)
    requires DistinctKeys(groups) && r in PendingRows(groups)
    ensures r.groupKey in PendingKeys(Abs(groups)) && Abs(groups)[r.groupKey] == EntryOf(r)
  {
    var i :| 0 <= i < |groups| && groups[i] == r;
    AbsLookup(groups, i);
  }

  /** What is left is what the answer so far does not name. */
  ghost predicate LeftOver(groups: seq<GroupRow>, rows: seq<GroupRow>, left: set<GroupRow>) {
    && left <= PendingRows(groups)
    && forall r | r in PendingRows(groups) :: r in left <==> r.groupKey !in KeysOf(rows)
  }

  lemma TakeOldest(groups: seq<GroupRow>, rows: seq<GroupRow>, left: set<GroupRow>, r: GroupRow)
    requires DistinctKeys(groups) && LeftOver(groups, rows, left)
    requires PendingAnswer(Abs(groups), |rows|, KeysOf(rows))
    requires r in left && forall q | q in left :: r.receivedAt <= q.receivedAt
    ensures PendingAnswer(Abs(groups), |rows + [r]|, KeysOf(rows + [r]))
    ensures LeftOver(groups, rows + [r], left - {r})
  {
    var t, keys := Abs(groups), KeysOf(rows);
    KeyOfRow(groups, r);
    forall j | j in PendingKeys(t) - KeySet(keys) ensures t[r.groupKey].receivedAt <= t[j].receivedAt {
      var q := RowOf(groups, j);
    }
    ExtendAnswer(t, |rows|, keys, r.groupKey);
    assert KeysOf(rows + [r]) == keys + [r.groupKey];
    forall q | q in PendingRows(groups) ensures q.groupKey == r.groupKey <==> q == r {
      if q.groupKey == r.groupKey {
        SameKeySameRow(groups, q, r);
      }
    }
  }

  lemma SameKeySameRow(groups: seq<GroupRow>, q: GroupRow, r: GroupRow)
    requires DistinctKeys(groups) && q in groups && r in groups && q.groupKey == r.groupKey
    ensures q == r
  {
  }

  lemma NothingLeft(groups: seq<GroupRow>, rows: seq<GroupRow>, limit: nat)
    requires DistinctKeys(groups) && |rows| <= limit && LeftOver(groups, rows, {})
    requires PendingAnswer(Abs(groups), |rows|, KeysOf(rows))
    ensures PendingAnswer(Abs(groups), limit, KeysOf(rows))
  {
    var t, keys := Abs(groups), KeysOf(rows);
    forall k | k in PendingKeys(t) ensures k in keys {
      var r := RowOf(groups, k);
    }
    CountLeft(t, keys);
    assert PendingKeys(t) - KeySet(keys) == {};
  }

  /** Oldest first, and nothing left over is older than what was taken. */
  ghost predicate OldestFirst(rows: seq<GroupRow>, left: set<GroupRow>) {
    && (forall i, j | 0 <= i < j < |rows| :: rows[i].receivedAt <= rows[j].receivedAt)
    && forall i, q | 0 <= i < |rows| && q in left :: rows[i].receivedAt <= q.receivedAt
  }

  /** The rows taken so far, and those left over. */
  ghost predicate Taken(groups: seq<GroupRow>, rows: seq<GroupRow>, left: set<GroupRow>) {
    && (forall i | 0 <= i < |rows| :: rows[i] in PendingRows(groups))
    && LeftOver(groups, rows, left) && OldestFirst(rows, left)
    && PendingAnswer(Abs(groups), |rows|, KeysOf(rows))
  }

  lemma NothingTaken(groups: seq<GroupRow>)
    ensures Taken(groups, [], PendingRows(groups))
  {
  }

  lemma TakeOneRow(groups: seq<GroupRow>, rows: seq<GroupRow>, left: set<GroupRow>, r: GroupRow)
    requires DistinctKeys(groups) && Taken(groups, rows, left)
    requires r in left && forall q | q in left :: r.receivedAt <= q.receivedAt
    ensures Taken(groups, rows + [r], left - {r})
  {
    TakeOldest(groups, rows, left, r);
    assert OldestFirst(rows + [r], left - {r});
  }

  /** What the query returns, row by row: pending rows of the table, oldest first, no more than the limit; a pending row
      is left out only if the limit is reached, and then nothing returned is younger. */
  ghost predicate IsAnswer(groups: seq<GroupRow>, limit: nat, rows: seq<GroupRow>) {
    && Distinct(rows) && |rows| <= limit
    && (forall i | 0 <= i < |rows| :: rows[i] in groups && rows[i].notificationStatus == Pending)
    && (forall i, j | 0 <= i < j < |rows| :: rows[i].receivedAt <= rows[j].receivedAt)
    && forall q | q in groups && q.notificationStatus == Pending && q !in rows ::
         |rows| == limit && forall i | 0 <= i < |rows| :: rows[i].receivedAt <= q.receivedAt
  }

  lemma TakenIsAnswer(groups: seq<GroupRow>, rows: seq<GroupRow>, left: set<GroupRow>, limit: nat)
    requires DistinctKeys(groups) && Taken(groups, rows, left) && |rows| <= limit && (|rows| == limit || left == {})
    ensures IsAnswer(groups, limit, rows)
  {
    forall i, j | 0 <= i < j < |rows| ensures rows[i] != rows[j] {
      assert KeysOf(rows)[i] != KeysOf(rows)[j];
    }
    forall q | q in PendingRows(groups) ensures q in left || q in rows {
      if q.groupKey in KeysOf(rows) {
        TakenByKey(groups, rows, q);
      }
    }
  }

  lemma TakenByKey(groups: seq<GroupRow>, rows: seq<GroupRow>, q: GroupRow)
    requires DistinctKeys(groups) && q in groups && q.groupKey in KeysOf(rows)
    requires forall i | 0 <= i < |rows| :: rows[i] in PendingRows(groups)
    ensures q in rows
  {
    var i :| 0 <= i < |rows| && KeysOf(rows)[i] == q.groupKey;
    SameKeySameRow(groups, q, rows[i]);
  }

  lemma TakenAnswersQuery(groups: seq<GroupRow>, rows: seq<GroupRow>, left: set<GroupRow>, limit: nat)
    requires DistinctKeys(groups) && Taken(groups, rows, left) && |rows| <= limit && (|rows| == limit || left == {})
    ensures PendingAnswer(Abs(groups), limit, KeysOf(rows))
  {
    if left == {} {
      NothingLeft(groups, rows, limit);
    }
  }
}
