/** The store as its users see it: a map from group key to (group, status, time of receipt)
    (internal/alerts/store.go, internal/notify/store.go). */
module StoreSpec {
  import opened Alerts
  import opened Basics

  datatype Status = Pending | Sent

  datatype Entry = Entry(group: AlertGroup, status: Status, receivedAt: Time)

  type Table = map<string, Entry>

  predicate KeysAgree(t: Table) {
    forall k | k in t :: t[k].group.groupKey == k
  }

  function Upsert(t: Table, g: AlertGroup, now: Time): Table {
    t[g.groupKey := Entry(g, Pending, now)]
  }

  function Mark(t: Table, key: string): Table
    requires key in t
  {
    t[key := t[key].(status := Sent)]
  }

  function PendingKeys(t: Table): set<string> {
    set k | k in t && t[k].status == Pending
  }

  /** What `SELECT … WHERE pending ORDER BY received_at LIMIT ?` may return: as many pending keys as the limit allows,
      oldest first and none younger than one left behind. Ties may be broken in any way. */
  ghost predicate PendingAnswer(t: Table, limit: nat, keys: seq<string>) {
    && Distinct(keys)
    && (forall i | 0 <= i < |keys| :: keys[i] in PendingKeys(t))
    && |keys| == Min(limit, |PendingKeys(t)|)
    && (forall i, j | 0 <= i < j < |keys| :: t[keys[i]].receivedAt <= t[keys[j]].receivedAt)
    && (forall i, k | 0 <= i < |keys| && k in PendingKeys(t) && k !in keys ::
          t[keys[i]].receivedAt <= t[k].receivedAt)
  }

  function KeySet(keys: seq<string>): set<string> {
    set k | k in keys
  }

  lemma {:induction false} DistinctCount(keys: seq<string>)
    requires Distinct(keys)
    ensures |KeySet(keys)| == |keys|
  {
    if keys != [] {
      var n := |keys| - 1;
      DistinctCount(keys[..n]);
      assert KeySet(keys) == KeySet(keys[..n]) + {keys[n]};
    }
  }

  /** Some pending key is at least as old as every other one. */
  lemma {:induction false} OldestExists(t: Table, among: set<string>) returns (k: string)
    requires among != {} && among <= PendingKeys(t)
    ensures k in among && forall j | j in among :: t[k].receivedAt <= t[j].receivedAt
  {
    k :| k in among;
    if among != {k} {
      var j := OldestExists(t, among - {k});
      if t[j].receivedAt < t[k].receivedAt {
        k := j;
      }
    }
  }

  lemma CountLeft(t: Table, keys: seq<string>)
    requires Distinct(keys) && forall i | 0 <= i < |keys| :: keys[i] in PendingKeys(t)
    ensures |PendingKeys(t) - KeySet(keys)| == |PendingKeys(t)| - |keys|
  {
    DistinctCount(keys);
    assert KeySet(keys) + (PendingKeys(t) - KeySet(keys)) == PendingKeys(t);
  }

  lemma ExtendAnswer(t: Table, limit: nat, keys: seq<string>, k: string)
    requires PendingAnswer(t, limit, keys)
    requires k in PendingKeys(t) - KeySet(keys)
    requires forall j | j in PendingKeys(t) - KeySet(keys) :: t[k].receivedAt <= t[j].receivedAt
    ensures PendingAnswer(t, limit + 1, keys + [k])
  {
    CountLeft(t, keys);
  }

  /** Any answer for a smaller limit goes on to one for a larger. */
  lemma {:induction false} ExtendTo(t: Table, from: nat, start: seq<string>, limit: nat) returns (keys: seq<string>)
    requires from <= limit && PendingAnswer(t, from, start)
    ensures PendingAnswer(t, limit, keys) && start <= keys
    decreases limit - from
  {
    keys := start;
    if from < limit {
      CountLeft(t, keys);
      var left := PendingKeys(t) - KeySet(keys);
      if left != {} {
        var k := OldestExists(t, left);
        ExtendAnswer(t, from, keys, k);
        keys := ExtendTo(t, from + 1, keys + [k], limit);
      }
    }
  }

  /** The query always has an answer, so the specification above asks for nothing impossible. */
  lemma AnswerExists(t: Table, limit: nat) returns (keys: seq<string>)
    ensures PendingAnswer(t, limit, keys)
  {
    keys := ExtendTo(t, 0, [], limit);
  }

  /** The pending groups that were received strictly before `k`. */
  function Older(t: Table, k: string): set<string>
    requires k in t
  {
    set j | j in PendingKeys(t) && t[j].receivedAt < t[k].receivedAt
  }

  /** An answer that names a group names every strictly older one. */
  lemma AnswerHoldsOlder(t: Table, limit: nat, keys: seq<string>, x: string)
    requires PendingAnswer(t, limit, keys) && x in keys
    ensures x in PendingKeys(t) && Older(t, x) <= KeySet(keys)
  {
    var i :| 0 <= i < |keys| && keys[i] == x;
    forall j | j in Older(t, x) ensures j in keys {
      assert t[j].receivedAt < t[keys[i]].receivedAt;
    }
  }

  /** So a group with `limit` strictly older ones is in no answer. */
  lemma AnsweredHasFewOlder(t: Table, limit: nat, keys: seq<string>, k: string)
    requires PendingAnswer(t, limit, keys) && k in keys
    ensures k in PendingKeys(t) && |Older(t, k)| < limit
  {
    AnswerHoldsOlder(t, limit, keys, k);
    SubsetSize(Older(t, k) + {k}, KeySet(keys));
    DistinctCount(keys);
  }

  /** The oldest `|Older(t, k)|` groups are those. */
  lemma OldestAreOlder(t: Table, keys: seq<string>, k: string)
    requires k in PendingKeys(t) && PendingAnswer(t, |Older(t, k)|, keys)
    ensures KeySet(keys) == Older(t, k)
  {
    var older := Older(t, k);
    SubsetSize(older, PendingKeys(t));
    DistinctCount(keys);
    forall x | x in keys ensures x in older {
      AnswerHoldsOlder(t, |older|, keys, x);
      if x !in older {
        assert older <= Older(t, x);
        SubsetSize(older + {x}, KeySet(keys));
      }
    }
    SubsetOfSameSize(KeySet(keys), older);
  }

  /** A pending group can be in the answer if and only if fewer than `limit` pending groups are strictly older. */
  lemma AnsweredExactly(t: Table, limit: nat, k: string)
    requires k in PendingKeys(t)
    ensures (exists keys :: PendingAnswer(t, limit, keys) && k in keys) <==> |Older(t, k)| < limit
  {
    if keys :| PendingAnswer(t, limit, keys) && k in keys {
      AnsweredHasFewOlder(t, limit, keys, k);
    }
    if |Older(t, k)| < limit {
      var first := AnswerExists(t, |Older(t, k)|);
      OldestAreOlder(t, first, k);
      ExtendAnswer(t, |Older(t, k)|, first, k);
      var keys := ExtendTo(t, |Older(t, k)| + 1, first + [k], limit);
      assert k in first + [k];
      assert keys[|first|] == k;
    }
  }

  /** The other pending groups that were not received after `k`. */
  function Rivals(t: Table, k: string): set<string>
    requires k in t
  {
    set j | j in PendingKeys(t) && j != k && t[j].receivedAt <= t[k].receivedAt
  }

  /** An answer without `k` is full of its rivals. */
  lemma LeavingOutTakesRivals(t: Table, limit: nat, keys: seq<string>, k: string)
    requires k in PendingKeys(t) && PendingAnswer(t, limit, keys) && k !in keys
    ensures |Rivals(t, k)| >= limit
  {
    forall x | x in keys ensures x in Rivals(t, k) {
      var i :| 0 <= i < |keys| && keys[i] == x;
      assert t[keys[i]].receivedAt <= t[k].receivedAt;
    }
    DistinctCount(keys);
    SubsetSize(KeySet(keys), Rivals(t, k));
    CountLeft(t, keys);
    assert k in PendingKeys(t) - KeySet(keys);
  }

  /** With enough rivals there is an answer without `k`: ties may go against it. */
  lemma RivalsCanFillAnswer(t: Table, limit: nat, k: string) returns (keys: seq<string>)
    requires k in PendingKeys(t) && |Rivals(t, k)| >= limit
    ensures PendingAnswer(t, limit, keys) && k !in keys
  {
    var without := Mark(t, k);
    MarkPending(t, k);
    keys := AnswerExists(without, limit);
    SubsetSize(Rivals(t, k), PendingKeys(without));
    SubsetSize(PendingKeys(without), PendingKeys(t));
    DistinctCount(keys);
    forall i | 0 <= i < |keys| ensures t[keys[i]].receivedAt <= t[k].receivedAt {
      if keys[i] !in Rivals(t, k) {
        SomeRivalIsLeft(t, keys, k, keys[i]);
      }
      NotAfterALeftRival(t, limit, keys, k, i);
    }
  }

  lemma NotAfterALeftRival(t: Table, limit: nat, keys: seq<string>, k: string, i: nat)
    requires k in t && PendingAnswer(Mark(t, k), limit, keys) && i < |keys|
    ensures keys[i] in t
    ensures (exists r :: r in Rivals(t, k) && r !in keys) ==> t[keys[i]].receivedAt <= t[k].receivedAt
  {
    forall r | r in Rivals(t, k) && r !in keys ensures t[keys[i]].receivedAt <= t[k].receivedAt {
      assert r in PendingKeys(Mark(t, k));
      assert Mark(t, k)[keys[i]].receivedAt <= Mark(t, k)[r].receivedAt;
    }
  }

  lemma SomeRivalIsLeft(t: Table, keys: seq<string>, k: string, x: string)
    requires k in t && Distinct(keys) && |Rivals(t, k)| >= |keys|
    requires x in keys && x !in Rivals(t, k)
    ensures exists r :: r in Rivals(t, k) && r !in keys
  {
    DistinctCount(keys);
    if forall r | r in Rivals(t, k) :: r in keys {
      SubsetSize(Rivals(t, k) + {x}, KeySet(keys));
    }
  }

  /** A pending group is in every answer if and only if fewer than `limit` other pending groups are as old or older. */
  lemma AlwaysAnsweredExactly(t: Table, limit: nat, k: string)
    requires k in PendingKeys(t)
    ensures (forall keys | PendingAnswer(t, limit, keys) :: k in keys) <==> |Rivals(t, k)| < limit
  {
    if |Rivals(t, k)| >= limit {
      var keys := RivalsCanFillAnswer(t, limit, k);
    }
    forall keys | PendingAnswer(t, limit, keys) && k !in keys ensures |Rivals(t, k)| >= limit {
      LeavingOutTakesRivals(t, limit, keys, k);
    }
  }

  lemma MarkPending(t: Table, key: string)
    requires key in t
    ensures PendingKeys(Mark(t, key)) == PendingKeys(t) - {key}
  {
  }
}
