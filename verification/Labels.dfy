/** Label order in the two formatters (internal/channel/pachca/formatter.go, internal/channel/email/formatter.go). */
module Labels {
  import opened Basics
  import opened Ordering
  import opened Text

  type LabelSet = map<string, string>

  datatype LabelPair = LabelPair(key: string, value: string)

  const FILTERED_LABELS: set<string> := {"alertname", "severity"}

  const PRIORITY_LABELS: seq<string> := [
    "namespace", "exported_namespace", "pod", "exported_pod", "container", "exported_container",
    "deployment", "statefulset", "daemonset", "replicaset"
  ]

  function KeyOf(p: LabelPair): string {
    p.key
  }

  function Itself(s: string): string {
    s
  }

  /** The keys that are shown at all. */
  function Shown(labels: LabelSet, filtered: set<string>): set<string> {
    labels.Keys - filtered
  }

  // ----- the order of display

  /** `a` stands before `b` in the priority list. */
  ghost predicate RanksBefore(priority: seq<string>, a: string, b: string) {
    exists i, j :: 0 <= i < j < |priority| && priority[i] == a && priority[j] == b
  }

  /** The display order: priority labels by their place in the list, then the others alphabetically. */
  ghost predicate DisplaysBefore(priority: seq<string>, a: string, b: string) {
    if a in priority then b in priority ==> RanksBefore(priority, a, b)
    else b !in priority && Less(a, b)
  }

  ghost function DisplayOrder(priority: seq<string>): (string, string) -> bool {
    (a, b) => DisplaysBefore(priority, a, b)
  }

  /** `order` lists exactly the keys in `keys`, each once, in display order. */
  ghost predicate IsLayout(order: seq<string>, keys: set<string>, priority: seq<string>) {
    Elements(order) == keys && Arranged(order, DisplayOrder(priority))
  }

  lemma DisplayOrderIsAsymmetric(priority: seq<string>)
    requires Distinct(priority)
    ensures Asymmetric(DisplayOrder(priority))
  {
    forall a, b | DisplaysBefore(priority, a, b) ensures !DisplaysBefore(priority, b, a) {
      LessIsAsymmetric(a, b);
    }
  }

  /** A set of keys has one layout: what is printed does not depend on the order in which a map is walked. */
  lemma LayoutIsUnique(s: seq<string>, t: seq<string>, keys: set<string>, priority: seq<string>)
    requires Distinct(priority) && IsLayout(s, keys, priority) && IsLayout(t, keys, priority)
    ensures s == t && Distinct(s)
  {
    DisplayOrderIsAsymmetric(priority);
    ArrangementIsUnique(s, t, DisplayOrder(priority));
  }

  // ----- the text

  function BoldLine(key: string, value: string): string {
    "**" + key + ":** " + value + "\n"
  }

  function PlainLine(key: string, value: string): string {
    key + ": " + value + "\n"
  }

  /** What a reader takes from a line: the key up to the first colon, the value behind the mark-up. */
  function ReadPlain(line: string): (string, string) {
    var i := IndexOf(line, ':');
    if i + 3 > |line| then ("", "") else (line[..i], line[i + 2..|line| - 1])
  }

  function ReadBold(line: string): (string, string) {
    var i := IndexOf(line, ':');
    if i < 2 || i + 5 > |line| then ("", "") else (line[2..i], line[i + 4..|line| - 1])
  }

  lemma PlainReadsBack(key: string, value: string)
    requires ':' !in key
    ensures ReadPlain(PlainLine(key, value)) == (key, value)
  {
    var line := PlainLine(key, value);
    assert line == key + [':'] + (" " + value + "\n");
    IndexOfFirst(key, ':', " " + value + "\n");
    assert line[..|key|] == key && line[|key| + 2..|line| - 1] == value;
  }

  lemma BoldReadsBack(key: string, value: string)
    requires ':' !in key
    ensures ReadBold(BoldLine(key, value)) == (key, value) && BoldLine(key, value)[..2] == "**"
  {
    var line := BoldLine(key, value);
    assert line == ("**" + key) + [':'] + ("** " + value + "\n");
    IndexOfFirst("**" + key, ':', "** " + value + "\n");
    assert line[2..2 + |key|] == key && line[|key| + 6..|line| - 1] == value;
  }

  /** A key without a colon and its value can be read back from either line. */
  lemma LinesReadBack(key: string, value: string)
    requires ':' !in key
    ensures ReadPlain(PlainLine(key, value)) == (key, value)
    ensures ReadBold(BoldLine(key, value)) == (key, value)
    ensures BoldLine(key, value)[..2] == "**"
  {
    PlainReadsBack(key, value);
    BoldReadsBack(key, value);
  }

  function LabelLine(key: string, labels: LabelSet, priority: seq<string>): string
    requires key in labels
  {
    if key in priority then BoldLine(key, labels[key]) else PlainLine(key, labels[key])
  }

  function LabelLines(order: seq<string>, labels: LabelSet, priority: seq<string>): string
    requires forall k | k in order :: k in labels
  {
    if order == [] then ""
    else
      var n := |order| - 1;
      LabelLines(order[..n], labels, priority) + LabelLine(order[n], labels, priority)
  }

  /** The priority labels among `keys`, in list order. */
  function Present(priority: seq<string>, keys: set<string>): (r: seq<string>)
    ensures forall k :: k in r <==> k in priority && k in keys
  {
    if priority == [] then []
    else
      var n := |priority| - 1;
      Present(priority[..n], keys) + if priority[n] in keys then [priority[n]] else []
  }

  lemma PresentGrows(list: seq<string>, k: string, keys: set<string>)
    ensures Present(list + [k], keys) == Present(list, keys) + if k in keys then [k] else []
  {
    assert (list + [k])[..|list|] == list;
  }

  lemma {:induction false} PresentIsArranged(list: seq<string>, keys: set<string>, priority: seq<string>)
    requires Distinct(priority) && list <= priority
    ensures Arranged(Present(list, keys), DisplayOrder(priority))
  {
    if list != [] {
      var n := |list| - 1;
      PresentIsArranged(list[..n], keys, priority);
      var front := Present(list[..n], keys);
      forall i | 0 <= i < |front| ensures DisplaysBefore(priority, front[i], list[n]) {
        assert front[i] in list[..n];
        var k :| 0 <= k < n && list[k] == front[i];
        assert priority[k] == front[i] && priority[n] == list[n];
      }
    }
  }

  /** Priority labels in list order followed by the others in alphabetical order are the layout. */
  lemma LayoutOf(keys: set<string>, priority: seq<string>, rest: seq<string>)
    requires Distinct(priority)
    requires Ascending(rest, Itself) && Elements(rest) == keys - Elements(priority)
    ensures IsLayout(Present(priority, keys) + rest, keys, priority)
  {
    var front := Present(priority, keys);
    PresentIsArranged(priority, keys, priority);
    forall k | k in rest ensures k in keys && k !in priority {
      assert k in Elements(rest);
    }
    forall k | k in keys ensures k in front + rest {
      if k !in priority {
        assert k in Elements(rest);
      }
    }
    assert Elements(front + rest) == keys;
  }

  lemma LinesGrow(order: seq<string>, k: string, labels: LabelSet, priority: seq<string>)
    requires k in labels && forall x | x in order :: x in labels
    ensures LabelLines(order + [k], labels, priority)
            == LabelLines(order, labels, priority) + LabelLine(k, labels, priority)
  {
    assert (order + [k])[..|order|] == order;
  }

  /** Writing one more line. */
  lemma WriteLine(b: string, r: string, order: seq<string>, k: string, labels: LabelSet, priority: seq<string>)
    requires k in labels && forall x | x in order :: x in labels
    requires r == b + LabelLines(order, labels, priority)
    ensures b + LabelLines(order + [k], labels, priority) == r + LabelLine(k, labels, priority)
  {
    LinesGrow(order, k, labels, priority);
    Associative(b, LabelLines(order, labels, priority), LabelLine(k, labels, priority));
  }

  lemma SameElements<T>(s: seq<T>, t: seq<T>)
    requires multiset(s) == multiset(t)
    ensures Elements(s) == Elements(t)
  {
    assert forall x | x in s :: x in multiset(t);
    assert forall x | x in t :: x in multiset(s);
  }

  lemma ElementsGrow(s: seq<string>, k: string)
    ensures Elements(s + [k]) == Elements(s) + {k}
  {
  }

  /** The keys to show, collected whatever order the map is walked in. */
  method CollectKeys(labels: LabelSet, filtered: set<string>) returns (keys: set<string>)
    ensures keys == Shown(labels, filtered)
  {
    keys := {};
    var todo := labels.Keys;
    while todo != {}
      invariant todo <= labels.Keys && keys == Shown(labels, filtered) - todo
      decreases todo
    {
      var k :| k in todo;
      todo := todo - {k};
      if k !in filtered {
        keys := keys + {k};
      }
    }
  }

  /** What one turn of the loop over the priority labels has to do. */
  lemma PriorityStep(priority: seq<string>, n: nat, shown: set<string>)
    requires Distinct(priority) && n < |priority|
    ensures var k, gone := priority[n], Elements(priority[..n]);
            && k !in gone
            && shown - Elements(priority[..n + 1]) == shown - gone - {k}
            && Present(priority[..n + 1], shown) == Present(priority[..n], shown) + if k in shown then [k] else []
  {
    assert priority[..n + 1] == priority[..n] + [priority[n]];
    ElementsGrow(priority[..n], priority[n]);
    PresentGrows(priority[..n], priority[n], shown);
  }

  lemma WriteBold(b: string, r: string, order: seq<string>, k: string, labels: LabelSet, priority: seq<string>)
    requires k in labels && k in priority && forall x | x in order :: x in labels
    requires r == b + LabelLines(order, labels, priority)
    ensures r + BoldLine(k, labels[k]) == b + LabelLines(order + [k], labels, priority)
  {
    WriteLine(b, r, order, k, labels, priority);
  }

  /** Priority labels first, in list order; what is left over is returned. */
  method WritePriority(b: string, shown: set<string>, labels: LabelSet, priority: seq<string>)
    returns (r: string, keys: set<string>)
    requires Distinct(priority) && shown <= labels.Keys
    ensures keys == shown - Elements(priority)
    ensures r == b + LabelLines(Present(priority, shown), labels, priority)
  {
    r, keys := b, shown;
    ghost var order := [];
    for n := 0 to |priority|
      invariant keys == shown - Elements(priority[..n])
      invariant order == Present(priority[..n], shown)
      invariant forall x | x in order :: x in labels
      invariant r == b + LabelLines(order, labels, priority)
    {
      var k := priority[n];
      PriorityStep(priority, n, shown);
      if k in keys {
        WriteBold(b, r, order, k, labels, priority);
        r := r + BoldLine(k, labels[k]);
        keys := keys - {k};
        order := order + [k];
      }
    }
    assert priority[..|priority|] == priority;
  }

  /** Collecting the keys of a map in whatever order, then sorting. */
  method SortedKeys(keys: set<string>) returns (remaining: seq<string>)
    ensures Elements(remaining) == keys && Ascending(remaining, Itself)
  {
    remaining := [];
    var todo := keys;
    while todo != {}
      invariant todo <= keys && Elements(remaining) == keys - todo && DistinctBy(remaining, Itself)
      decreases todo
    {
      var k :| k in todo;
      assert k !in Elements(remaining);
      ElementsGrow(remaining, k);
      todo := todo - {k};
      remaining := remaining + [k];
    }
    SortByCorrect(remaining, Itself);
    SameElements(SortBy(remaining, Itself), remaining);
    remaining := SortBy(remaining, Itself);
  }

  lemma TakeOneMore<T>(front: seq<T>, s: seq<T>, n: nat)
    requires n < |s|
    ensures front + s[..n] + [s[n]] == front + s[..n + 1]
  {
  }

  /** Remaining labels, one plain line each, after the lines of `front`. */
  method WriteRemaining(b: string, written: string, ghost front: seq<string>, remaining: seq<string>, labels: LabelSet,
                        priority: seq<string>)
    returns (r: string)
    requires forall k | k in front :: k in labels
    requires forall k | k in remaining :: k in labels && k !in priority
    requires written == b + LabelLines(front, labels, priority)
    ensures r == b + LabelLines(front + remaining, labels, priority)
  {
    r := written;
    ghost var order := front;
    assert front + remaining[..0] == front;
    for n := 0 to |remaining|
      invariant order == front + remaining[..n]
      invariant forall x | x in order :: x in labels
      invariant r == b + LabelLines(order, labels, priority)
    {
      var k := remaining[n];
      WriteLine(b, r, order, k, labels, priority);
      TakeOneMore(front, remaining, n);
      r := r + PlainLine(k, labels[k]);
      order := order + [k];
    }
    assert remaining[..|remaining|] == remaining;
  }

  /** `r` is `b` followed by the header and one line for each key of the layout, bold exactly for priority labels;
      nothing is added when there is no key to show. */
  ghost predicate AddsLabels(b: string, r: string, order: seq<string>, labels: LabelSet, priority: seq<string>) {
    && (forall k | k in order :: k in labels)
    && r == if order == [] then b else b + "\nLabels:\n" + LabelLines(order, labels, priority)
  }

  /** `writeLabels`; `filtered` and `priority` are the package's variables. */
  method WriteLabels(b: string, labels: LabelSet, filtered: set<string>, priority: seq<string>) returns (r: string)
    requires Distinct(priority)
    ensures exists order ::
              IsLayout(order, Shown(labels, filtered), priority) && AddsLabels(b, r, order, labels, priority)
  {
    ghost var shown := Shown(labels, filtered);
    var keys := CollectKeys(labels, filtered);
    if |keys| == 0 {
      assert IsLayout([], shown, priority) && AddsLabels(b, b, [], labels, priority);
      return b;
    }
    var head := b + "\nLabels:\n";
    r, keys := WritePriority(head, keys, labels, priority);
    var remaining := SortedKeys(keys);
    assert forall k | k in remaining :: k in Elements(remaining);
    ghost var order := Present(priority, shown) + remaining;
    LayoutOf(shown, priority, remaining);
    r := WriteRemaining(head, r, Present(priority, shown), remaining, labels, priority);
    assert order != [] by {
      assert Elements(order) == shown;
    }
    assert AddsLabels(b, r, order, labels, priority);
  }

  /** The source's constants meet what the layout needs. */
  lemma PriorityLabelsAreDistinct()
    ensures Distinct(PRIORITY_LABELS) && Elements(PRIORITY_LABELS) !! FILTERED_LABELS
  {
  }

  // ----- FilterLabels

  /** The pairs of `labels` whose key is shown, ascending by key. */
  ghost predicate IsFiltered(pairs: seq<LabelPair>, labels: LabelSet, filtered: set<string>) {
    && Ascending(pairs, KeyOf)
    && (forall p | p in pairs :: p.key in Shown(labels, filtered) && p.value == labels[p.key])
    && (forall k | k in Shown(labels, filtered) :: LabelPair(k, labels[k]) in pairs)
  }

  method FilterLabels(labels: LabelSet, filtered: set<string>) returns (pairs: seq<LabelPair>)
    ensures IsFiltered(pairs, labels, filtered)
  {
    pairs := [];
    var todo := labels.Keys;
    while todo != {}
      invariant todo <= labels.Keys && DistinctBy(pairs, KeyOf)
      invariant forall p | p in pairs ::
                  p.key !in todo && p.key in Shown(labels, filtered) && p.value == labels[p.key]
      invariant forall k | k in Shown(labels, filtered) && k !in todo :: LabelPair(k, labels[k]) in pairs
      decreases todo
    {
      var k :| k in todo;
      todo := todo - {k};
      if k !in filtered {
        pairs := pairs + [LabelPair(k, labels[k])];
      }
    }
    if |pairs| == 0 {
      return;
    }
    SortByCorrect(pairs, KeyOf);
    SameElements(SortBy(pairs, KeyOf), pairs);
    assert forall p :: p in SortBy(pairs, KeyOf) <==> p in Elements(pairs);
    pairs := SortBy(pairs, KeyOf);
  }

  function KeysOf(pairs: seq<LabelPair>): (ks: seq<string>)
    ensures |ks| == |pairs| && forall i | 0 <= i < |ks| :: ks[i] == pairs[i].key
  {
    if pairs == [] then [] else [pairs[0].key] + KeysOf(pairs[1..])
  }

  function Without(keys: seq<string>, priority: seq<string>): (r: seq<string>)
    ensures forall k :: k in r <==> k in keys && k !in priority
  {
    if keys == [] then []
    else (if keys[0] in priority then [] else [keys[0]]) + Without(keys[1..], priority)
  }

  lemma {:induction false} WithoutAscends(keys: seq<string>, priority: seq<string>)
    requires Ascending(keys, Itself)
    ensures Ascending(Without(keys, priority), Itself)
  {
    if keys != [] {
      WithoutAscends(keys[1..], priority);
      var tail := Without(keys[1..], priority);
      forall j | 0 <= j < |tail| ensures Less(keys[0], tail[j]) {
        assert tail[j] in keys[1..];
        var k :| 0 < k < |keys| && keys[k] == tail[j];
        assert Less(Itself(keys[0]), Itself(keys[k]));
      }
    }
  }

  /** The two formatters agree: Pachca's layout is its priority labels followed by the keys of the e-mail's filtered
      pairs without the priority labels. */
  lemma FormattersAgree(labels: LabelSet, filtered: set<string>, priority: seq<string>,
                        order: seq<string>, pairs: seq<LabelPair>)
    requires Distinct(priority) && IsLayout(order, Shown(labels, filtered), priority)
    requires IsFiltered(pairs, labels, filtered)
    ensures order == Present(priority, Shown(labels, filtered)) + Without(KeysOf(pairs), priority)
  {
    var keys, ks := Shown(labels, filtered), KeysOf(pairs);
    forall i, j | 0 <= i < j < |ks| ensures Less(Itself(ks[i]), Itself(ks[j])) {
      assert Less(KeyOf(pairs[i]), KeyOf(pairs[j]));
    }
    WithoutAscends(ks, priority);
    var rest := Without(ks, priority);
    forall k | k in keys - Elements(priority) ensures k in rest {
      var p := LabelPair(k, labels[k]);
      var i :| 0 <= i < |pairs| && pairs[i] == p;
      assert ks[i] == k;
    }
    assert Elements(rest) == keys - Elements(priority);
    LayoutOf(keys, priority, rest);
    LayoutIsUnique(order, Present(priority, keys) + rest, keys, priority);
  }

  /** Both results are functions of the label map alone. */
  lemma FilteredIsUnique(s: seq<LabelPair>, t: seq<LabelPair>, labels: LabelSet, filtered: set<string>)
    requires IsFiltered(s, labels, filtered) && IsFiltered(t, labels, filtered)
    ensures s == t
  {
    var before := (p: LabelPair, q: LabelPair) => Less(p.key, q.key);
    forall p, q | before(p, q) ensures !before(q, p) {
      LessIsAsymmetric(p.key, q.key);
    }
    assert forall i, j | 0 <= i < j < |s| :: Less(KeyOf(s[i]), KeyOf(s[j]));
    assert forall i, j | 0 <= i < j < |t| :: Less(KeyOf(t[i]), KeyOf(t[j]));
    forall p ensures p in s <==> p in t {
      if p in s {
        assert LabelPair(p.key, labels[p.key]) in t;
      }
      if p in t {
        assert LabelPair(p.key, labels[p.key]) in s;
      }
    }
    ArrangementIsUnique(s, t, before);
  }
}
