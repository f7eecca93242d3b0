/**
 The scheduler's audit trail of one job (recordDecisions, newestPass and sameVerdict in
 repos/scheduling.js). A pass that decides what the last one did is counted, not stored again.

 A decision is represented by the key it is compared by: its node, outcome and reason, as its
 place in the order of the joined strings.
 */
module AuditLog {

  type Key = int

  // ---------------------------------------------------------------- one verdict

  function Insert(k: Key, s: seq<Key>): seq<Key> {
    if s == [] || k <= s[0] then [k] + s else [s[0]] + Insert(k, s[1..])
  }

  function Sorted(s: seq<Key>): seq<Key> {
    if s == [] then [] else Insert(s[0], Sorted(s[1..]))
  }

  /** Two verdicts are the same when their keys, sorted, are. */
  predicate SameVerdict(a: seq<Key>, b: seq<Key>) {
    |a| == |b| && Sorted(a) == Sorted(b)
  }

  ghost predicate Ordered(s: seq<Key>) {
    forall i, j :: 0 <= i < j < |s| ==> s[i] <= s[j]
  }

  lemma {:induction false} InsertAdds(k: Key, s: seq<Key>)
    ensures multiset(Insert(k, s)) == multiset(s) + multiset{k}
  {
    if s != [] && k > s[0] {
      InsertAdds(k, s[1..]);
      assert s == [s[0]] + s[1..];
    }
  }

  lemma {:induction false} InsertOrders(k: Key, s: seq<Key>)
    requires Ordered(s)
    ensures Ordered(Insert(k, s))
  {
    if s != [] && k > s[0] {
      InsertOrders(k, s[1..]);
      InsertAbove(k, s[1..], s[0]);
    }
  }

  lemma {:induction false} InsertAbove(k: Key, s: seq<Key>, least: Key)
    requires least <= k && forall i :: 0 <= i < |s| ==> least <= s[i]
    ensures forall i :: 0 <= i < |Insert(k, s)| ==> least <= Insert(k, s)[i]
  {
    if s != [] && k > s[0] {
      InsertAbove(k, s[1..], least);
    }
  }

  lemma {:induction false} SortedKeeps(s: seq<Key>)
    ensures Ordered(Sorted(s)) && multiset(Sorted(s)) == multiset(s)
  {
    if s != [] {
      SortedKeeps(s[1..]);
      InsertAdds(s[0], Sorted(s[1..]));
      InsertOrders(s[0], Sorted(s[1..]));
      assert s == [s[0]] + s[1..];
    }
  }

  lemma HeadIsLeast(s: seq<Key>, k: Key)
    requires Ordered(s) && k in multiset(s)
    ensures s != [] && s[0] <= k
  {
    var i :| 0 <= i < |s| && s[i] == k;
  }

  lemma TailOf(s: seq<Key>)
    requires s != []
    ensures s[0] in multiset(s) && multiset(s[1..]) == multiset(s) - multiset{s[0]}
  {
    assert s == [s[0]] + s[1..];
  }

  lemma SameLength(a: seq<Key>, b: seq<Key>)
    requires multiset(a) == multiset(b)
    ensures |a| == |b|
  {
    assert |multiset(a)| == |a| && |multiset(b)| == |b|;
  }

  /** Two ordered sequences of the same keys start alike and go on with the same keys. */
  lemma HeadsAgree(a: seq<Key>, b: seq<Key>)
    requires Ordered(a) && Ordered(b) && a != [] && b != [] && multiset(a) == multiset(b)
    ensures a[0] == b[0] && multiset(a[1..]) == multiset(b[1..])
    ensures Ordered(a[1..]) && Ordered(b[1..])
  {
    TailOf(a);
    TailOf(b);
    HeadIsLeast(b, a[0]);
    HeadIsLeast(a, b[0]);
  }

  lemma {:induction false} OrderedUnique(a: seq<Key>, b: seq<Key>)
    requires Ordered(a) && Ordered(b) && multiset(a) == multiset(b)
    ensures a == b
  {
    hide Ordered;
    SameLength(a, b);
    if a != [] {
      HeadsAgree(a, b);
      OrderedUnique(a[1..], b[1..]);
      SameFromParts(a, b);
    }
  }

  lemma SameFromParts(a: seq<Key>, b: seq<Key>)
    requires a != [] && b != [] && a[0] == b[0] && a[1..] == b[1..]
    ensures a == b
  {
    assert a == [a[0]] + a[1..] && b == [b[0]] + b[1..];
  }

  /** The order decisions come in does not matter; how many say the same does. */
  lemma SameVerdictIffSameDecisions(a: seq<Key>, b: seq<Key>)
    ensures SameVerdict(a, b) <==> multiset(a) == multiset(b)
  {
    SortedKeeps(a);
    SortedKeeps(b);
    if multiset(a) == multiset(b) {
      OrderedUnique(Sorted(a), Sorted(b));
      assert |multiset(a)| == |multiset(b)|;
    }
  }

  // -------------------------------------------------------------- the stored passes

  /** A pass as stored: its decisions, and how many times in a row it was reached. */
  datatype Pass = Pass(id: nat, keys: seq<Key>, count: nat)

  /** A row of the table. */
  datatype Row = Row(pass: nat, key: Key, repeats: nat)

  function RowsOf(p: Pass): (r: seq<Row>)
    ensures |r| == |p.keys|
  {
    seq(|p.keys|, i requires 0 <= i < |p.keys| => Row(p.id, p.keys[i], p.count))
  }

  function Table(log: seq<Pass>): seq<Row> {
    if log == [] then [] else Table(log[..|log| - 1]) + RowsOf(log[|log| - 1])
  }

  /** Recording one pass: nothing for an empty one, a repeat counted, anything else stored. */
  function Recorded(log: seq<Pass>, id: nat, keys: seq<Key>): seq<Pass> {
    if keys == [] then log
    else if log != [] && SameVerdict(log[|log| - 1].keys, keys) then
      var last := log[|log| - 1];
      log[..|log| - 1] + [last.(count := last.count + 1)]
    else log + [Pass(id, keys, 1)]
  }

  ghost predicate Kept(log: seq<Pass>) {
    && (forall i :: 0 <= i < |log| ==> log[i].keys != [] && log[i].count >= 1)
    && (forall i, j :: 0 <= i < j < |log| ==> log[i].id != log[j].id)
  }

  ghost predicate Unused(log: seq<Pass>, id: nat) {
    forall i :: 0 <= i < |log| ==> log[i].id != id
  }

  lemma {:induction false} RowPasses(log: seq<Pass>, i: nat)
    requires i < |Table(log)|
    ensures exists p :: p in log && p.id == Table(log)[i].pass
  {
    var n := |log| - 1;
    if i < |Table(log[..n])| {
      RowPasses(log[..n], i);
      var p :| p in log[..n] && p.id == Table(log[..n])[i].pass;
      assert p in log;
    } else {
      assert log[n] in log;
    }
  }

  class AuditTable {
    var rows: seq<Row>
    ghost var log: seq<Pass>

    ghost predicate Valid()
      reads this
    {
      rows == Table(log) && Kept(log)
    }

    constructor ()
      ensures Valid() && log == []
    {
      rows, log := [], [];
    }

    /** The decisions of the most recent pass, and where they start. */
    method NewestPass() returns (start: nat, keys: seq<Key>)
      requires Valid()
      ensures log == [] ==> start == |rows| && keys == []
      ensures log != [] ==> start == |Table(log[..|log| - 1])| && keys == log[|log| - 1].keys && rows != []
    {
      start, keys := |rows|, [];
      ghost var n := |log| - 1;
      if log != [] {
        EarlierRowsDiffer(log);
      }
      while start > 0 && rows[start - 1].pass == rows[|rows| - 1].pass
        invariant 0 <= start <= |rows| && |keys| == |rows| - start
        invariant log == [] ==> rows == []
        invariant log != [] ==> start >= |Table(log[..n])|
        invariant forall i :: 0 <= i < |keys| ==> keys[i] == rows[start + i].key
      {
        start := start - 1;
        keys := [rows[start].key] + keys;
      }
    }

    /** Writes all the decisions of one pass, whose id has not been used before. */
    method RecordDecisions(id: nat, decisions: seq<Key>)
      requires Valid() && Unused(log, id)
      modifies this
      ensures Valid() && log == Recorded(old(log), id, decisions)
    {
      if decisions == [] {
        return;
      }
      var start, previous := NewestPass();
      if rows != [] && SameVerdict(previous, decisions) {
        CountedAgain(log, id, decisions);
        rows := Bumped(rows, start);
      } else {
        StoredAnew(log, id, decisions);
        rows := rows + RowsOf(Pass(id, decisions, 1));
      }
      RecordingKeeps(log, id, decisions);
      log := Recorded(log, id, decisions);
    }
  }

  /** The rows from `start` on, counted once more. */
  function Bumped(rows: seq<Row>, start: nat): seq<Row> {
    seq(|rows|, i requires 0 <= i < |rows| => if i >= start then rows[i].(repeats := rows[i].repeats + 1) else rows[i])
  }

  lemma CountedAgain(log: seq<Pass>, id: nat, keys: seq<Key>)
    requires log != [] && keys != []
    ensures SameVerdict(log[|log| - 1].keys, keys) ==>
      Bumped(Table(log), |Table(log[..|log| - 1])|) == Table(Recorded(log, id, keys))
  {
    hide SameVerdict;
    if SameVerdict(log[|log| - 1].keys, keys) {
      var after := Recorded(log, id, keys);
      assert after[..|after| - 1] == log[..|log| - 1];
    }
  }

  lemma StoredAnew(log: seq<Pass>, id: nat, keys: seq<Key>)
    requires keys != [] && (log != [] ==> !SameVerdict(log[|log| - 1].keys, keys))
    ensures Table(log) + RowsOf(Pass(id, keys, 1)) == Table(Recorded(log, id, keys))
  {
    hide SameVerdict, RowsOf;
    var after := Recorded(log, id, keys);
    assert after[..|after| - 1] == log;
  }

  lemma RecordingKeeps(log: seq<Pass>, id: nat, keys: seq<Key>)
    requires Kept(log) && Unused(log, id)
    ensures Kept(Recorded(log, id, keys))
  {
    hide SameVerdict;
  }

  lemma EarlierRowsDiffer(log: seq<Pass>)
    requires Kept(log) && log != []
    ensures var before := |Table(log[..|log| - 1])|;
      before < |Table(log)| && forall i :: 0 <= i < before ==> Table(log)[i].pass != Table(log)[|Table(log)| - 1].pass
  {
    var n := |log| - 1;
    forall i | 0 <= i < |Table(log[..n])| ensures Table(log)[i].pass != log[n].id {
      RowPasses(log[..n], i);
      var p :| p in log[..n] && p.id == Table(log[..n])[i].pass;
    }
  }

  // ------------------------------------------------------------ what was recorded

  function Repeated(v: multiset<Key>, times: nat): (s: seq<multiset<Key>>)
    ensures |s| == times
  {
    seq(times, i => v)
  }

  /** The verdicts a log stands for, every pass as often as it was reached. */
  function Expanded(log: seq<Pass>): seq<multiset<Key>> {
    if log == [] then []
    else Expanded(log[..|log| - 1]) + Repeated(multiset(log[|log| - 1].keys), log[|log| - 1].count)
  }

  /** A run of passes, each with its id and its decisions. */
  datatype Verdict = Verdict(id: nat, keys: seq<Key>)

  function RecordedAll(vs: seq<Verdict>): seq<Pass> {
    if vs == [] then []
    else Recorded(RecordedAll(vs[..|vs| - 1]), vs[|vs| - 1].id, vs[|vs| - 1].keys)
  }

  /** The passes that decided anything, in order. */
  function Reached(vs: seq<Verdict>): seq<multiset<Key>> {
    if vs == [] then []
    else
      var v := vs[|vs| - 1];
      Reached(vs[..|vs| - 1]) + (if v.keys == [] then [] else [multiset(v.keys)])
  }

  lemma OnceMore(v: multiset<Key>, times: nat)
    ensures Repeated(v, times + 1) == Repeated(v, times) + [v] && Repeated(v, 0) == []
  {
  }

  lemma CountingAppends(before: seq<Pass>, last: Pass)
    ensures Expanded(before + [last.(count := last.count + 1)]) == Expanded(before + [last]) + [multiset(last.keys)]
  {
    hide Repeated;
    LastExpanded(before, last);
    LastExpanded(before, last.(count := last.count + 1));
    OnceMore(multiset(last.keys), last.count);
  }

  lemma LastExpanded(before: seq<Pass>, last: Pass)
    ensures Expanded(before + [last]) == Expanded(before) + Repeated(multiset(last.keys), last.count)
  {
    hide Repeated;
    assert (before + [last])[..|before|] == before;
  }

  lemma RecordingAppends(log: seq<Pass>, id: nat, keys: seq<Key>)
    ensures Expanded(Recorded(log, id, keys)) == Expanded(log) + (if keys == [] then [] else [multiset(keys)])
  {
    hide Repeated, SameVerdict, Expanded;
    if keys != [] {
      if log != [] && SameVerdict(log[|log| - 1].keys, keys) {
        var before, last := log[..|log| - 1], log[|log| - 1];
        assert log == before + [last];
        SameVerdictIffSameDecisions(last.keys, keys);
        CountingAppends(before, last);
      } else {
        LastExpanded(log, Pass(id, keys, 1));
        OnceMore(multiset(keys), 0);
      }
    }
  }

  /** Folding loses nothing: expanding the log gives back every verdict reached, in order. */
  lemma {:induction false} LogIsLossless(vs: seq<Verdict>)
    ensures Expanded(RecordedAll(vs)) == Reached(vs)
  {
    if vs != [] {
      LogIsLossless(vs[..|vs| - 1]);
      RecordingAppends(RecordedAll(vs[..|vs| - 1]), vs[|vs| - 1].id, vs[|vs| - 1].keys);
    }
  }

  /** And it folds all it can: neighbours in the log never say the same. */
  ghost predicate Folded(log: seq<Pass>) {
    forall i :: 0 < i < |log| ==> multiset(log[i - 1].keys) != multiset(log[i].keys)
  }

  lemma RecordingKeepsFolded(log: seq<Pass>, id: nat, keys: seq<Key>)
    requires Folded(log)
    ensures Folded(Recorded(log, id, keys))
  {
    if keys != [] && log != [] {
      SameVerdictIffSameDecisions(log[|log| - 1].keys, keys);
      var after := Recorded(log, id, keys);
      forall i | 0 < i < |after| ensures multiset(after[i - 1].keys) != multiset(after[i].keys) {
        if i < |log| {
          assert multiset(log[i - 1].keys) != multiset(log[i].keys);
        }
      }
    }
  }

  lemma {:induction false} LogIsFolded(vs: seq<Verdict>)
    ensures Folded(RecordedAll(vs))
  {
    if vs != [] {
      LogIsFolded(vs[..|vs| - 1]);
      RecordingKeepsFolded(RecordedAll(vs[..|vs| - 1]), vs[|vs| - 1].id, vs[|vs| - 1].keys);
    }
  }

  function Counted(log: seq<Pass>): nat {
    if log == [] then 0 else Counted(log[..|log| - 1]) + log[|log| - 1].count
  }

  lemma {:induction false} CountsAreLengths(log: seq<Pass>)
    ensures Counted(log) == |Expanded(log)|
  {
    if log != [] {
      CountsAreLengths(log[..|log| - 1]);
    }
  }

  /** The repeat counts add up to the number of passes that decided anything. */
  lemma CountsTotalPasses(vs: seq<Verdict>)
    ensures Counted(RecordedAll(vs)) == |Reached(vs)|
  {
    LogIsLossless(vs);
    CountsAreLengths(RecordedAll(vs));
  }
}
