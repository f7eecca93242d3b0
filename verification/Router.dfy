/**
 The model router: what it believes about a deployment's split (routing-table.js), and how
 it answers one request (app.js).
 */
module Router {
  import opened Prelude
  import opened Choice

  /** The cooldown that follows a failed forward, in milliseconds. */
  const FAILOVER_COOLDOWN_MS: int := 5_000

  /** One line of the routing document the control plane hands out. */
  datatype Entry = Entry(version: nat, weight: int, ready: bool)

  datatype Belief = Belief(table: Option<seq<Entry>>, cooldowns: map<nat, int>, refreshes: nat)

  predicate Cooling(b: Belief, version: nat, at: int) {
    version in b.cooldowns && b.cooldowns[version] > at
  }

  /** The split as it is applied: ready means ready to the control plane and not cooling down. */
  function TargetsAt(b: Belief, at: int): (r: seq<Target>)
    ensures b.table.None? ==> r == []
    ensures b.table.Some? ==> |r| == |b.table.value| && forall i :: 0 <= i < |r| ==>
      var e := b.table.value[i]; r[i] == Target(e.version, e.weight, e.ready && !Cooling(b, e.version, at))
  {
    match b.table
    case None => []
    case Some(entries) =>
      seq(|entries|, i requires 0 <= i < |entries| =>
        Target(entries[i].version, entries[i].weight, entries[i].ready && !Cooling(b, entries[i].version, at)))
  }

  datatype Event =
    | RefreshSucceeded(entries: seq<Entry>)
    | RefreshFailed
    | Unreachable(version: nat, at: int)
    | Reachable(version: nat)

  function After(b: Belief, e: Event): Belief {
    match e
    case RefreshSucceeded(entries) => b.(table := Some(entries), refreshes := b.refreshes + 1)
    case RefreshFailed => b
    case Unreachable(version, at) => b.(cooldowns := b.cooldowns[version := at + FAILOVER_COOLDOWN_MS])
    case Reachable(version) => b.(cooldowns := b.cooldowns - {version})
  }

  function AfterAll(b: Belief, es: seq<Event>): Belief {
    if es == [] then b else After(AfterAll(b, es[..|es| - 1]), es[|es| - 1])
  }

  class RoutingTable {
    var table: Option<seq<Entry>>
    var cooldowns: map<nat, int>
    var refreshes: nat

    constructor ()
      ensures View() == Belief(None, map[], 0)
    {
      table, cooldowns, refreshes := None, map[], 0;
    }

    function View(): Belief
      reads this
    {
      Belief(table, cooldowns, refreshes)
    }

    /** A refresh that fails keeps the last table there was. */
    method Refresh(fetched: Option<seq<Entry>>)
      modifies this
      ensures View() == After(old(View()), if fetched.Some? then RefreshSucceeded(fetched.value) else RefreshFailed)
    {
      if fetched.Some? {
        table := fetched;
        refreshes := refreshes + 1;
      }
    }

    method MarkUnreachable(version: nat, at: int)
      modifies this
      ensures View() == After(old(View()), Unreachable(version, at))
    {
      cooldowns := cooldowns[version := at + FAILOVER_COOLDOWN_MS];
    }

    method MarkReachable(version: nat)
      modifies this
      ensures View() == After(old(View()), Reachable(version))
    {
      cooldowns := cooldowns - {version};
    }

    method Targets(at: int) returns (r: seq<Target>)
      ensures r == TargetsAt(View(), at)
    {
      r := TargetsAt(Belief(table, cooldowns, refreshes), at);
    }

    /**
     Answers one request. `transport` says what a forward to a version does: a status, or
     nothing when the version could not be reached; `clock` and `draw` are what the time and
     the random source give at each attempt. Returns the reply and the forwards made.
     */
    method Handle(key: Option<seq<bv16>>, transport: nat -> Option<int>, clock: nat -> int, draw: nat -> real)
      returns (reply: Reply, forwards: seq<nat>)
      modifies this
      ensures Outcome(reply, forwards, View()) == Handled(old(View()), key, transport, clock, draw)
    {
      hide ChooseTarget, TargetsAt, After, Without;
      forwards := [];
      var targets := Targets(clock(0));
      var choice := ChooseTarget(targets, key, draw(0));
      if choice.None? {
        return NoVersion, [];
      }
      var attempt := 0;
      while attempt < 2
        invariant 0 <= attempt <= 2 && attempt == |forwards|
        invariant attempt < 2 ==> choice.Some?
        invariant attempt == 2 ==> false
        invariant attempt == 0 ==> View() == old(View()) && choice == FirstChoice(old(View()), key, clock, draw)
        invariant attempt == 1 ==>
          && FirstChoice(old(View()), key, clock, draw).Some?
          && forwards == [FirstChoice(old(View()), key, clock, draw).value.target.version]
          && transport(forwards[0]).None?
          && View() == After(old(View()), Unreachable(forwards[0], clock(1)))
          && SecondChoice(old(View()), forwards[0], key, clock, draw).Some?
          && choice == Some(SecondChoice(old(View()), forwards[0], key, clock, draw).value.(reason := Failover))
      {
        var version := choice.value.target.version;
        forwards := forwards + [version];
        var response := transport(version);
        if response.Some? {
          MarkReachable(version);
          return Answered(version, response.value, choice.value.reason), forwards;
        }
        MarkUnreachable(version, clock(attempt + 1));
        var again := Targets(clock(attempt + 1));
        var next := ChooseTarget(Without(again, forwards), key, draw(attempt + 1));
        if next.None? || attempt == 1 {
          return AllUnreachable, forwards;
        }
        choice := Some(next.value.(reason := Failover));
        attempt := attempt + 1;
      }
      return Impossible, forwards;
    }
  }

  // ------------------------------------------------------------- one request

  datatype Reply =
    | NoVersion
    | Answered(version: nat, status: int, reason: Reason)
    | AllUnreachable
    | Impossible

  /** The targets a request has not already tried. */
  function Without(ts: seq<Target>, tried: seq<nat>): (r: seq<Target>)
    ensures forall t :: t in r <==> t in ts && t.version !in tried
  {
    if ts == [] then []
    else if ts[0].version in tried then Without(ts[1..], tried)
    else [ts[0]] + Without(ts[1..], tried)
  }

  function FirstChoice(b: Belief, key: Option<seq<bv16>>, clock: nat -> int, draw: nat -> real): Option<Choice> {
    ChooseTarget(TargetsAt(b, clock(0)), key, draw(0))
  }

  /** Where a request fails over to once `first` could not be reached. */
  function SecondChoice(b: Belief, first: nat, key: Option<seq<bv16>>, clock: nat -> int, draw: nat -> real): Option<Choice> {
    ChooseTarget(Without(TargetsAt(After(b, Unreachable(first, clock(1))), clock(1)), [first]), key, draw(1))
  }

  datatype Outcome = Outcome(reply: Reply, forwards: seq<nat>, belief: Belief)

  /** A request, end to end: the reply, the forwards it made, and what the router then believes. */
  function Handled(b: Belief, key: Option<seq<bv16>>, transport: nat -> Option<int>, clock: nat -> int, draw: nat -> real)
    : Outcome
  {
    var first := FirstChoice(b, key, clock, draw);
    if first.None? then Outcome(NoVersion, [], b)
    else
      var v := first.value.target.version;
      if transport(v).Some? then
        Outcome(Answered(v, transport(v).value, first.value.reason), [v], After(b, Reachable(v)))
      else
        var failed := After(b, Unreachable(v, clock(1)));
        var second := SecondChoice(b, v, key, clock, draw);
        if second.None? then Outcome(AllUnreachable, [v], failed)
        else
          var u := second.value.target.version;
          if transport(u).Some? then
            Outcome(Answered(u, transport(u).value, Failover), [v, u], After(failed, Reachable(u)))
          else Outcome(AllUnreachable, [v, u], After(failed, Unreachable(u, clock(2))))
  }

  ghost predicate EligibleAt(b: Belief, version: nat, at: int) {
    exists t :: t in TargetsAt(b, at) && t.version == version && CanAnswer(t)
  }

  lemma FirstIsEligible(b: Belief, key: Option<seq<bv16>>, clock: nat -> int, draw: nat -> real)
    requires FirstChoice(b, key, clock, draw).Some?
    ensures EligibleAt(b, FirstChoice(b, key, clock, draw).value.target.version, clock(0))
    ensures FirstChoice(b, key, clock, draw).value.reason != Failover
  {
    FirstReason(TargetsAt(b, clock(0)), key, draw(0));
    hide TargetsAt;
    assert FirstChoice(b, key, clock, draw).value.target in TargetsAt(b, clock(0));
  }

  lemma SecondIsEligible(b: Belief, v: nat, key: Option<seq<bv16>>, clock: nat -> int, draw: nat -> real)
    requires SecondChoice(b, v, key, clock, draw).Some?
    ensures SecondChoice(b, v, key, clock, draw).value.target.version != v
    ensures EligibleAt(b, SecondChoice(b, v, key, clock, draw).value.target.version, clock(1))
  {
    hide TargetsAt, After, Without;
    var u := SecondChoice(b, v, key, clock, draw).value.target;
    assert u in TargetsAt(After(b, Unreachable(v, clock(1))), clock(1)) && u.version != v;
    OthersUnaffected(b, v, u, clock(1));
  }

  /** While another version is eligible, a failed forward has somewhere to go. */
  lemma FailsOverToAnyOther(b: Belief, v: nat, u: nat, key: Option<seq<bv16>>, clock: nat -> int, draw: nat -> real)
    requires u != v && EligibleAt(b, u, clock(1))
    ensures SecondChoice(b, v, key, clock, draw).Some?
  {
    hide Without;
    var failed := TargetsAt(After(b, Unreachable(v, clock(1))), clock(1));
    var t :| t in TargetsAt(b, clock(1)) && t.version == u && CanAnswer(t);
    var i :| 0 <= i < |TargetsAt(b, clock(1))| && TargetsAt(b, clock(1))[i] == t;
    assert failed[i] == t;
    assert t in Without(failed, [v]);
  }

  /**
   A request makes at most two forwards, to different versions, each taking traffic and
   eligible when it was chosen. It is never sent on after an answer, the answer is
   attributed to the version that gave it, and the fall-through reply is never given.
   */
  lemma RequestIsServedAtMostTwice(b: Belief, key: Option<seq<bv16>>, transport: nat -> Option<int>,
                                   clock: nat -> int, draw: nat -> real)
    ensures var o := Handled(b, key, transport, clock, draw);
      && |o.forwards| <= 2
      && (|o.forwards| == 2 ==> o.forwards[0] != o.forwards[1])
      && (forall i :: 0 <= i < |o.forwards| ==> EligibleAt(b, o.forwards[i], clock(i)))
      && (forall i :: 0 <= i < |o.forwards| - 1 ==> transport(o.forwards[i]).None?)
    ensures var o := Handled(b, key, transport, clock, draw);
      match o.reply
      case NoVersion => o.forwards == []
      case AllUnreachable =>
        o.forwards != [] && transport(o.forwards[|o.forwards| - 1]).None?
        && (|o.forwards| == 1 ==> forall v :: v != o.forwards[0] ==> !EligibleAt(b, v, clock(1)))
      case Answered(version, status, reason) =>
        o.forwards != [] && version == o.forwards[|o.forwards| - 1] && transport(version) == Some(status)
        && (reason == Failover <==> |o.forwards| == 2)
      case Impossible => false
  {
    hide FirstChoice, SecondChoice, After, EligibleAt;
    var first := FirstChoice(b, key, clock, draw);
    if first.Some? {
      FirstIsEligible(b, key, clock, draw);
      var v := first.value.target.version;
      forall u | u != v && EligibleAt(b, u, clock(1)) ensures SecondChoice(b, v, key, clock, draw).Some? {
        FailsOverToAnyOther(b, v, u, key, clock, draw);
      }
      if SecondChoice(b, v, key, clock, draw).Some? {
        SecondIsEligible(b, v, key, clock, draw);
      }
    }
  }

  /**
   After a request a version that failed to answer it cools down for 5,000 ms from then, one that
   answered does not cool down at all, and nothing else the router believes has changed.
   */
  lemma FailuresCool(b: Belief, key: Option<seq<bv16>>, transport: nat -> Option<int>,
                     clock: nat -> int, draw: nat -> real, version: nat, at: int)
    ensures var o := Handled(b, key, transport, clock, draw);
      && o.belief.table == b.table && o.belief.refreshes == b.refreshes
      && (version !in o.forwards ==> (Cooling(o.belief, version, at) <==> Cooling(b, version, at)))
      && (forall i :: 0 <= i < |o.forwards| && o.forwards[i] == version ==>
           (Cooling(o.belief, version, at) <==> transport(version).None? && at < clock(i + 1) + 5_000))
  {
    hide FirstChoice, SecondChoice, EligibleAt;
    if FirstChoice(b, key, clock, draw).Some? {
      var v := FirstChoice(b, key, clock, draw).value.target.version;
      if SecondChoice(b, v, key, clock, draw).Some? {
        SecondIsEligible(b, v, key, clock, draw);
      }
    }
  }

  /** With a key both forwards follow the key's bucket, over the versions there are and over those left. */
  lemma BucketPicksForwards(b: Belief, key: seq<bv16>, transport: nat -> Option<int>, clock: nat -> int, draw: nat -> real)
    requires key != []
    ensures var forwards := Handled(b, Some(key), transport, clock, draw).forwards;
      && (forwards == [] <==> StickyTarget(TargetsAt(b, clock(0)), Bucket(key)).None?)
      && (forwards != [] ==> forwards[0] == StickyTarget(TargetsAt(b, clock(0)), Bucket(key)).value.version)
      && (|forwards| == 2 ==>
           var left := StickyTarget(Without(TargetsAt(After(b, Unreachable(forwards[0], clock(1))), clock(1)), [forwards[0]]), Bucket(key));
           left.Some? && forwards[1] == left.value.version)
  {
    hide TargetsAt, After, ChooseTarget, StickyTarget, Bucket, Without, CanAnswer;
    KeysFollowTheirBucket(TargetsAt(b, clock(0)), key, draw(0));
    if FirstChoice(b, Some(key), clock, draw).Some? {
      var first := FirstChoice(b, Some(key), clock, draw).value.target.version;
      KeysFollowTheirBucket(Without(TargetsAt(After(b, Unreachable(first, clock(1))), clock(1)), [first]), key, draw(1));
    }
  }

  /**
   Without a key the first forward follows the first draw and the second the second: each reaches a
   version by its part of the weights of those eligible, at the time of the forward and less the one tried.
   */
  lemma DrawsSpreadForwards(b: Belief, key: Option<seq<bv16>>, transport: nat -> Option<int>,
                            clock: nat -> int, draw: nat -> real, i: nat)
    requires Unkeyed(key) && |Handled(b, key, transport, clock, draw).forwards| > 0
    requires 0.0 <= draw(0) < 1.0 && 0.0 <= draw(1) < 1.0
    ensures var forwards, es := Handled(b, key, transport, clock, draw).forwards, Eligible(TargetsAt(b, clock(0)));
      DistinctVersions(TargetsAt(b, clock(0))) && i < |es| ==> (forwards[0] == es[i].version <==> InPart(es, i, draw(0)))
    ensures var forwards := Handled(b, key, transport, clock, draw).forwards;
      |forwards| == 2 ==>
        var left := Without(TargetsAt(After(b, Unreachable(forwards[0], clock(1))), clock(1)), [forwards[0]]);
        DistinctVersions(left) && i < |Eligible(left)| ==>
          (forwards[1] == Eligible(left)[i].version <==> InPart(Eligible(left), i, draw(1)))
  {
    hide TargetsAt, After, ChooseTarget, InPart, Eligible, Without, CanAnswer;
    ReachedByPart(TargetsAt(b, clock(0)), key, draw(0), i);
    var first := FirstChoice(b, key, clock, draw).value.target.version;
    ReachedByPart(Without(TargetsAt(After(b, Unreachable(first, clock(1))), clock(1)), [first]), key, draw(1), i);
  }

  /** A draw falls in the part of the line of weights that is the i-th target's. */
  ghost predicate InPart(es: seq<Target>, i: nat, draw: real)
    requires i < |es|
  {
    var before, total := Sum(WeightsOf(es)[..i]), Sum(WeightsOf(es));
    before as real <= draw * total as real < (before + es[i].weight) as real
  }

  lemma ReachedByPart(ts: seq<Target>, key: Option<seq<bv16>>, draw: real, i: nat)
    requires Unkeyed(key) && 0.0 <= draw < 1.0
    ensures DistinctVersions(ts) && i < |Eligible(ts)| ==>
      ChooseTarget(ts, key, draw).Some?
      && (ChooseTarget(ts, key, draw).value.target.version == Eligible(ts)[i].version <==> InPart(Eligible(ts), i, draw))
  {
    hide Eligible, ChooseTarget, Sum, Drawn;
    if DistinctVersions(ts) && i < |Eligible(ts)| {
      var es := Eligible(ts);
      DrawsReachByWeight(ts, key, draw, i);
      UnkeyedChoice(ts, key, draw);
      EligibleDistinct(ts);
      assert es[Drawn(es, draw)] == es[i] <==> es[Drawn(es, draw)].version == es[i].version;
    }
  }

  lemma FirstReason(ts: seq<Target>, key: Option<seq<bv16>>, draw: real)
    ensures ChooseTarget(ts, key, draw).Some? ==> ChooseTarget(ts, key, draw).value.reason != Failover
  {
  }

  /** Marking one version says nothing about another. */
  lemma OthersUnaffected(b: Belief, v: nat, u: Target, at: int)
    requires u.version != v && u in TargetsAt(After(b, Unreachable(v, at)), at)
    ensures u in TargetsAt(b, at)
  {
    var failed := After(b, Unreachable(v, at));
    var i :| 0 <= i < |TargetsAt(failed, at)| && TargetsAt(failed, at)[i] == u;
    assert TargetsAt(b, at)[i] == u;
  }

  /** Nothing answers exactly when nothing both takes traffic and is eligible. */
  lemma RefusedIffNoneEligible(b: Belief, key: Option<seq<bv16>>, transport: nat -> Option<int>,
                               clock: nat -> int, draw: nat -> real)
    ensures Handled(b, key, transport, clock, draw).reply.NoVersion? <==> forall v :: !EligibleAt(b, v, clock(0))
  {
    hide SecondChoice, After, TargetsAt;
    var ts := TargetsAt(b, clock(0));
    if forall v :: !EligibleAt(b, v, clock(0)) {
      forall t | t in ts ensures !CanAnswer(t) {
        assert !EligibleAt(b, t.version, clock(0));
      }
    }
  }

  // ------------------------------------------------------------ over whole runs

  /** The table in use is the last one fetched successfully, however many fetches failed since. */
  lemma {:induction false} LastGoodTable(b: Belief, es: seq<Event>, k: nat)
    requires k < |es| && es[k].RefreshSucceeded?
    requires forall i :: k < i < |es| ==> !es[i].RefreshSucceeded?
    ensures AfterAll(b, es).table == Some(es[k].entries)
  {
    var n := |es| - 1;
    if k < n {
      LastGoodTable(b, es[..n], k);
    }
  }

  /** How many of the fetches succeeded. */
  function Successes(es: seq<Event>): nat {
    if es == [] then 0 else Successes(es[..|es| - 1]) + if es[|es| - 1].RefreshSucceeded? then 1 else 0
  }

  lemma {:induction false} RefreshesCounted(b: Belief, es: seq<Event>)
    ensures AfterAll(b, es).refreshes == b.refreshes + Successes(es)
  {
    if es != [] {
      RefreshesCounted(b, es[..|es| - 1]);
    }
  }

  /** A version is out of rotation only within the cooldown of a forward that failed. */
  lemma {:induction false} CooldownEnds(b: Belief, es: seq<Event>, version: nat, at: int)
    requires !Cooling(b, version, at)
    requires forall e :: e in es && e.Unreachable? && e.version == version ==> e.at + FAILOVER_COOLDOWN_MS <= at
    ensures !Cooling(AfterAll(b, es), version, at)
  {
    if es != [] {
      var n := |es| - 1;
      CooldownEnds(b, es[..n], version, at);
      assert es[n] in es;
    }
  }

  /** And within it, unless the version has answered since, it is. */
  lemma {:induction false} CooldownHolds(b: Belief, es: seq<Event>, k: nat, at: int)
    requires k < |es| && es[k].Unreachable? && at < es[k].at + FAILOVER_COOLDOWN_MS
    requires forall i :: k < i < |es| ==> es[i] != Reachable(es[k].version)
    requires forall i :: k < i < |es| && es[i].Unreachable? ==> es[k].at <= es[i].at
    ensures Cooling(AfterAll(b, es), es[k].version, at)
  {
    var n := |es| - 1;
    if k < n {
      CooldownHolds(b, es[..n], k, at);
    }
  }
}
