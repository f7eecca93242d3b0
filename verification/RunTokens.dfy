/**
 The credentials training pods report with (issueRunToken, revokeRunTokens and
 expireRunTokens in services/auth.js, over the statements of repos/auth.js). A token is
 identified by its place in the table.
 */
module RunTokens {
  import opened Prelude

  datatype Token = Token(job: nat, attempt: nat, expiresAt: Option<int>, revoked: bool)

  predicate Live(t: Token, at: int) {
    !t.revoked && (t.expiresAt.None? || t.expiresAt.value > at)
  }

  function Revoked(ts: seq<Token>, job: nat): (r: seq<Token>)
    ensures |r| == |ts|
  {
    seq(|ts|, i requires 0 <= i < |ts| => if ts[i].job == job then ts[i].(revoked := true) else ts[i])
  }

  function Issued(ts: seq<Token>, job: nat, attempt: nat, expiresAt: Option<int>): (r: seq<Token>)
    ensures |r| == |ts| + 1
  {
    Revoked(ts, job) + [Token(job, attempt, expiresAt, false)]
  }

  /** LEAST of what the expiry was and the end of the grace period. */
  function Sooner(expiresAt: Option<int>, until: int): Option<int> {
    Some(if expiresAt.Some? then Min(expiresAt.value, until) else until)
  }

  function Expired(ts: seq<Token>, job: nat, until: int): (r: seq<Token>)
    ensures |r| == |ts|
  {
    seq(|ts|, i requires 0 <= i < |ts| =>
      if ts[i].job == job && !ts[i].revoked then ts[i].(expiresAt := Sooner(ts[i].expiresAt, until)) else ts[i])
  }

  datatype Change =
    | Issue(job: nat, attempt: nat, expiresAt: Option<int>)
    | Revoke(job: nat)
    | Expire(job: nat, until: int)

  function After(ts: seq<Token>, c: Change): seq<Token> {
    match c
    case Issue(job, attempt, expiresAt) => Issued(ts, job, attempt, expiresAt)
    case Revoke(job) => Revoked(ts, job)
    case Expire(job, until) => Expired(ts, job, until)
  }

  function AfterAll(ts: seq<Token>, cs: seq<Change>): seq<Token> {
    if cs == [] then ts else After(AfterAll(ts, cs[..|cs| - 1]), cs[|cs| - 1])
  }

  class TokenTable {
    var rows: seq<Token>

    constructor ()
      ensures rows == []
    {
      rows := [];
    }

    method RevokeRunTokens(job: nat)
      modifies this
      ensures rows == After(old(rows), Revoke(job))
    {
      var i := 0;
      while i < |rows|
        invariant |rows| == |old(rows)| && 0 <= i <= |rows|
        invariant rows[..i] == Revoked(old(rows), job)[..i] && rows[i..] == old(rows)[i..]
      {
        if rows[i].job == job && !rows[i].revoked {
          rows := rows[i := rows[i].(revoked := true)];
        }
        i := i + 1;
      }
    }

    method IssueRunToken(job: nat, attempt: nat, expiresAt: Option<int>) returns (id: nat)
      modifies this
      ensures rows == After(old(rows), Issue(job, attempt, expiresAt)) && id == |old(rows)|
    {
      RevokeRunTokens(job);
      id := |rows|;
      rows := rows + [Token(job, attempt, expiresAt, false)];
    }

    method ExpireRunTokens(job: nat, at: int, graceSeconds: nat)
      modifies this
      ensures rows == After(old(rows), Expire(job, at + graceSeconds))
    {
      var until := at + graceSeconds;
      var i := 0;
      while i < |rows|
        invariant |rows| == |old(rows)| && 0 <= i <= |rows|
        invariant rows[..i] == Expired(old(rows), job, until)[..i] && rows[i..] == old(rows)[i..]
      {
        if rows[i].job == job && !rows[i].revoked {
          rows := rows[i := rows[i].(expiresAt := Sooner(rows[i].expiresAt, until))];
        }
        i := i + 1;
      }
    }
  }

  // ------------------------------------------------------------ over whole runs

  /** Of a job's tokens only the latest issued may still be in force. */
  ghost predicate OnlyLatest(ts: seq<Token>) {
    forall i, k :: 0 <= i < k < |ts| && ts[i].job == ts[k].job ==> ts[i].revoked
  }

  lemma ChangeKeepsOnlyLatest(ts: seq<Token>, c: Change)
    requires OnlyLatest(ts)
    ensures OnlyLatest(After(ts, c))
  {
  }

  lemma {:induction false} RunKeepsOnlyLatest(ts: seq<Token>, cs: seq<Change>)
    requires OnlyLatest(ts)
    ensures OnlyLatest(AfterAll(ts, cs))
  {
    if cs != [] {
      RunKeepsOnlyLatest(ts, cs[..|cs| - 1]);
      ChangeKeepsOnlyLatest(AfterAll(ts, cs[..|cs| - 1]), cs[|cs| - 1]);
    }
  }

  /** At any moment, whatever was issued, revoked and expired before it, at most one token speaks for a job. */
  lemma AtMostOneLive(cs: seq<Change>, at: int, i: nat, k: nat)
    requires var ts := AfterAll([], cs); i < |ts| && k < |ts| && ts[i].job == ts[k].job && Live(ts[i], at) && Live(ts[k], at)
    ensures i == k
    ensures forall m :: i < m < |AfterAll([], cs)| ==> AfterAll([], cs)[m].job != AfterAll([], cs)[i].job
  {
    RunKeepsOnlyLatest([], cs);
  }

  /** Nothing that happens to a token gives it back what it lost: it never outlives its former expiry. */
  ghost predicate NoLonger(t: Token, u: Token) {
    && u.job == t.job && u.attempt == t.attempt
    && (t.revoked ==> u.revoked)
    && (t.expiresAt.Some? ==> u.expiresAt.Some? && u.expiresAt.value <= t.expiresAt.value)
  }

  lemma {:induction false} NeverExtended(ts: seq<Token>, cs: seq<Change>)
    ensures |AfterAll(ts, cs)| >= |ts|
    ensures forall i :: 0 <= i < |ts| ==> NoLonger(ts[i], AfterAll(ts, cs)[i])
  {
    if cs != [] {
      NeverExtended(ts, cs[..|cs| - 1]);
      var before := AfterAll(ts, cs[..|cs| - 1]);
      OneChangeNeverExtends(before, cs[|cs| - 1]);
    }
  }

  lemma OneChangeNeverExtends(ts: seq<Token>, c: Change)
    ensures |After(ts, c)| >= |ts|
    ensures forall i :: 0 <= i < |ts| ==> NoLonger(ts[i], After(ts, c)[i])
  {
  }

  lemma NeverRevives(ts: seq<Token>, cs: seq<Change>, i: nat, at: int)
    requires i < |ts| && !Live(ts[i], at)
    ensures |AfterAll(ts, cs)| >= |ts| && !Live(AfterAll(ts, cs)[i], at)
  {
    NeverExtended(ts, cs);
  }

  /** A run that finished keeps its credential for the grace period and no longer. */
  lemma GraceEnds(ts: seq<Token>, job: nat, until: int, cs: seq<Change>, i: nat, at: int)
    requires i < |ts| && ts[i].job == job && at >= until
    ensures |AfterAll(Expired(ts, job, until), cs)| >= |ts| && !Live(AfterAll(Expired(ts, job, until), cs)[i], at)
  {
    NeverRevives(Expired(ts, job, until), cs, i, at);
  }

  /**
   A token is live after any changes exactly when it was before, and none of them issued another
   to its job, revoked its job's or gave its job's a grace period that is over. Other jobs' changes never matter.
   */
  lemma {:induction false} LiveUntilTold(ts: seq<Token>, cs: seq<Change>, i: nat, at: int)
    requires i < |ts|
    ensures |AfterAll(ts, cs)| >= |ts|
    ensures Live(AfterAll(ts, cs)[i], at)
      <==> Live(ts[i], at) && forall c :: c in cs && c.job == ts[i].job ==> c.Expire? && at < c.until
  {
    if cs != [] {
      var n := |cs| - 1;
      LiveUntilTold(ts, cs[..n], i, at);
      NeverExtended(ts, cs[..n]);
      assert cs == cs[..n] + [cs[n]];
    }
  }

  /** What is issued is live until it expires, for the job and attempt it was issued to. */
  lemma IssuedSpeaks(ts: seq<Token>, cs: seq<Change>, job: nat, attempt: nat, expiresAt: Option<int>, at: int)
    requires forall c :: c in cs && c.job == job ==> c.Expire? && at < c.until
    requires expiresAt.Some? ==> at < expiresAt.value
    ensures var after := AfterAll(After(ts, Issue(job, attempt, expiresAt)), cs);
      |after| > |ts| && after[|ts|].job == job && after[|ts|].attempt == attempt && Live(after[|ts|], at)
  {
    var issued := After(ts, Issue(job, attempt, expiresAt));
    LiveUntilTold(issued, cs, |ts|, at);
    NeverExtended(issued, cs);
  }
}
