/**
 The names the control plane gives to Kubernetes objects.

 A name is the only handle the control plane has on an object it created: deleting a
 version's objects means deleting by name, and an attempt's Job is found again by name.
 So what matters about the naming scheme is that two different things never share a name,
 and that no name exceeds the 63 characters a DNS-1123 label may have.
 */
module Names {

  const MANAGED_BY: string := "ashml"

  /** A Kubernetes resource name is capped at this length. */
  const MAX_NAME: int := 63

  // ----------------------------------------------------------- decimal numerals

  /** A non-negative number as JavaScript's `String(n)` writes it. */
  function Decimal(n: nat): (s: string)
    ensures |s| > 0
    ensures forall i :: 0 <= i < |s| ==> '0' <= s[i] <= '9'
  {
    if n < 10 then [Digit(n)] else Decimal(n / 10) + [Digit(n % 10)]
  }

  function Digit(d: nat): (c: char)
    requires d < 10
    ensures '0' <= c <= '9'
  {
    '0' + d as char
  }

  /** Reading a numeral back; the inverse of `Decimal`. */
  function ParseDecimal(s: string): nat
    requires forall i :: 0 <= i < |s| ==> '0' <= s[i] <= '9'
  {
    if s == [] then 0 else ParseDecimal(s[..|s| - 1]) * 10 + (s[|s| - 1] as int - '0' as int)
  }

  lemma {:induction false} DecimalRoundTrip(n: nat)
    ensures ParseDecimal(Decimal(n)) == n
  {
    if n >= 10 {
      DecimalRoundTrip(n / 10);
      assert Decimal(n)[..|Decimal(n)| - 1] == Decimal(n / 10);
    }
  }

  lemma DecimalInjective(m: nat, n: nat)
    requires Decimal(m) == Decimal(n)
    ensures m == n
  {
    DecimalRoundTrip(m);
    DecimalRoundTrip(n);
  }

  /** A numeral below 10^d has at most d digits. */
  lemma {:induction false} DecimalLength(n: nat, d: nat)
    requires d > 0 && n < Pow10(d)
    ensures |Decimal(n)| <= d
  {
    if n >= 10 {
      assert d > 1;
      DecimalLength(n / 10, d - 1);
    }
  }

  function Pow10(d: nat): nat {
    if d == 0 then 1 else 10 * Pow10(d - 1)
  }

  // ------------------------------------------------------------- parts of a name

  /** `String(id).replaceAll('-', '')`. */
  function WithoutDashes(s: string): (r: string)
    ensures |r| <= |s|
    ensures forall c :: c in r <==> c in s && c != '-'
  {
    if s == [] then []
    else if s[0] == '-' then WithoutDashes(s[1..])
    else [s[0]] + WithoutDashes(s[1..])
  }

  /** The first eight characters of a UUID, dashes removed. */
  function Id8(id: string): (r: string)
    ensures |r| <= 8
  {
    var bare := WithoutDashes(id);
    if |bare| <= 8 then bare else bare[..8]
  }

  /** The first eight characters of an id, where none of them is a dash, are what its names carry. */
  lemma Id8IsItsStart(id: string)
    requires |id| >= 8 && forall i :: 0 <= i < 8 ==> id[i] != '-'
    ensures Id8(id) == id[..8]
  {
    KeepsStart(id, 8);
  }

  lemma {:induction false} KeepsStart(s: string, n: nat)
    requires n <= |s| && forall i :: 0 <= i < n ==> s[i] != '-'
    ensures |WithoutDashes(s)| >= n && WithoutDashes(s)[..n] == s[..n]
  {
    if n > 0 {
      KeepsStart(s[1..], n - 1);
      assert WithoutDashes(s)[..n] == [s[0]] + WithoutDashes(s[1..])[..n - 1];
    }
  }

  /** Lower-case hexadecimal, which is how PostgreSQL prints a UUID. */
  predicate IsHex(c: char) {
    '0' <= c <= '9' || 'a' <= c <= 'f'
  }

  predicate ValidId(id: string) {
    |Id8(id)| == 8 && forall i :: 0 <= i < 8 ==> IsHex(Id8(id)[i])
  }

  /** A DNS-1123 label may not end in a dash, so any are cut off. */
  function TrimDashes(s: string): (r: string)
    ensures |r| <= |s|
    ensures r != [] ==> r[|r| - 1] != '-'
  {
    if s != [] && s[|s| - 1] == '-' then TrimDashes(s[..|s| - 1]) else s
  }

  /** The readable part: as much of `name` as the budget allows, and at least one character. */
  function Stem(name: string, budget: int): (r: string)
    ensures |r| <= if budget < 1 then 1 else budget
  {
    var n := if budget < 1 then 1 else budget;
    TrimDashes(if |name| <= n then name else name[..n])
  }

  function Assemble(prefix: string, name: string, suffix: string): string {
    prefix + Stem(name, MAX_NAME - |prefix| - |suffix|) + suffix
  }

  // ------------------------------------------------------------------- the names

  /** A suffix that ends in a number: `-1a2b3c4d-0` for an attempt, `-1a2b3c4d-v7` for a version. */
  function Numbered(stem: string, sep: char, n: nat): string {
    stem + [sep] + Decimal(n)
  }

  function JobName(id: string, name: string, attempt: nat): string {
    Assemble(MANAGED_BY + "-", name, Numbered("-" + Id8(id), '-', attempt))
  }

  function FrontName(id: string, name: string): string {
    Assemble(MANAGED_BY + "-svc-", name, "-" + Id8(id))
  }

  function TargetName(id: string, name: string, version: nat): string {
    Assemble(MANAGED_BY + "-svc-", name, Numbered("-" + Id8(id) + "-", 'v', version))
  }

  function RouterName(id: string, name: string): string {
    Assemble(MANAGED_BY + "-router-", name, "-" + Id8(id))
  }

  /** What the names of a short enough name look like, in full. */
  lemma NamesInFull(id: string, name: string, n: nat)
    requires name != [] && name[|name| - 1] != '-'
    requires |name| + |Decimal(n)| <= 42
    ensures JobName(id, name, n) == "ashml-" + name + "-" + Id8(id) + "-" + Decimal(n)
    ensures FrontName(id, name) == "ashml-svc-" + name + "-" + Id8(id)
    ensures TargetName(id, name, n) == FrontName(id, name) + "-v" + Decimal(n)
    ensures RouterName(id, name) == "ashml-router-" + name + "-" + Id8(id)
  {
    hide WithoutDashes, Id8, Decimal;
    StemInFull(name, MAX_NAME - |MANAGED_BY + "-"| - |Numbered("-" + Id8(id), '-', n)|);
    StemInFull(name, MAX_NAME - |MANAGED_BY + "-svc-"| - |"-" + Id8(id)|);
    StemInFull(name, MAX_NAME - |MANAGED_BY + "-svc-"| - |Numbered("-" + Id8(id) + "-", 'v', n)|);
    StemInFull(name, MAX_NAME - |MANAGED_BY + "-router-"| - |"-" + Id8(id)|);
  }

  lemma StemInFull(name: string, budget: int)
    requires name != [] && name[|name| - 1] != '-' && |name| <= budget
    ensures Stem(name, budget) == name
  {
  }

  // --------------------------------------------------------------- distinctness

  /** Two strings that end in the same kind of separator and numeral end in the same number. */
  lemma NumeralSuffixInjective(p: string, q: string, sep: char, m: nat, n: nat)
    requires !('0' <= sep <= '9')
    requires p + [sep] + Decimal(m) == q + [sep] + Decimal(n)
    ensures m == n
  {
    var s := p + [sep] + Decimal(m);
    var a, b := |Decimal(m)|, |Decimal(n)|;
    assert s[|s| - a - 1] == sep && s[|s| - b - 1] == sep;
    assert s[|s| - a..] == Decimal(m) && s[|s| - b..] == Decimal(n);
    assert a == b;
    DecimalInjective(m, n);
  }

  lemma NumberedNamesDistinct(prefix: string, name: string, stem: string, sep: char, m: nat, n: nat)
    requires !('0' <= sep <= '9')
    requires Assemble(prefix, name, Numbered(stem, sep, m)) == Assemble(prefix, name, Numbered(stem, sep, n))
    ensures m == n
  {
    var p := prefix + Stem(name, MAX_NAME - |prefix| - |Numbered(stem, sep, m)|) + stem;
    var q := prefix + Stem(name, MAX_NAME - |prefix| - |Numbered(stem, sep, n)|) + stem;
    assert Assemble(prefix, name, Numbered(stem, sep, m)) == p + [sep] + Decimal(m);
    assert Assemble(prefix, name, Numbered(stem, sep, n)) == q + [sep] + Decimal(n);
    NumeralSuffixInjective(p, q, sep, m, n);
  }

  /** Every attempt of a job has a Kubernetes Job of its own. */
  lemma JobNamesDistinct(id: string, name: string, a: nat, b: nat)
    requires JobName(id, name, a) == JobName(id, name, b)
    ensures a == b
  {
    NumberedNamesDistinct(MANAGED_BY + "-", name, "-" + Id8(id), '-', a, b);
  }

  /** A Job name is a legal label length for any attempt below 10^46. */
  lemma JobNameFits(id: string, name: string, attempt: nat)
    requires attempt < Pow10(46)
    ensures |JobName(id, name, attempt)| <= 63
  {
    DecimalLength(attempt, 46);
  }

  lemma ServingNamesFit(id: string, name: string, version: nat)
    requires version < Pow10(41)
    ensures |FrontName(id, name)| <= 63 && |TargetName(id, name, version)| <= 63 && |RouterName(id, name)| <= 63
  {
    DecimalLength(version, 41);
  }

  lemma TargetNamesDistinct(id: string, name: string, v: nat, w: nat)
    requires TargetName(id, name, v) == TargetName(id, name, w)
    ensures v == w
  {
    NumberedNamesDistinct(MANAGED_BY + "-svc-", name, "-" + Id8(id) + "-", 'v', v, w);
  }

  /**
   A version's objects never carry the name of the deployment's address.

   Removing a version deletes the Deployment and the Service of that name, so a collision
   here would delete the address along with the version. The hexadecimal identifier is
   what rules it out: the `v` of a version suffix is not a hexadecimal digit.
   */
  lemma FrontNameIsNoTarget(id: string, name: string, v: nat)
    requires ValidId(id)
    ensures FrontName(id, name) != TargetName(id, name, v)
  {
    var f, t := FrontName(id, name), TargetName(id, name, v);
    var d := |Decimal(v)|;
    assert f[|f| - 8..] == Id8(id) && f[|f| - 9] == '-';
    assert t[|t| - d..] == Decimal(v) && t[|t| - d - 1] == 'v';
    if |f| == |t| {
      if d <= 7 {
        assert f[|f| - d - 1] == Id8(id)[7 - d];
        assert f[|f| - d - 1] != t[|t| - d - 1];
      } else if d == 8 {
        assert f[|f| - 9] != t[|t| - 9];
      } else {
        assert t[|t| - 9] == Decimal(v)[d - 9];
        assert f[|f| - 9] != t[|t| - 9];
      }
    }
  }

  /** The router shares its name with neither a version nor the address. */
  lemma RouterNameIsItsOwn(id: string, name: string, v: nat)
    ensures RouterName(id, name) != TargetName(id, name, v)
    ensures RouterName(id, name) != FrontName(id, name)
  {
    assert RouterName(id, name)[6] == 'r';
    assert TargetName(id, name, v)[6] == 's';
    assert FrontName(id, name)[6] == 's';
  }
}
