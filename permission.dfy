/**
 * The immutable outcome of one permission request: its name, whether it was
 * granted, and whether the platform would show a rationale for it. Several
 * outcomes can be combined into one summary outcome.
 */
module Permissions {
  import opened Wrappers
  import opened Sequences

  /** A permission outcome; the rationale flag is false unless it is given. */
  datatype Permission = Permission(name: string, granted: bool, shouldShowRationale: bool := false)

  /** The names of `ps`, in order. */
  function Names(ps: seq<Permission>): (r: seq<string>)
    ensures |r| == |ps|
    ensures forall i :: 0 <= i < |ps| ==> r[i] == ps[i].name
  {
    seq(|ps|, i requires 0 <= i < |ps| => ps[i].name)
  }

  /**
   * The list-combining constructor: names joined with ", ", granted only if no
   * element is denied, rationale only if no element lacks it. The list may be empty.
   */
  function Combine(ps: seq<Permission>): (r: Permission)
    ensures r.name == JoinToString(Names(ps))
    ensures r.granted <==> forall i :: 0 <= i < |ps| ==> ps[i].granted
    ensures r.shouldShowRationale <==> forall i :: 0 <= i < |ps| ==> ps[i].shouldShowRationale
  {
    Permission(
      JoinToString(Names(ps)),
      FirstOrNull(ps, (p: Permission) => !p.granted) == None,
      FirstOrNull(ps, (p: Permission) => !p.shouldShowRationale) == None)
  }

  /** An omitted rationale flag is false. */
  lemma RationaleDefaultsToFalse(name: string, granted: bool)
    ensures !Permission(name, granted).shouldShowRationale
  {
  }

  /** Combining a single outcome gives back that outcome. */
  lemma CombineSingleton(p: Permission)
    ensures Combine([p]) == p
  {
    assert Names([p]) == [p.name];
  }

  /**
   * The combined rationale flag is a conjunction: one element with a rationale
   * and one without give a combination without.
   */
  lemma CombineRationaleIsConjunction(a: Permission, b: Permission)
    requires a.shouldShowRationale && !b.shouldShowRationale
    ensures !Combine([a, b]).shouldShowRationale
  {
    assert [a, b][1] == b;
  }

  lemma NamesAppend(a: seq<Permission>, b: seq<Permission>)
    ensures Names(a + b) == Names(a) + Names(b)
  {
  }

  /** The name of a two-element combination is the two names joined. */
  lemma CombinePairName(p: Permission, q: Permission)
    ensures Combine([p, q]).name == p.name + ", " + q.name
  {
    assert Names([p, q]) == [p.name, q.name];
    assert [p.name, q.name][1..] == [q.name];
    assert JoinToString([q.name]) == q.name;
  }

  /** The flags of a two-element combination are the conjunctions of the two flags. */
  lemma CombinePairFlags(p: Permission, q: Permission)
    ensures Combine([p, q]).granted == (p.granted && q.granted)
    ensures Combine([p, q]).shouldShowRationale == (p.shouldShowRationale && q.shouldShowRationale)
  {
    assert [p, q][0] == p && [p, q][1] == q;
  }

  /** Every element of a concatenation comes from one of its halves. */
  lemma AppendCovers(a: seq<Permission>, b: seq<Permission>, k: nat)
    requires k < |a + b|
    ensures (k < |a| && (a + b)[k] == a[k]) || (|a| <= k && (a + b)[k] == b[k - |a|])
  {
  }

  lemma CombineGrantedAppend(a: seq<Permission>, b: seq<Permission>)
    ensures Combine(a + b).granted == (Combine(a).granted && Combine(b).granted)
  {
    if !Combine(a + b).granted {
      var k :| 0 <= k < |a + b| && !(a + b)[k].granted;
      AppendCovers(a, b, k);
    } else {
      assert forall i :: 0 <= i < |a| ==> (a + b)[i] == a[i];
      assert forall i :: 0 <= i < |b| ==> (a + b)[|a| + i] == b[i];
    }
  }

  lemma CombineRationaleAppend(a: seq<Permission>, b: seq<Permission>)
    ensures Combine(a + b).shouldShowRationale == (Combine(a).shouldShowRationale && Combine(b).shouldShowRationale)
  {
    if !Combine(a + b).shouldShowRationale {
      var k :| 0 <= k < |a + b| && !(a + b)[k].shouldShowRationale;
      AppendCovers(a, b, k);
    } else {
      assert forall i :: 0 <= i < |a| ==> (a + b)[i] == a[i];
      assert forall i :: 0 <= i < |b| ==> (a + b)[|a| + i] == b[i];
    }
  }

  /** Combining is associative: a concatenation combines as the combination of its two halves. */
  lemma CombineAppend(a: seq<Permission>, b: seq<Permission>)
    requires |a| > 0 && |b| > 0
    ensures Combine(a + b) == Combine([Combine(a), Combine(b)])
  {
    NamesAppend(a, b);
    JoinToStringAppend(Names(a), Names(b));
    CombinePairName(Combine(a), Combine(b));
    CombinePairFlags(Combine(a), Combine(b));
    CombineGrantedAppend(a, b);
    CombineRationaleAppend(a, b);
  }

  /**
   * `equals` against a possibly-null other object: equal iff the other is a
   * Permission with the same granted flag, rationale flag and name.
   */
  function Equals(p: Permission, o: Option<Permission>): (r: bool)
    ensures r <==> o == Some(p)
  {
    match o
    case None => false
    case Some(that) =>
      if p.granted != that.granted then false
      else if p.shouldShowRationale != that.shouldShowRationale then false
      else p.name == that.name
  }

  lemma EqualsReflexive(p: Permission)
    ensures Equals(p, Some(p))
  {
  }

  lemma EqualsSymmetric(p: Permission, q: Permission)
    ensures Equals(p, Some(q)) == Equals(q, Some(p))
  {
  }

  // ---- hashCode, with Java's 32-bit signed arithmetic ----

  const TWO_TO_THE_32: int := 0x1_0000_0000

  newtype int32 = x: int | -0x8000_0000 <= x < 0x8000_0000

  /** Two's-complement truncation of an unbounded integer to 32 bits. */
  function Wrap32(x: int): (r: int32)
    ensures r as int % TWO_TO_THE_32 == x % TWO_TO_THE_32
  {
    var m := x % TWO_TO_THE_32;
    (if m >= 0x8000_0000 then m - TWO_TO_THE_32 else m) as int32
  }

  /** Integers congruent modulo 2^32 stay congruent under 31 * x + c. */
  lemma CongruentStep(a: int, b: int, c: int)
    requires a % TWO_TO_THE_32 == b % TWO_TO_THE_32
    ensures (31 * a + c) % TWO_TO_THE_32 == (31 * b + c) % TWO_TO_THE_32
  {
    var qa, qb := a / TWO_TO_THE_32, b / TWO_TO_THE_32;
    assert a == TWO_TO_THE_32 * qa + a % TWO_TO_THE_32;
    assert b == TWO_TO_THE_32 * qb + b % TWO_TO_THE_32;
    var d := 31 * (qa - qb);
    assert 31 * a + c == (31 * b + c) + TWO_TO_THE_32 * d;
    ShiftByMultiple(31 * b + c, d);
  }

  lemma ShiftByMultiple(x: int, d: int)
    ensures (x + TWO_TO_THE_32 * d) % TWO_TO_THE_32 == x % TWO_TO_THE_32
  {
    var q := x / TWO_TO_THE_32;
    var m := x % TWO_TO_THE_32;
    assert x + TWO_TO_THE_32 * d == TWO_TO_THE_32 * (q + d) + m;
  }

  /** Integers one apart are different after truncation to 32 bits. */
  lemma Wrap32Step(a: int)
    ensures Wrap32(a + 1) != Wrap32(a)
  {
    var m := a % TWO_TO_THE_32;
    assert (a + 1) % TWO_TO_THE_32 == if m + 1 == TWO_TO_THE_32 then 0 else m + 1;
  }

  /** 31 to the power n. */
  function Pow31(n: nat): (r: nat)
    ensures r >= 1
  {
    if n == 0 then 1 else 31 * Pow31(n - 1)
  }

  /**
   * The value Java documents for `String.hashCode` before truncation:
   * s[0] * 31^(n-1) + s[1] * 31^(n-2) + ... + s[n-1].
   */
  function PolynomialHash(s: string): int
  {
    if s == [] then 0 else s[0] as int * Pow31(|s| - 1) + PolynomialHash(s[1..])
  }

  /** Appending a character multiplies the polynomial by 31 and adds the character. */
  lemma {:induction false} PolynomialHashSnoc(s: string, c: char)
    ensures PolynomialHash(s + [c]) == 31 * PolynomialHash(s) + c as int
  {
    if s == [] {
      assert [c][1..] == [];
    } else {
      assert (s + [c])[1..] == s[1..] + [c];
      PolynomialHashSnoc(s[1..], c);
      assert s[0] as int * Pow31(|s|) == 31 * (s[0] as int * Pow31(|s| - 1));
    }
  }

  /** `String.hashCode`: h = 31 * h + c over the characters, in 32-bit arithmetic. */
  function StringHash(s: string): int32
  {
    if s == [] then 0
    else Wrap32(31 * StringHash(s[..|s| - 1]) as int + s[|s| - 1] as int)
  }

  /** The step-by-step 32-bit hash is the documented polynomial modulo 2^32. */
  lemma {:induction false} StringHashIsPolynomial(s: string)
    ensures StringHash(s) as int % TWO_TO_THE_32 == PolynomialHash(s) % TWO_TO_THE_32
    decreases |s|
  {
    if s != [] {
      var init, c := s[..|s| - 1], s[|s| - 1];
      assert s == init + [c];
      StringHashIsPolynomial(init);
      PolynomialHashSnoc(init, c);
      CongruentStep(StringHash(init) as int, PolynomialHash(init), c as int);
    }
  }

  function HashCode(p: Permission): int32
  {
    var result := StringHash(p.name);
    var result := Wrap32(31 * result as int + if p.granted then 1 else 0);
    Wrap32(31 * result as int + if p.shouldShowRationale then 1 else 0)
  }

  /**
   * `hashCode` is 31^2 * hash(name) + 31 * granted + rationale (flags as 0 or 1),
   * taken modulo 2^32.
   */
  lemma HashCodeIsPolynomial(p: Permission)
    ensures HashCode(p) as int % TWO_TO_THE_32 ==
            (961 * PolynomialHash(p.name) + 31 * (if p.granted then 1 else 0) + (if p.shouldShowRationale then 1 else 0))
            % TWO_TO_THE_32
  {
    var g, r := if p.granted then 1 else 0, if p.shouldShowRationale then 1 else 0;
    var h := StringHash(p.name);
    StringHashIsPolynomial(p.name);
    CongruentStep(h as int, PolynomialHash(p.name), g);
    var x := Wrap32(31 * h as int + g);
    CongruentStep(x as int, 31 * PolynomialHash(p.name) + g, r);
  }

  /** Equal outcomes have equal hash codes. */
  lemma HashCodeConsistentWithEquals(p: Permission, q: Permission)
    requires Equals(p, Some(q))
    ensures HashCode(p) == HashCode(q)
  {
  }

  /** Values one apart modulo 2^32 stay apart after 31 * x + c in 32-bit arithmetic. */
  lemma WrapSeparates(x: int32, y: int32, c: int)
    requires (x as int - y as int - 1) % TWO_TO_THE_32 == 0
    ensures Wrap32(31 * x as int + c) != Wrap32(31 * y as int + c)
  {
    var a, b := 31 * x as int + c, 31 * y as int + c;
    if x as int - y as int == 1 {
      assert a == b + 31;
    } else {
      assert x as int - y as int == 1 - TWO_TO_THE_32;
      assert a == b + 31 - 31 * TWO_TO_THE_32;
    }
  }

  /** Outcomes that differ only in the granted flag have different hash codes. */
  lemma HashCodeSeparatesGranted(p: Permission, q: Permission)
    requires p.name == q.name && p.shouldShowRationale == q.shouldShowRationale
    requires p.granted && !q.granted
    ensures HashCode(p) != HashCode(q)
  {
    var h := StringHash(p.name);
    var x, y := Wrap32(31 * h as int + 1), Wrap32(31 * h as int);
    assert (x as int - y as int - 1) % TWO_TO_THE_32 == 0;
    WrapSeparates(x, y, if p.shouldShowRationale then 1 else 0);
  }

  /** Outcomes that differ only in the rationale flag have different hash codes. */
  lemma HashCodeSeparatesRationale(p: Permission, q: Permission)
    requires p.name == q.name && p.granted == q.granted
    requires p.shouldShowRationale && !q.shouldShowRationale
    ensures HashCode(p) != HashCode(q)
  {
    var h := StringHash(p.name);
    var x := Wrap32(31 * h as int + if p.granted then 1 else 0);
    Wrap32Step(31 * x as int);
  }
}
