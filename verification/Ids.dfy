/** Block identifiers, their order, and the result type shared by every oracle. */
module Ids {

  datatype Option<+T> = None | Some(value: T)

  datatype Result<+T, +E> = Ok(value: T) | Err(error: E)

  /** Block labels and hex block hashes. */
  type Id = string

  const GENESIS: Id := "G"

  /** Strict lexicographic order by code point. */
  predicate Less(a: Id, b: Id) {
    if b == "" then false
    else if a == "" then true
    else if a[0] != b[0] then a[0] < b[0]
    else Less(a[1..], b[1..])
  }

  lemma {:induction false} LessIrreflexive(a: Id)
    ensures !Less(a, a)
  {
    if a != "" {
      LessIrreflexive(a[1..]);
    }
  }

  lemma {:induction false} LessTransitive(a: Id, b: Id, c: Id)
    requires Less(a, b) && Less(b, c)
    ensures Less(a, c)
  {
    if a != "" && a[0] == b[0] && b[0] == c[0] {
      LessTransitive(a[1..], b[1..], c[1..]);
    }
  }

  lemma {:induction false} LessTotal(a: Id, b: Id)
    ensures a == b || Less(a, b) || Less(b, a)
  {
    if a != "" && b != "" && a[0] == b[0] {
      LessTotal(a[1..], b[1..]);
      assert a == [a[0]] + a[1..] && b == [b[0]] + b[1..];
    }
  }

  /** `a` and `b` agree before `i`, where `a` ends or has the smaller character. */
  ghost predicate DiffersAt(a: Id, b: Id, i: nat) {
    && i <= |a| && i < |b| && a[..i] == b[..i]
    && (i == |a| || a[i] < b[i])
  }

  /** The order is decided at the first difference. */
  lemma {:induction false} LessExact(a: Id, b: Id)
    ensures Less(a, b) <==> exists i :: DiffersAt(a, b, i)
  {
    if a != "" && b != "" && a[0] == b[0] {
      LessExact(a[1..], b[1..]);
      forall i: nat
        ensures DiffersAt(a[1..], b[1..], i) <==> DiffersAt(a, b, i + 1)
      {
        DiffersLater(a, b, i);
      }
      assert !DiffersAt(a, b, 0);
      if i: nat :| DiffersAt(a, b, i) {
        assert DiffersAt(a[1..], b[1..], i - 1);
      }
    } else if b != "" && (a == "" || a[0] < b[0]) {
      assert DiffersAt(a, b, 0);
    } else if i: nat :| DiffersAt(a, b, i) {
      FirstDecides(a, b, i);
    }
  }

  lemma DiffersLater(a: Id, b: Id, i: nat)
    requires a != "" && b != "" && a[0] == b[0]
    ensures DiffersAt(a[1..], b[1..], i) <==> DiffersAt(a, b, i + 1)
  {
    if i < |a| && i < |b| {
      assert a[..i + 1] == [a[0]] + a[1..][..i] && b[..i + 1] == [b[0]] + b[1..][..i];
      assert a[..i + 1][1..] == a[1..][..i] && b[..i + 1][1..] == b[1..][..i];
    }
  }

  lemma FirstDecides(a: Id, b: Id, i: nat)
    requires DiffersAt(a, b, i)
    ensures b != "" && (a == "" || a[0] <= b[0])
  {
    if i > 0 {
      assert a[0] == a[..i][0] && b[0] == b[..i][0];
    }
  }

  /** The elements of a sequence. */
  function Elems<T>(s: seq<T>): (r: set<T>) {
    set x | x in s
  }

  ghost predicate Distinct<T>(s: seq<T>) {
    forall i, j :: 0 <= i < j < |s| ==> s[i] != s[j]
  }

  lemma ElemsCons<T>(x: T, q: seq<T>)
    ensures Elems([x] + q) == {x} + Elems(q)
  {
  }

  lemma ElemsSnoc<T>(q: seq<T>, x: T)
    ensures Elems(q + [x]) == Elems(q) + {x}
  {
  }

  /** Splits a list without repetitions at its head. */
  lemma DistinctHead<T>(q: seq<T>)
    requires q != [] && Distinct(q)
    ensures Distinct(q[1..])
    ensures Elems(q) == {q[0]} + Elems(q[1..])
    ensures q[0] !in Elems(q[1..])
  {
    assert q == [q[0]] + q[1..];
    ElemsCons(q[0], q[1..]);
  }

  lemma {:induction false} SubsetCard<T>(a: set<T>, b: set<T>)
    requires a <= b
    ensures |a| <= |b|
    ensures a != b ==> |a| < |b|
  {
    assert b == a + (b - a);
    if a != b {
      var x :| x in b - a;
      assert b - a == {x} + (b - a - {x});
    }
  }

  lemma {:induction false} DistinctCard<T>(s: seq<T>)
    ensures |Elems(s)| <= |s|
    ensures |Elems(s)| == |s| <==> Distinct(s)
  {
    if s != [] {
      var t := s[..|s| - 1];
      DistinctCard(t);
      assert s == t + [s[|s| - 1]];
      assert Elems(s) == Elems(t) + {s[|s| - 1]};
      if Distinct(t) && s[|s| - 1] !in t {
        assert Distinct(s);
      } else if !Distinct(t) {
        var i, j :| 0 <= i < j < |t| && t[i] == t[j];
        assert s[i] == s[j];
      } else {
        var i :| 0 <= i < |t| && t[i] == s[|s| - 1];
        assert s[i] == s[|s| - 1];
      }
    }
  }

  /** The smallest member of a nonempty set of labels: `sorted(...)[0]`. */
  method LeastId(s: set<Id>) returns (m: Id)
    requires s != {}
    ensures m in s
    ensures forall y :: y in s && y != m ==> Less(m, y)
  {
    m :| m in s;
    var rest := s - {m};
    while rest != {}
      invariant rest <= s && m in s
      invariant forall y :: y in s && y !in rest && y != m ==> Less(m, y)
      decreases |rest|
    {
      var c :| c in rest;
      if Less(c, m) {
        forall y | y in s && y !in rest && y != m
          ensures Less(c, y)
        {
          LessTransitive(c, m, y);
        }
        m := c;
      } else {
        LessTotal(c, m);
      }
      rest := rest - {c};
    }
  }

  ghost predicate Ascending(s: seq<Id>) {
    forall i, j :: 0 <= i < j < |s| ==> Less(s[i], s[j])
  }

  /** `sorted(s)` for a set of labels. */
  method SortIds(s: set<Id>) returns (r: seq<Id>)
    ensures Elems(r) == s && Ascending(r)
  {
    r := [];
    var rest := s;
    while rest != {}
      invariant rest <= s && Elems(r) == s - rest && Ascending(r)
      invariant forall i, y :: 0 <= i < |r| && y in rest ==> Less(r[i], y)
      decreases |rest|
    {
      hide Less;
      var m := LeastId(rest);
      ElemsSnoc(r, m);
      r := r + [m];
      rest := rest - {m};
    }
  }
}
