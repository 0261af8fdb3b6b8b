/** cfg predicates: their meaning, the three-valued evaluator and the contradiction check. */
module CfgLogic {
  import opened Ids

  /** A parsed predicate. Anything but `all`, `any` and a one-argument `not` is opaque. */
  datatype Cfg = Atom(key: string) | Call(name: string, args: seq<Cfg>)

  const TEST: Cfg := Atom("test")

  /** The cfg keys a build enables. `test` is never live in production. */
  type Build = set<Cfg>

  predicate IsNot(e: Cfg) {
    e.Call? && e.name == "not" && |e.args| == 1
  }

  /** Neither a connective nor a negation: looked up as a whole. */
  predicate IsOpaque(e: Cfg) {
    e.Atom? || (e.name != "all" && e.name != "any" && !IsNot(e))
  }

  /** Whether a build satisfies a predicate. */
  predicate Holds(e: Cfg, b: Build) {
    if IsOpaque(e) then e != TEST && e in b
    else if e.name == "all" then forall i :: 0 <= i < |e.args| ==> Holds(e.args[i], b)
    else if e.name == "any" then exists i :: 0 <= i < |e.args| && Holds(e.args[i], b)
    else !Holds(e.args[0], b)
  }

  // ---------- three-valued evaluation ----------

  datatype Truth = CfgFalse | CfgUnknown | CfgTrue

  function NotTruth(v: Truth): Truth {
    match v
    case CfgTrue => CfgFalse
    case CfgFalse => CfgTrue
    case CfgUnknown => CfgUnknown
  }

  /** The parser's value: unknown unless decided in every production build. */
  function Eval3(e: Cfg): Truth {
    match e
    case Atom(key) => if key == "test" then CfgFalse else CfgUnknown
    case Call(name, args) =>
      if name == "not" then
        if |args| == 1 then NotTruth(Eval3(args[0])) else CfgUnknown
      else if name == "all" then
        if exists i :: 0 <= i < |args| && Eval3(args[i]) == CfgFalse then CfgFalse
        else if forall i :: 0 <= i < |args| ==> Eval3(args[i]) == CfgTrue then CfgTrue
        else CfgUnknown
      else if name == "any" then
        if exists i :: 0 <= i < |args| && Eval3(args[i]) == CfgTrue then CfgTrue
        else if forall i :: 0 <= i < |args| ==> Eval3(args[i]) == CfgFalse then CfgFalse
        else CfgUnknown
      else CfgUnknown
  }

  /** A decided value is the value in every build. */
  lemma {:induction false} Eval3Sound(e: Cfg, b: Build)
    ensures Eval3(e) == CfgTrue ==> Holds(e, b)
    ensures Eval3(e) == CfgFalse ==> !Holds(e, b)
  {
    if e.Call? {
      forall i | 0 <= i < |e.args|
        ensures Eval3(e.args[i]) == CfgTrue ==> Holds(e.args[i], b)
        ensures Eval3(e.args[i]) == CfgFalse ==> !Holds(e.args[i], b)
      {
        Eval3Sound(e.args[i], b);
      }
    }
  }

  /** A value the predicate takes when every occurrence of an undecided atom may take either. */
  predicate CanBe(e: Cfg, value: bool) {
    if IsOpaque(e) then e != TEST || !value
    else if e.name == "all" then
      if value then forall i :: 0 <= i < |e.args| ==> CanBe(e.args[i], true)
      else exists i :: 0 <= i < |e.args| && CanBe(e.args[i], false)
    else if e.name == "any" then
      if value then exists i :: 0 <= i < |e.args| && CanBe(e.args[i], true)
      else forall i :: 0 <= i < |e.args| ==> CanBe(e.args[i], false)
    else CanBe(e.args[0], !value)
  }

  /** The evaluator decides exactly when only one value is possible. */
  lemma {:induction false} Eval3Exact(e: Cfg)
    ensures Eval3(e) == CfgTrue <==> !CanBe(e, false)
    ensures Eval3(e) == CfgFalse <==> !CanBe(e, true)
    ensures CanBe(e, true) || CanBe(e, false)
  {
    if e.Call? {
      forall i | 0 <= i < |e.args|
        ensures Eval3(e.args[i]) == CfgTrue <==> !CanBe(e.args[i], false)
        ensures Eval3(e.args[i]) == CfgFalse <==> !CanBe(e.args[i], true)
        ensures CanBe(e.args[i], true) || CanBe(e.args[i], false)
      {
        Eval3Exact(e.args[i]);
      }
    }
  }

  // ---------- literals of a conjunction ----------

  datatype Literal = Literal(key: Cfg, positive: bool)

  /** A possibly negated plain atom. */
  function LiteralSignature(e: Cfg): Option<Literal> {
    match e
    case Atom(_) => Some(Literal(e, true))
    case Call(name, args) =>
      if name != "not" || |args| != 1 then None
      else
        match LiteralSignature(args[0])
        case None => None
        case Some(l) => Some(Literal(l.key, !l.positive))
  }

  datatype Literals = Literals(positives: set<Cfg>, negatives: set<Cfg>, contradiction: bool)

  predicate Clash(l: Literals) {
    l.contradiction || l.positives * l.negatives != {}
  }

  /** The literals a predicate conjoins, and whether two of them clash. */
  function ConjunctionLiterals(e: Cfg): Literals
    decreases e, 1
  {
    if e.Call? && e.name == "all" then
      var l := UnionLiterals(e.args);
      Literals(l.positives, l.negatives, Clash(l))
    else
      match LiteralSignature(e)
      case None => Literals({}, {}, false)
      case Some(l) => if l.positive then Literals({l.key}, {}, false) else Literals({}, {l.key}, false)
  }

  function UnionLiterals(args: seq<Cfg>): Literals
    decreases args, 0
  {
    if args == [] then Literals({}, {}, false)
    else
      var l, m := UnionLiterals(args[..|args| - 1]), ConjunctionLiterals(args[|args| - 1]);
      Literals(l.positives + m.positives, l.negatives + m.negatives, l.contradiction || m.contradiction)
  }

  lemma {:induction false} SignatureMeaning(e: Cfg, b: Build)
    requires LiteralSignature(e).Some?
    ensures var l := LiteralSignature(e).value; Holds(e, b) == (Holds(l.key, b) == l.positive)
  {
    if e.Call? {
      SignatureMeaning(e.args[0], b);
    }
  }

  /** A satisfied predicate satisfies all its literals, so nothing clashes. */
  ghost predicate Agrees(l: Literals, b: Build) {
    && (forall k :: k in l.positives ==> Holds(k, b))
    && (forall k :: k in l.negatives ==> !Holds(k, b))
    && !l.contradiction
  }

  lemma AgreesNoClash(l: Literals, b: Build)
    requires Agrees(l, b)
    ensures !Clash(l)
  {
    assert l.positives * l.negatives == {};
  }

  lemma {:induction false} LiteralsAgree(e: Cfg, b: Build)
    requires Holds(e, b)
    ensures Agrees(ConjunctionLiterals(e), b)
    decreases e, 1
  {
    if e.Call? && e.name == "all" {
      UnionAgrees(e.args, b);
      AgreesNoClash(UnionLiterals(e.args), b);
    } else if LiteralSignature(e).Some? {
      SignatureMeaning(e, b);
    }
  }

  lemma {:induction false} UnionAgrees(args: seq<Cfg>, b: Build)
    requires forall i :: 0 <= i < |args| ==> Holds(args[i], b)
    ensures Agrees(UnionLiterals(args), b)
    decreases args, 0
  {
    if args != [] {
      UnionAgrees(args[..|args| - 1], b);
      LiteralsAgree(args[|args| - 1], b);
    }
  }

  /** `n` negations around an atom. */
  function Negated(a: Cfg, n: nat): Cfg {
    if n == 0 then a else Call("not", [Negated(a, n - 1)])
  }

  /** A literal is an atom under negations, positive when they are even in number. */
  lemma {:induction false} SignatureExact(e: Cfg, l: Literal)
    ensures LiteralSignature(e) == Some(l) <==> l.key.Atom? && exists n: nat :: IsLiteral(e, l, n)
  {
    if e.Call? && e.name == "not" && |e.args| == 1 {
      var inner := Literal(l.key, !l.positive);
      SignatureExact(e.args[0], inner);
      assert e.args == [e.args[0]];
      if n: nat :| IsLiteral(e, l, n) && l.key.Atom? {
        assert IsLiteral(e.args[0], inner, n - 1);
      }
      if n: nat :| IsLiteral(e.args[0], inner, n) {
        assert IsLiteral(e, l, n + 1);
      }
    } else {
      assert e.Atom? ==> IsLiteral(e, Literal(e, true), 0);
      forall n: nat | n > 0
        ensures !IsLiteral(e, l, n)
      {
        NotALiteral(e, l, n);
      }
    }
  }

  ghost predicate IsLiteral(e: Cfg, l: Literal, n: nat) {
    e == Negated(l.key, n) && l.positive == (n % 2 == 0)
  }

  lemma NotALiteral(e: Cfg, l: Literal, n: nat)
    requires !IsNot(e) && n > 0
    ensures !IsLiteral(e, l, n)
  {
  }

  /** A conjunct found by descending through `all` alone. */
  ghost predicate Conjunct(e: Cfg, x: Cfg)
    decreases e
  {
    if e.Call? && e.name == "all" then exists i :: 0 <= i < |e.args| && Conjunct(e.args[i], x) else x == e
  }

  ghost predicate SomeConjunct(e: Cfg, key: Cfg, positive: bool) {
    exists x :: Conjunct(e, x) && LiteralSignature(x) == Some(Literal(key, positive))
  }

  predicate Collected(l: Literals, key: Cfg, positive: bool) {
    if positive then key in l.positives else key in l.negatives
  }

  /** A conjunct of an `all` is a conjunct of one of its arguments. */
  lemma AllConjunct(e: Cfg, key: Cfg, positive: bool)
    requires e.Call? && e.name == "all"
    ensures SomeConjunct(e, key, positive) <==>
            exists i :: 0 <= i < |e.args| && SomeConjunct(e.args[i], key, positive)
  {
    if i :| 0 <= i < |e.args| && SomeConjunct(e.args[i], key, positive) {
      var x :| Conjunct(e.args[i], x) && LiteralSignature(x) == Some(Literal(key, positive));
      assert Conjunct(e, x);
    }
  }

  /** The collected literals are exactly those of the conjuncts. */
  lemma {:induction false} LiteralsExact(e: Cfg, key: Cfg, positive: bool)
    ensures Collected(ConjunctionLiterals(e), key, positive) <==> SomeConjunct(e, key, positive)
    decreases e, 1
  {
    if e.Call? && e.name == "all" {
      UnionExact(e.args, key, positive);
      AllConjunct(e, key, positive);
    } else {
      assert Conjunct(e, e);
    }
  }

  lemma {:induction false} UnionExact(args: seq<Cfg>, key: Cfg, positive: bool)
    ensures Collected(UnionLiterals(args), key, positive) <==>
            exists i :: 0 <= i < |args| && SomeConjunct(args[i], key, positive)
    decreases args, 0
  {
    if args != [] {
      var front, last := args[..|args| - 1], args[|args| - 1];
      UnionExact(front, key, positive);
      LiteralsExact(last, key, positive);
      hide SomeConjunct, ConjunctionLiterals;
      if i :| 0 <= i < |front| && SomeConjunct(front[i], key, positive) {
        assert SomeConjunct(args[i], key, positive);
      }
      if i :| 0 <= i < |args| && SomeConjunct(args[i], key, positive) {
        assert i < |front| ==> SomeConjunct(front[i], key, positive);
      }
    }
  }

  /** Both signs of a key are among the conjuncts. */
  ghost predicate Opposed(e: Cfg, key: Cfg) {
    SomeConjunct(e, key, true) && SomeConjunct(e, key, false)
  }

  predicate Contradictory(e: Cfg) {
    Clash(ConjunctionLiterals(e))
  }

  lemma OpposedExact(e: Cfg, key: Cfg)
    ensures Opposed(e, key) <==>
            key in ConjunctionLiterals(e).positives && key in ConjunctionLiterals(e).negatives
  {
    LiteralsExact(e, key, true);
    LiteralsExact(e, key, false);
    hide ConjunctionLiterals, SomeConjunct;
  }

  /** A predicate is contradictory exactly when some key occurs with both signs among its conjuncts. */
  lemma ContradictoryExact(e: Cfg)
    ensures Contradictory(e) <==> exists key :: Opposed(e, key)
  {
    hide ConjunctionLiterals, Opposed;
    ClashExact(e);
    forall key
      ensures Opposed(e, key) <==> key in ConjunctionLiterals(e).positives * ConjunctionLiterals(e).negatives
    {
      OpposedExact(e, key);
    }
    var l := ConjunctionLiterals(e);
    if l.positives * l.negatives != {} {
      var key :| key in l.positives * l.negatives;
      assert Opposed(e, key);
    }
  }

  /** A clash found in a part is a clash of the whole. */
  lemma {:induction false} ClashExact(e: Cfg)
    ensures ConjunctionLiterals(e).contradiction ==>
              ConjunctionLiterals(e).positives * ConjunctionLiterals(e).negatives != {}
    decreases e, 1
  {
    if e.Call? && e.name == "all" {
      UnionClash(e.args);
    }
  }

  lemma {:induction false} UnionClash(args: seq<Cfg>)
    ensures UnionLiterals(args).contradiction ==> UnionLiterals(args).positives * UnionLiterals(args).negatives != {}
    decreases args, 0
  {
    if args != [] {
      var l, m := UnionLiterals(args[..|args| - 1]), ConjunctionLiterals(args[|args| - 1]);
      UnionClash(args[..|args| - 1]);
      ClashExact(args[|args| - 1]);
      if l.contradiction {
        var k :| k in l.positives * l.negatives;
        assert k in UnionLiterals(args).positives * UnionLiterals(args).negatives;
      } else if m.contradiction {
        var k :| k in m.positives * m.negatives;
        assert k in UnionLiterals(args).positives * UnionLiterals(args).negatives;
      }
    }
  }

  function EvaluatePredicate(e: Cfg): Truth {
    if Contradictory(e) then CfgFalse else Eval3(e)
  }

  /** The evaluator decides nothing that some build contradicts. */
  lemma EvaluateSound(e: Cfg, b: Build)
    ensures EvaluatePredicate(e) == CfgTrue ==> Holds(e, b)
    ensures EvaluatePredicate(e) == CfgFalse ==> !Holds(e, b)
  {
    Eval3Sound(e, b);
    if Holds(e, b) {
      LiteralsAgree(e, b);
      AgreesNoClash(ConjunctionLiterals(e), b);
    }
  }

  /** The loop over the conjuncts, with growing sets. */
  method CollectLiterals(e: Cfg) returns (l: Literals)
    ensures l == ConjunctionLiterals(e)
  {
    if e.Call? && e.name == "all" {
      var positives, negatives, contradiction := {}, {}, false;
      for i := 0 to |e.args|
        invariant UnionLiterals(e.args[..i]) == Literals(positives, negatives, contradiction)
      {
        assert e.args[..i + 1][..i] == e.args[..i];
        var m := CollectLiterals(e.args[i]);
        positives := positives + m.positives;
        negatives := negatives + m.negatives;
        contradiction := contradiction || m.contradiction;
      }
      assert e.args[..|e.args|] == e.args;
      contradiction := contradiction || positives * negatives != {};
      return Literals(positives, negatives, contradiction);
    }
    match LiteralSignature(e) {
      case None => return Literals({}, {}, false);
      case Some(lit) =>
        return if lit.positive then Literals({lit.key}, {}, false) else Literals({}, {lit.key}, false);
    }
  }

  // ---------- atoms ----------

  /** The keys a predicate looks up, `test` excepted. */
  function Atoms(e: Cfg): set<Cfg> {
    if IsOpaque(e) then (if e == TEST then {} else {e})
    else set i, a | 0 <= i < |e.args| && a in Atoms(e.args[i]) :: a
  }

  /** Only the enabled atoms of a predicate matter. */
  lemma {:induction false} AtomsDecide(e: Cfg, b: Build, b': Build)
    requires b * Atoms(e) == b' * Atoms(e)
    ensures Holds(e, b) == Holds(e, b')
  {
    if IsOpaque(e) {
      assert e in b * Atoms(e) <==> e in b' * Atoms(e);
    } else {
      forall i | 0 <= i < |e.args|
        ensures Holds(e.args[i], b) == Holds(e.args[i], b')
      {
        assert forall a :: a in Atoms(e.args[i]) ==> (a in b * Atoms(e) <==> a in b' * Atoms(e));
        AtomsDecide(e.args[i], b, b');
      }
    }
  }

  /** An opaque part reached through the connectives. */
  ghost predicate Looked(e: Cfg, a: Cfg)
    decreases e
  {
    if IsOpaque(e) then a == e else exists i :: 0 <= i < |e.args| && Looked(e.args[i], a)
  }

  /** The atoms are exactly the opaque parts other than `test`. */
  lemma {:induction false} AtomsExact(e: Cfg, a: Cfg)
    ensures a in Atoms(e) <==> a != TEST && Looked(e, a)
  {
    if !IsOpaque(e) {
      forall i | 0 <= i < |e.args|
        ensures a in Atoms(e.args[i]) <==> a != TEST && Looked(e.args[i], a)
      {
        AtomsExact(e.args[i], a);
      }
    }
  }
}
