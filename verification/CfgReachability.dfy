/** Attribute flattening and the bounded satisfiability proof that an item is unreachable. */
module CfgReachability {
  import opened Ids
  import opened CfgLogic
  import opened CompactTarget

  const MAX_ATOMS := 16

  // ---------- attributes ----------

  /** Metadata inside `cfg_attr`. */
  datatype Meta = CfgMeta(pred: Cfg) | CfgAttr(condition: Cfg, metas: seq<Meta>) | OtherMeta

  /** One attribute of an item. */
  datatype Attribute = Direct(pred: Cfg) | Conditional(condition: Cfg, metas: seq<Meta>) | OtherAttribute

  /** Emitted under a condition: `condition` implies `pred`. */
  datatype Rule = Rule(condition: Cfg, pred: Cfg)

  ghost predicate MetaHolds(m: Meta, b: Build) {
    match m
    case CfgMeta(p) => Holds(p, b)
    case CfgAttr(c, metas) => Holds(c, b) ==> forall i :: 0 <= i < |metas| ==> MetaHolds(metas[i], b)
    case OtherMeta => true
  }

  ghost predicate AttributeHolds(a: Attribute, b: Build) {
    match a
    case Direct(p) => Holds(p, b)
    case Conditional(c, metas) => Holds(c, b) ==> forall i :: 0 <= i < |metas| ==> MetaHolds(metas[i], b)
    case OtherAttribute => true
  }

  /** An item is compiled into a build when all its attributes hold. */
  ghost predicate Live(attrs: seq<Attribute>, b: Build) {
    forall i :: 0 <= i < |attrs| ==> AttributeHolds(attrs[i], b)
  }

  ghost predicate RulesHold(rules: seq<Rule>, b: Build) {
    forall i :: 0 <= i < |rules| ==> (Holds(rules[i].condition, b) ==> Holds(rules[i].pred, b))
  }

  ghost predicate AllHold(es: seq<Cfg>, b: Build) {
    forall i :: 0 <= i < |es| ==> Holds(es[i], b)
  }

  // ---------- flattening ----------

  function CombineConditions(left: Cfg, right: Cfg): Cfg {
    if EvaluatePredicate(left) == CfgTrue then right
    else if EvaluatePredicate(right) == CfgTrue then left
    else Call("all", [left, right])
  }

  /** Dropping a condition that always holds keeps the conjunction. */
  lemma CombineMeaning(left: Cfg, right: Cfg, b: Build)
    ensures Holds(CombineConditions(left, right), b) <==> Holds(left, b) && Holds(right, b)
  {
    EvaluateSound(left, b);
    EvaluateSound(right, b);
    var both := Call("all", [left, right]);
    assert both.args[0] == left && both.args[1] == right;
  }

  /** The rules a piece of metadata emits under a parent condition. */
  function MetaRules(m: Meta, parent: Cfg): seq<Rule>
    decreases m, 1
  {
    match m
    case CfgMeta(p) => [Rule(parent, p)]
    case CfgAttr(c, metas) => MetasRules(metas, CombineConditions(parent, c))
    case OtherMeta => []
  }

  function MetasRules(metas: seq<Meta>, condition: Cfg): seq<Rule>
    decreases metas, 0
  {
    if metas == [] then []
    else MetasRules(metas[..|metas| - 1], condition) + MetaRules(metas[|metas| - 1], condition)
  }

  lemma RulesConcat(r: seq<Rule>, q: seq<Rule>, b: Build)
    ensures RulesHold(r + q, b) <==> RulesHold(r, b) && RulesHold(q, b)
  {
    if RulesHold(r + q, b) {
      forall i | 0 <= i < |r|
        ensures Holds(r[i].condition, b) ==> Holds(r[i].pred, b)
      {
        assert (r + q)[i] == r[i];
      }
      forall i | 0 <= i < |q|
        ensures Holds(q[i].condition, b) ==> Holds(q[i].pred, b)
      {
        assert (r + q)[|r| + i] == q[i];
      }
    }
  }

  /**
   * Flattening preserves meaning: the rules hold exactly when the parent condition
   * implies what the nested metadata means.
   */
  lemma {:induction false} FlattenMeaning(m: Meta, parent: Cfg, b: Build)
    ensures RulesHold(MetaRules(m, parent), b) <==> (Holds(parent, b) ==> MetaHolds(m, b))
    decreases m, 1
  {
    match m
    case CfgMeta(p) =>
      assert MetaRules(m, parent)[0] == Rule(parent, p);
    case CfgAttr(c, metas) =>
      FlattenAll(metas, CombineConditions(parent, c), b);
      CombineMeaning(parent, c, b);
    case OtherMeta =>
  }

  lemma {:induction false} FlattenAll(metas: seq<Meta>, condition: Cfg, b: Build)
    ensures RulesHold(MetasRules(metas, condition), b) <==>
            (Holds(condition, b) ==> forall i :: 0 <= i < |metas| ==> MetaHolds(metas[i], b))
    decreases metas, 0
  {
    hide Holds, CombineConditions, MetaHolds, MetaRules;
    if metas != [] {
      var n := |metas| - 1;
      FlattenAll(metas[..n], condition, b);
      FlattenMeaning(metas[n], condition, b);
      RulesConcat(MetasRules(metas[..n], condition), MetaRules(metas[n], condition), b);
      assert forall i :: 0 <= i < n ==> metas[..n][i] == metas[i];
    }
  }

  /** The loop over nested metadata, extending a list. */
  method CollectMetaRules(m: Meta, parent: Cfg) returns (rules: seq<Rule>)
    ensures rules == MetaRules(m, parent)
  {
    match m {
      case CfgMeta(p) => return [Rule(parent, p)];
      case OtherMeta => return [];
      case CfgAttr(c, metas) =>
        var condition := CombineConditions(parent, c);
        rules := [];
        for i := 0 to |metas|
          invariant rules == MetasRules(metas[..i], condition)
        {
          assert metas[..i + 1][..i] == metas[..i];
          var nested := CollectMetaRules(metas[i], condition);
          rules := rules + nested;
        }
        assert metas[..|metas|] == metas;
    }
  }

  datatype Constraints = Constraints(predicates: seq<Cfg>, rules: seq<Rule>)

  function AttributeConstraints(a: Attribute): Constraints {
    match a
    case Direct(p) => Constraints([p], [])
    case Conditional(c, metas) => Constraints([], MetasRules(metas, c))
    case OtherAttribute => Constraints([], [])
  }

  function ChainConstraints(attrs: seq<Attribute>): Constraints {
    if attrs == [] then Constraints([], [])
    else
      var c, d := ChainConstraints(attrs[..|attrs| - 1]), AttributeConstraints(attrs[|attrs| - 1]);
      Constraints(c.predicates + d.predicates, c.rules + d.rules)
  }

  ghost predicate ConstraintsHold(c: Constraints, b: Build) {
    AllHold(c.predicates, b) && RulesHold(c.rules, b)
  }

  lemma AllHoldConcat(r: seq<Cfg>, q: seq<Cfg>, b: Build)
    ensures AllHold(r + q, b) <==> AllHold(r, b) && AllHold(q, b)
  {
    if AllHold(r + q, b) {
      forall i | 0 <= i < |r|
        ensures Holds(r[i], b)
      {
        assert (r + q)[i] == r[i];
      }
      forall i | 0 <= i < |q|
        ensures Holds(q[i], b)
      {
        assert (r + q)[|r| + i] == q[i];
      }
    }
  }

  lemma AttributeMeaning(a: Attribute, b: Build)
    ensures ConstraintsHold(AttributeConstraints(a), b) <==> AttributeHolds(a, b)
  {
    match a
    case Direct(p) =>
      assert AttributeConstraints(a).predicates[0] == p;
    case Conditional(c, metas) =>
      FlattenAll(metas, c, b);
    case OtherAttribute =>
  }

  /** A chain of attributes is live exactly when its collected constraints hold. */
  lemma {:induction false} ChainMeaning(attrs: seq<Attribute>, b: Build)
    ensures ConstraintsHold(ChainConstraints(attrs), b) <==> Live(attrs, b)
  {
    if attrs != [] {
      var n := |attrs| - 1;
      var c, d := ChainConstraints(attrs[..n]), AttributeConstraints(attrs[n]);
      ChainMeaning(attrs[..n], b);
      AttributeMeaning(attrs[n], b);
      AllHoldConcat(c.predicates, d.predicates, b);
      RulesConcat(c.rules, d.rules, b);
      assert forall i :: 0 <= i < n ==> attrs[..n][i] == attrs[i];
    }
  }

  // ---------- satisfiability by enumeration ----------

  /** `mask & (1 << i)`. */
  predicate Bit(mask: nat, i: nat) {
    if i == 0 then mask % 2 == 1 else Bit(mask / 2, i - 1)
  }

  /** The build that enables the atoms selected by a mask. */
  function MaskBuild(atoms: seq<Cfg>, mask: nat): Build {
    set i | 0 <= i < |atoms| && Bit(mask, i) :: atoms[i]
  }

  /** The mask of a build's enabled atoms. */
  function MaskOf(atoms: seq<Cfg>, b: Build): (mask: nat)
    ensures mask < Pow2(|atoms|)
  {
    if atoms == [] then 0
    else (if atoms[0] in b then 1 else 0) + 2 * MaskOf(atoms[1..], b)
  }

  lemma {:induction false} MaskOfBit(atoms: seq<Cfg>, b: Build, i: nat)
    requires i < |atoms|
    ensures Bit(MaskOf(atoms, b), i) <==> atoms[i] in b
  {
    if i > 0 {
      MaskOfBit(atoms[1..], b, i - 1);
    }
  }

  /** Every choice of atoms is reached by some mask. */
  lemma MaskCovers(atoms: seq<Cfg>, b: Build)
    ensures MaskBuild(atoms, MaskOf(atoms, b)) == b * Elems(atoms)
  {
    forall i | 0 <= i < |atoms|
      ensures Bit(MaskOf(atoms, b), i) <==> atoms[i] in b
    {
      MaskOfBit(atoms, b, i);
    }
  }

  function AllAtoms(es: seq<Cfg>): set<Cfg> {
    set i, a | 0 <= i < |es| && a in Atoms(es[i]) :: a
  }

  lemma AllAtomsDecide(es: seq<Cfg>, b: Build, b': Build)
    requires b * AllAtoms(es) == b' * AllAtoms(es)
    ensures AllHold(es, b) <==> AllHold(es, b')
  {
    forall i | 0 <= i < |es|
      ensures Holds(es[i], b) == Holds(es[i], b')
    {
      assert forall a :: a in Atoms(es[i]) ==> (a in b * AllAtoms(es) <==> a in b' * AllAtoms(es));
      AtomsDecide(es[i], b, b');
    }
  }

  ghost predicate Satisfiable(es: seq<Cfg>) {
    exists b: Build :: AllHold(es, b)
  }

  lemma SomeMaskSatisfies(es: seq<Cfg>, atoms: seq<Cfg>, b: Build)
    requires Elems(atoms) == AllAtoms(es) && AllHold(es, b)
    ensures AllHold(es, MaskBuild(atoms, MaskOf(atoms, b)))
  {
    MaskCovers(atoms, b);
    AllAtomsDecide(es, b, MaskBuild(atoms, MaskOf(atoms, b)));
  }

  method ListAtoms(s: set<Cfg>) returns (q: seq<Cfg>)
    ensures Elems(q) == s && |q| == |s|
  {
    q := [];
    var rest := s;
    while rest != {}
      invariant rest <= s && Elems(q) == s - rest && |q| + |rest| == |s|
      decreases |rest|
    {
      var x :| x in rest;
      ElemsSnoc(q, x);
      q := q + [x];
      rest := rest - {x};
    }
  }

  /** Tries every mask; gives up as satisfiable beyond sixteen atoms. */
  method FormulaSatisfiable(es: seq<Cfg>) returns (sat: bool)
    ensures |AllAtoms(es)| <= MAX_ATOMS ==> (sat <==> Satisfiable(es))
    ensures |AllAtoms(es)| > MAX_ATOMS ==> sat
  {
    hide Holds, Pow2, MaskBuild, MaskOf;
    var atoms := ListAtoms(AllAtoms(es));
    if |atoms| > MAX_ATOMS { return true; }
    for mask := 0 to Pow2(|atoms|)
      invariant forall m :: 0 <= m < mask ==> !AllHold(es, MaskBuild(atoms, m))
    {
      var b := MaskBuild(atoms, mask);
      if forall i :: 0 <= i < |es| ==> Holds(es[i], b) {
        assert AllHold(es, b);
        return true;
      }
      assert !AllHold(es, b);
    }
    forall b: Build | AllHold(es, b)
      ensures false
    {
      SomeMaskSatisfies(es, atoms, b);
    }
    return false;
  }

  // ---------- the verdict ----------

  function RuleFormula(r: Rule): Cfg {
    Call("any", [Call("not", [r.condition]), r.pred])
  }

  function RuleFormulas(rules: seq<Rule>): seq<Cfg> {
    seq(|rules|, i requires 0 <= i < |rules| => RuleFormula(rules[i]))
  }

  function Formulas(c: Constraints): seq<Cfg> {
    c.predicates + RuleFormulas(c.rules)
  }

  lemma RuleFormulaMeaning(r: Rule, b: Build)
    ensures Holds(RuleFormula(r), b) <==> (Holds(r.condition, b) ==> Holds(r.pred, b))
  {
    var f := RuleFormula(r);
    assert f.args[0] == Call("not", [r.condition]) && f.args[1] == r.pred;
    assert f.args[0].args[0] == r.condition;
    assert Holds(f.args[0], b) == !Holds(r.condition, b);
  }

  lemma FormulasMeaning(c: Constraints, b: Build)
    ensures AllHold(Formulas(c), b) <==> ConstraintsHold(c, b)
  {
    AllHoldConcat(c.predicates, RuleFormulas(c.rules), b);
    forall i | 0 <= i < |c.rules|
      ensures Holds(RuleFormulas(c.rules)[i], b) <==>
              (Holds(c.rules[i].condition, b) ==> Holds(c.rules[i].pred, b))
    {
      RuleFormulaMeaning(c.rules[i], b);
    }
  }

  ghost predicate Unreachable(c: Constraints) {
    forall b: Build :: !ConstraintsHold(c, b)
  }

  ghost predicate SomeDecidedFalse(es: seq<Cfg>) {
    exists i :: 0 <= i < |es| && EvaluatePredicate(es[i]) == CfgFalse
  }

  lemma UnreachableIsUnsat(c: Constraints)
    ensures Unreachable(c) <==> !Satisfiable(Formulas(c))
    ensures SomeDecidedFalse(Formulas(c)) ==> Unreachable(c)
  {
    forall b: Build
      ensures AllHold(Formulas(c), b) <==> ConstraintsHold(c, b)
    {
      FormulasMeaning(c, b);
    }
    if SomeDecidedFalse(Formulas(c)) {
      var i :| 0 <= i < |Formulas(c)| && EvaluatePredicate(Formulas(c)[i]) == CfgFalse;
      forall b: Build
        ensures !AllHold(Formulas(c), b)
      {
        EvaluateSound(Formulas(c)[i], b);
      }
    }
  }

  /**
   * Proves an item unreachable. Sound for every input, complete up to sixteen atoms,
   * and beyond that exactly the single-formula evaluator.
   */
  method ConstraintsProveFalse(c: Constraints) returns (r: bool)
    ensures r ==> Unreachable(c)
    ensures |AllAtoms(Formulas(c))| <= MAX_ATOMS ==> (r <==> Unreachable(c))
    ensures |AllAtoms(Formulas(c))| > MAX_ATOMS ==> (r <==> SomeDecidedFalse(Formulas(c)))
  {
    hide Unreachable, EvaluatePredicate, AllAtoms;
    var formulas := c.predicates;
    for i := 0 to |c.rules|
      invariant formulas == c.predicates + RuleFormulas(c.rules)[..i]
    {
      formulas := formulas + [RuleFormula(c.rules[i])];
    }
    assert RuleFormulas(c.rules)[..|c.rules|] == RuleFormulas(c.rules);
    assert formulas == Formulas(c);
    UnreachableIsUnsat(c);
    if formulas == [] {
      assert AllHold(formulas, {});
      return false;
    }
    if exists i :: 0 <= i < |formulas| && EvaluatePredicate(formulas[i]) == CfgFalse { return true; }
    var sat := FormulaSatisfiable(formulas);
    return !sat;
  }

  /** The whole question for one item's attribute chain. */
  method AttributesContradict(attrs: seq<Attribute>) returns (r: bool)
    ensures r ==> forall b: Build :: !Live(attrs, b)
    ensures |AllAtoms(Formulas(ChainConstraints(attrs)))| <= MAX_ATOMS ==>
              (r <==> forall b: Build :: !Live(attrs, b))
    ensures |AllAtoms(Formulas(ChainConstraints(attrs)))| > MAX_ATOMS ==>
              (r <==> SomeDecidedFalse(Formulas(ChainConstraints(attrs))))
  {
    hide SomeDecidedFalse, AllAtoms, Formulas, ChainConstraints, Live, ConstraintsHold;
    var c := ChainConstraints(attrs);
    r := ConstraintsProveFalse(c);
    forall b: Build
      ensures ConstraintsHold(c, b) <==> Live(attrs, b)
    {
      ChainMeaning(attrs, b);
    }
  }
}
