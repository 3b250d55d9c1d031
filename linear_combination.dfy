/** `LinearCombination`: a list of coefficients paired with a list of operators,
    the sum of `coeffs[k] * ops[k]`, with its term-list algebra (`+`, scalar `*`,
    `@`), wire relabelling, flattening and the order-independent term data. */
module LinearCombinations {
  import opened Common

  /** An operator, abstractly: a named operator on a list of wires (arithmetic
      depth 0), or a product of operators. */
  datatype Operator = Named(name: string, wires: seq<Wire>) | Prod(factors: seq<Operator>)

  /** The wires an operator acts on. */
  function OpWires(op: Operator): set<Wire>
    decreases op
  {
    match op
    case Named(_, ws) => set w | w in ws
    case Prod(fs) => FactorWires(fs)
  }

  function FactorWires(fs: seq<Operator>): set<Wire>
    decreases fs
  {
    if fs == [] then {} else FactorWires(fs[..|fs| - 1]) + OpWires(fs[|fs| - 1])
  }

  /** The operator's name as recorded in its term data. */
  function OpName(op: Operator): string
  {
    if op.Named? then op.name else "Prod"
  }

  lemma {:induction false} FactorWiresCover(fs: seq<Operator>)
    ensures forall k :: 0 <= k < |fs| ==> OpWires(fs[k]) <= FactorWires(fs)
    ensures forall w :: w in FactorWires(fs) ==> exists k :: 0 <= k < |fs| && w in OpWires(fs[k])
    decreases |fs|
  {
    if fs != [] {
      var n := |fs| - 1;
      FactorWiresCover(fs[..n]);
      assert forall k :: 0 <= k < n ==> fs[..n][k] == fs[k];
    }
  }

  /** The wires of a list of operators: exactly the union of theirs. */
  function OpsWires(ops: seq<Operator>): (r: set<Wire>)
    ensures forall k :: 0 <= k < |ops| ==> OpWires(ops[k]) <= r
    ensures forall w :: w in r ==> exists k :: 0 <= k < |ops| && w in OpWires(ops[k])
  {
    FactorWiresCover(ops);
    FactorWires(ops)
  }

  /** The wires of a concatenation of factor lists are the union of both lists' wires. */
  lemma {:induction false} FactorWiresAppend(xs: seq<Operator>, ys: seq<Operator>)
    ensures FactorWires(xs + ys) == FactorWires(xs) + FactorWires(ys)
    decreases |ys|
  {
    if ys == [] {
      assert xs + ys == xs;
    } else {
      var n := |ys| - 1;
      FactorWiresAppend(xs, ys[..n]);
      assert (xs + ys)[..|xs + ys| - 1] == xs + ys[..n];
    }
  }

  /** The factors an operand contributes to a `lazy=False` product: its own factors
      when it is a product, otherwise itself. */
  function Spliced(a: Operator): (r: seq<Operator>)
    ensures FactorWires(r) == OpWires(a)
  {
    if a.Prod? then a.factors
    else
      assert [a][..0] == [];
      [a]
  }

  /** `qml.prod(a, b, lazy=False)`: the factors of product operands are spliced in,
      so the product acts on exactly the wires of its two operands. */
  function Product(a: Operator, b: Operator): (r: Operator)
    ensures r.Prod?
    ensures |r.factors| == (if a.Prod? then |a.factors| else 1) + (if b.Prod? then |b.factors| else 1)
    ensures OpWires(r) == OpWires(a) + OpWires(b)
  {
    FactorWiresAppend(Spliced(a), Spliced(b));
    Prod(Spliced(a) + Spliced(b))
  }

  /** `itertools.product(xs, ys)`: every pair, the first component varying slowest. */
  function Cartesian<A, B>(xs: seq<A>, ys: seq<B>): seq<(A, B)>
    decreases |xs|
  {
    if xs == [] then []
    else
      var n := |xs| - 1;
      Cartesian(xs[..n], ys) + seq(|ys|, j requires 0 <= j < |ys| => (xs[n], ys[j]))
  }

  lemma {:induction false} CartesianLength<A, B>(xs: seq<A>, ys: seq<B>)
    ensures |Cartesian(xs, ys)| == |xs| * |ys|
    decreases |xs|
  {
    if xs != [] {
      var n := |xs| - 1;
      CartesianLength(xs[..n], ys);
      assert |xs| * |ys| == n * |ys| + |ys|;
    }
  }

  /** Pair `i * |ys| + j` is `(xs[i], ys[j])`. */
  lemma {:induction false} CartesianAt<A, B>(xs: seq<A>, ys: seq<B>, i: nat, j: nat)
    requires i < |xs| && j < |ys|
    ensures i * |ys| + j < |Cartesian(xs, ys)|
    ensures Cartesian(xs, ys)[i * |ys| + j] == (xs[i], ys[j])
    decreases |xs|
  {
    var n := |xs| - 1;
    var pre := xs[..n];
    CartesianLength(pre, ys);
    var last := seq(|ys|, j requires 0 <= j < |ys| => (xs[n], ys[j]));
    assert Cartesian(xs, ys) == Cartesian(pre, ys) + last;
    var k := i * |ys| + j;
    if i < n {
      CartesianAt(pre, ys, i, j);
      assert pre[i] == xs[i];
    } else {
      assert k == |Cartesian(pre, ys)| + j;
    }
  }

  /** `qml.math.kron(c1, c2)`: the products of the coefficient pairs. */
  function Kron(c1: seq<real>, c2: seq<real>): (r: seq<real>)
    ensures |r| == |Cartesian(c1, c2)|
  {
    var ps := Cartesian(c1, c2);
    seq(|ps|, k requires 0 <= k < |ps| => ps[k].0 * ps[k].1)
  }

  /** The `lazy=False` products of the operator pairs. */
  function Products(o1: seq<Operator>, o2: seq<Operator>): (r: seq<Operator>)
    ensures |r| == |Cartesian(o1, o2)|
  {
    var ps := Cartesian(o1, o2);
    seq(|ps|, k requires 0 <= k < |ps| => Product(ps[k].0, ps[k].1))
  }

  /** The product of two combinations has `|c1| * |c2|` terms. */
  lemma KronLength(c1: seq<real>, o1: seq<Operator>, c2: seq<real>, o2: seq<Operator>)
    requires |c1| == |o1| && |c2| == |o2|
    ensures |Kron(c1, c2)| == |c1| * |c2| == |Products(o1, o2)|
  {
    CartesianLength(c1, c2);
    CartesianLength(o1, o2);
  }

  /** Term `i * |c2| + j` of the product of two combinations has coefficient
      `c1[i] * c2[j]` and operator `prod(o1[i], o2[j])`. */
  lemma KronTerms(c1: seq<real>, o1: seq<Operator>, c2: seq<real>, o2: seq<Operator>, i: nat, j: nat)
    requires |c1| == |o1| && |c2| == |o2| && i < |c1| && j < |c2|
    ensures i * |c2| + j < |Kron(c1, c2)| && i * |c2| + j < |Products(o1, o2)|
    ensures Kron(c1, c2)[i * |c2| + j] == c1[i] * c2[j]
    ensures Products(o1, o2)[i * |c2| + j] == Product(o1[i], o2[j])
  {
    CartesianAt(c1, c2, i, j);
    CartesianAt(o1, o2, i, j);
  }

  /** `qml.math.multiply(a, coeffs)`. */
  function Scaled(a: real, cs: seq<real>): (r: seq<real>)
    ensures |r| == |cs|
  {
    seq(|cs|, k requires 0 <= k < |cs| => a * cs[k])
  }

  /** Scaling twice is scaling by the product, and scaling by one changes nothing. */
  lemma ScaledTwice(a: real, b: real, cs: seq<real>)
    ensures Scaled(a, Scaled(b, cs)) == Scaled(a * b, cs)
    ensures Scaled(1.0, cs) == cs
  {
    forall k | 0 <= k < |cs|
      ensures Scaled(a, Scaled(b, cs))[k] == Scaled(a * b, cs)[k]
    {
      assert a * (b * cs[k]) == (a * b) * cs[k];
    }
  }

  /** Scaling distributes over the concatenation that `+` performs. */
  lemma ScaledAppend(a: real, xs: seq<real>, ys: seq<real>)
    ensures Scaled(a, xs + ys) == Scaled(a, xs) + Scaled(a, ys)
  {
    forall k | 0 <= k < |xs| + |ys|
      ensures Scaled(a, xs + ys)[k] == (Scaled(a, xs) + Scaled(a, ys))[k]
    {
      if k < |xs| {
        assert (xs + ys)[k] == xs[k];
      } else {
        assert (xs + ys)[k] == ys[k - |xs|];
      }
    }
  }

  /** `[op @ other for op in ops]`: the lazy product of each operator with `other`. */
  function RightProducts(ops: seq<Operator>, other: Operator): (r: seq<Operator>)
    ensures |r| == |ops|
  {
    seq(|ops|, k requires 0 <= k < |ops| => Prod([ops[k], other]))
  }

  /** `op.map_wires(wire_map)`: wires in the map are replaced, the others kept. */
  function MapWire(w: Wire, wireMap: map<Wire, Wire>): Wire
  {
    if w in wireMap then wireMap[w] else w
  }

  function MapOp(op: Operator, wireMap: map<Wire, Wire>): (r: Operator)
    ensures r.Named? <==> op.Named?
    ensures op.Named? ==> r.name == op.name && |r.wires| == |op.wires|
    ensures op.Prod? ==> |r.factors| == |op.factors|
    decreases op
  {
    match op
    case Named(n, ws) => Named(n, seq(|ws|, i requires 0 <= i < |ws| => MapWire(ws[i], wireMap)))
    case Prod(fs) => Prod(seq(|fs|, i requires 0 <= i < |fs| => MapOp(fs[i], wireMap)))
  }

  /** Mapping wires with the empty map returns the operator unchanged. */
  lemma {:induction false} MapOpIdentity(op: Operator)
    ensures MapOp(op, map[]) == op
    decreases op
  {
    match op
    case Named(_, _) =>
    case Prod(fs) =>
      forall i | 0 <= i < |fs|
        ensures MapOp(fs[i], map[]) == fs[i]
      {
        MapOpIdentity(fs[i]);
      }
  }

  function MapOps(ops: seq<Operator>, wireMap: map<Wire, Wire>): (r: seq<Operator>)
    ensures |r| == |ops|
  {
    seq(|ops|, k requires 0 <= k < |ops| => MapOp(ops[k], wireMap))
  }

  /** One entry of `_obs_data`: the coefficient and the set of (name, wires) of the
      operator's factors; operators here carry no parameters. */
  type TermData = (real, set<(string, set<Wire>)>)

  function TermEntry(c: real, op: Operator): TermData
  {
    (c, {(OpName(op), OpWires(op))})
  }

  /** The set `_obs_data` builds from the first `n` terms. */
  function ObsDataOf(cs: seq<real>, ops: seq<Operator>): set<TermData>
    requires |cs| == |ops|
    decreases |cs|
  {
    if cs == [] then {}
    else
      var n := |cs| - 1;
      ObsDataOf(cs[..n], ops[..n]) + {TermEntry(cs[n], ops[n])}
  }

  /** An entry is in the term data exactly when some term produces it. */
  lemma {:induction false} ObsDataMembers(cs: seq<real>, ops: seq<Operator>, e: TermData)
    requires |cs| == |ops|
    ensures e in ObsDataOf(cs, ops) <==> exists k :: 0 <= k < |cs| && e == TermEntry(cs[k], ops[k])
    decreases |cs|
  {
    if cs != [] {
      var n := |cs| - 1;
      ObsDataMembers(cs[..n], ops[..n], e);
      if exists k :: 0 <= k < |cs| && e == TermEntry(cs[k], ops[k]) {
        var k :| 0 <= k < |cs| && e == TermEntry(cs[k], ops[k]);
        if k < n {
          assert cs[..n][k] == cs[k] && ops[..n][k] == ops[k];
        }
      }
    }
  }

  /** The term data ignores the order of the terms: both concatenation orders give the
      same set. */
  lemma {:induction false} ObsDataOrderFree(c1: seq<real>, o1: seq<Operator>, c2: seq<real>, o2: seq<Operator>)
    requires |c1| == |o1| && |c2| == |o2|
    ensures ObsDataOf(c1 + c2, o1 + o2) == ObsDataOf(c1, o1) + ObsDataOf(c2, o2)
    ensures ObsDataOf(c1 + c2, o1 + o2) == ObsDataOf(c2 + c1, o2 + o1)
  {
    forall e
      ensures e in ObsDataOf(c1 + c2, o1 + o2) <==> e in ObsDataOf(c1, o1) + ObsDataOf(c2, o2)
    {
      ObsDataMembers(c1 + c2, o1 + o2, e);
      ObsDataMembers(c1, o1, e);
      ObsDataMembers(c2, o2, e);
      if e in ObsDataOf(c1, o1) {
        var k :| 0 <= k < |c1| && e == TermEntry(c1[k], o1[k]);
        assert (c1 + c2)[k] == c1[k] && (o1 + o2)[k] == o1[k];
      }
      if e in ObsDataOf(c2, o2) {
        var k :| 0 <= k < |c2| && e == TermEntry(c2[k], o2[k]);
        assert (c1 + c2)[|c1| + k] == c2[k] && (o1 + o2)[|c1| + k] == o2[k];
      }
    }
    forall e
      ensures e in ObsDataOf(c2 + c1, o2 + o1) <==> e in ObsDataOf(c2, o2) + ObsDataOf(c1, o1)
    {
      ObsDataMembers(c2 + c1, o2 + o1, e);
      ObsDataMembers(c1, o1, e);
      ObsDataMembers(c2, o2, e);
      if e in ObsDataOf(c2, o2) {
        var k :| 0 <= k < |c2| && e == TermEntry(c2[k], o2[k]);
        assert (c2 + c1)[k] == c2[k] && (o2 + o1)[k] == o2[k];
      }
      if e in ObsDataOf(c1, o1) {
        var k :| 0 <= k < |c1| && e == TermEntry(c1[k], o1[k]);
        assert (c2 + c1)[|c2| + k] == c1[k] && (o2 + o1)[|c2| + k] == o1[k];
      }
    }
  }

  const MismatchMessage := "Could not create valid LinearCombination; number of coefficients and operators does not match."
  const SharedWiresMessage := "Hamiltonians can only be multiplied together if they act on different sets of wires"

  /** Cached groups of term indices that commute. */
  type Grouping = seq<seq<nat>>

  /** The abstract value of a combination: its terms and its cached grouping. */
  datatype Terms = Terms(coeffs: seq<real>, ops: seq<Operator>, groupingIndices: Option<Grouping>)

  /** What `_flatten` returns: the leaves `(coeffs, ops, data)` and the grouping. */
  datatype Flat = Flat(coeffs: seq<real>, ops: seq<Operator>, data: seq<real>, groupingIndices: Option<Grouping>)

  /** What `_unflatten` builds: the constructor's check on the first two leaves, then
      the grouping restored. */
  function Unflattened(f: Flat): (r: Result<Terms>)
    ensures r.Failure? <==> |f.coeffs| != |f.ops|
    ensures r.Failure? ==> r.error == ValueError(MismatchMessage)
  {
    if |f.coeffs| != |f.ops| then Failure(ValueError(MismatchMessage))
    else Success(Terms(f.coeffs, f.ops, f.groupingIndices))
  }

  /** The right operand of `+`. */
  datatype Addend = Number(x: real) | Combination(lc: LinearCombination) | Op(op: Operator) | OtherAddend

  /** The right operand of `*`. */
  datatype Factor = Scalar(a: real) | NonScalar

  /** The right operand of `@`. */
  datatype MatMulOperand = CombinationOperand(lc: LinearCombination) | OperatorOperand(op: Operator) | OtherOperand

  /** What `@` gives back: a new combination, the lazy product `qml.prod(self, other)`
      with an operator of positive depth, or `NotImplemented`. */
  datatype MatMulOutcome = NewCombination(lc: LinearCombination) | LazyProduct(other: Operator) | MatMulNotImplemented

  class LinearCombination {
    var coeffs: seq<real>
    var ops: seq<Operator>
    var groupingIndices: Option<Grouping>

    /** Every constructed combination has one coefficient per operator. */
    ghost predicate Valid()
      reads this
    {
      |coeffs| == |ops|
    }

    function Value(): Terms
      reads this
    {
      Terms(coeffs, ops, groupingIndices)
    }

    /** `wires`: the union of the operators' wires. */
    function Wires(): (r: set<Wire>)
      reads this
      ensures forall k :: 0 <= k < |ops| ==> OpWires(ops[k]) <= r
    {
      OpsWires(ops)
    }

    /** `__init__` after its length check: the terms as given, no grouping yet. */
    constructor (cs: seq<real>, observables: seq<Operator>)
      requires |cs| == |observables|
      ensures coeffs == cs && ops == observables && groupingIndices == None
      ensures Valid()
    {
      coeffs := cs;
      ops := observables;
      groupingIndices := None;
    }

    /** `LinearCombination(coeffs, observables)`, raising on a length mismatch. */
    static method New(cs: seq<real>, observables: seq<Operator>) returns (r: Result<LinearCombination>)
      ensures r.Failure? <==> |cs| != |observables|
      ensures r.Failure? ==> r.error == ValueError(MismatchMessage)
      ensures r.Success? ==>
        fresh(r.value) && r.value.Valid() && r.value.Value() == Terms(cs, observables, None)
    {
      if |cs| != |observables| {
        return Failure(ValueError(MismatchMessage));
      }
      var lc := new LinearCombination(cs, observables);
      return Success(lc);
    }

    /** `_flatten`: with parameter-free operators, `data` is the coefficients. */
    function Flatten(): (r: Flat)
      reads this
      ensures Unflattened(r).Success? <==> Valid()
      ensures Valid() ==> Unflattened(r) == Success(Value())
    {
      Flat(coeffs, ops, coeffs, groupingIndices)
    }

    /** `_unflatten`: a new combination from the leaves, with the grouping put back. */
    static method Unflatten(f: Flat) returns (r: Result<LinearCombination>)
      ensures r.Failure? <==> Unflattened(f).Failure?
      ensures r.Failure? ==> r.error == Unflattened(f).error
      ensures r.Success? ==> fresh(r.value) && r.value.Valid() && r.value.Value() == Unflattened(f).value
    {
      r := New(f.coeffs, f.ops);
      if r.Success? {
        r.value.groupingIndices := f.groupingIndices;
      }
    }

    /** `__add__` (and `__radd__`, the same function): adding zero gives `self`, a
        combination appends its terms, an operator is appended with coefficient 1.0;
        `None` is `NotImplemented`. Neither operand is changed. */
    method Add(h: Addend) returns (r: Option<LinearCombination>)
      requires Valid()
      requires h.Combination? ==> h.lc.Valid()
      ensures h.Number? && h.x == 0.0 ==> r == Some(this)
      ensures (h.Number? && h.x != 0.0) || h.OtherAddend? ==> r == None
      ensures h.Combination? ==>
        r.Some? && fresh(r.value) && r.value.Valid() &&
        r.value.Value() == Terms(coeffs + h.lc.coeffs, ops + h.lc.ops, None)
      ensures h.Op? ==>
        r.Some? && fresh(r.value) && r.value.Valid() &&
        r.value.Value() == Terms(coeffs + [1.0], ops + [h.op], None)
    {
      var newOps := ops;
      var selfCoeffs := coeffs;
      if h.Number? && h.x == 0.0 {
        return Some(this);
      }
      if h.Combination? {
        var cs := selfCoeffs + h.lc.coeffs;
        newOps := newOps + h.lc.ops;
        var lc := new LinearCombination(cs, newOps);
        return Some(lc);
      }
      if h.Op? {
        var cs := selfCoeffs + [1.0];
        newOps := newOps + [h.op];
        var lc := new LinearCombination(cs, newOps);
        return Some(lc);
      }
      return None;
    }

    /** `__mul__` (and `__rmul__`): every coefficient multiplied by the scalar, the
        operators kept. */
    method Mul(a: Factor) returns (r: Option<LinearCombination>)
      requires Valid()
      ensures a.NonScalar? ==> r == None
      ensures a.Scalar? ==>
        r.Some? && fresh(r.value) && r.value.Valid() &&
        r.value.Value() == Terms(Scaled(a.a, coeffs), ops, None)
    {
      if a.NonScalar? {
        return None;
      }
      var lc := new LinearCombination(Scaled(a.a, coeffs), ops);
      return Some(lc);
    }

    /** `__matmul__`: two combinations on disjoint wires multiply term by term; an
        operator of depth 0 multiplies every operator on the right. */
    method MatMul(other: MatMulOperand) returns (r: Result<MatMulOutcome>)
      requires Valid()
      requires other.CombinationOperand? ==> other.lc.Valid()
      ensures other.CombinationOperand? && Wires() * other.lc.Wires() != {} ==>
        r == Failure(ValueError(SharedWiresMessage))
      ensures other.CombinationOperand? && Wires() * other.lc.Wires() == {} ==>
        r.Success? && r.value.NewCombination? && fresh(r.value.lc) && r.value.lc.Valid() &&
        r.value.lc.Value() == Terms(Kron(coeffs, other.lc.coeffs), Products(ops, other.lc.ops), None)
      ensures other.OperatorOperand? && other.op.Named? ==>
        r.Success? && r.value.NewCombination? && fresh(r.value.lc) && r.value.lc.Valid() &&
        r.value.lc.Value() == Terms(coeffs, RightProducts(ops, other.op), None)
      ensures other.OperatorOperand? && !other.op.Named? ==> r == Success(LazyProduct(other.op))
      ensures other.OtherOperand? ==> r == Success(MatMulNotImplemented)
    {
      if other.CombinationOperand? {
        var shared := Wires() * other.lc.Wires();
        if |shared| > 0 {
          return Failure(ValueError(SharedWiresMessage));
        }
        KronLength(coeffs, ops, other.lc.coeffs, other.lc.ops);
        var lc := new LinearCombination(Kron(coeffs, other.lc.coeffs), Products(ops, other.lc.ops));
        return Success(NewCombination(lc));
      }
      if other.OperatorOperand? {
        if other.op.Named? {
          var newOps := RightProducts(ops, other.op);
          var lc := new LinearCombination(coeffs, newOps);
          return Success(NewCombination(lc));
        }
        return Success(LazyProduct(other.op));
      }
      return Success(MatMulNotImplemented);
    }

    /** `map_wires`: a new combination with every operator's wires relabelled and
        the grouping carried over. */
    method MapWires(wireMap: map<Wire, Wire>) returns (r: LinearCombination)
      requires Valid()
      ensures fresh(r) && r.Valid()
      ensures r.Value() == Terms(coeffs, MapOps(ops, wireMap), groupingIndices)
    {
      r := new LinearCombination(coeffs, MapOps(ops, wireMap));
      r.groupingIndices := groupingIndices;
    }

    /** `_obs_data`: the set of (coefficient, operator data) entries, one per term. */
    method ObsData() returns (data: set<TermData>)
      requires Valid()
      ensures data == ObsDataOf(coeffs, ops)
    {
      data := {};
      var k := 0;
      while k < |coeffs|
        invariant 0 <= k <= |coeffs|
        invariant data == ObsDataOf(coeffs[..k], ops[..k])
      {
        assert coeffs[..k + 1][..k] == coeffs[..k] && ops[..k + 1][..k] == ops[..k];
        data := data + {TermEntry(coeffs[k], ops[k])};
        k := k + 1;
      }
      assert coeffs[..k] == coeffs && ops[..k] == ops;
    }
  }
}
