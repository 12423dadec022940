/** Laws of the evaluator, stated by results alone. */
module InjaEvaluatorLaws {
  import opened Wrappers
  import opened InjaExpression
  import opened InjaEvaluator

  function AndOf(a: Node, b: Node): Node {
    Apply(And, [a, b])
  }

  function OrOf(a: Node, b: Node): Node {
    Apply(Or, [a, b])
  }

  function NotOf(a: Node): Node {
    Apply(Not, [a])
  }

  /** Exactly these values count as false. */
  lemma {:induction false} FalseValues(j: Json)
    ensures !Truthy(j) <==>
              j in {Null, Bool(false), Number(0.0), Array([])} || j == Object(map[])
  {
  }

  /** On values, `and` and `or` are conjunction and disjunction. */
  lemma {:induction false} LogicOnValues(env: Environment, a: Node, b: Node, x: Json, y: Json)
    requires Eval(env, a) == Value(x) && Eval(env, b) == Value(y)
    ensures Eval(env, AndOf(a, b)) == Value(Bool(Truthy(x) && Truthy(y)))
    ensures Eval(env, OrOf(a, b)) == Value(Bool(Truthy(x) || Truthy(y)))
  {
  }

  /** What decides the result on the left hides everything on the right, errors included. */
  lemma {:induction false} ShortCircuit(env: Environment, a: Node, b: Node, x: Json)
    requires Eval(env, a) == Value(x)
    ensures !Truthy(x) ==> Eval(env, AndOf(a, b)) == Value(Bool(false))
    ensures Truthy(x) ==> Eval(env, OrOf(a, b)) == Value(Bool(true))
  {
  }

  /** What does not decide it leaves the result to the right. */
  lemma {:induction false} LeftToTheRight(env: Environment, a: Node, b: Node, x: Json)
    requires Eval(env, a) == Value(x)
    ensures var right := Eval(env, b);
            var shown := match right case Value(y) => Value(Bool(Truthy(y)))
                         case Missing(name) => Thrown(NotFound(name))
                         case Thrown(error) => Thrown(error);
            && (Truthy(x) ==> Eval(env, AndOf(a, b)) == shown)
            && (!Truthy(x) ==> Eval(env, OrOf(a, b)) == shown)
  {
  }

  /** An error on the left is the result, and so is a variable without value there. */
  lemma {:induction false} LeftErrorWins(env: Environment, a: Node, b: Node)
    requires !Eval(env, a).Value?
    ensures Eval(env, AndOf(a, b)) == Eval(env, OrOf(a, b)) == Demand(Eval(env, a))
    ensures Eval(env, a).Missing? ==> Eval(env, AndOf(a, b)) == Thrown(NotFound(Eval(env, a).name))
    ensures Eval(env, a).Thrown? ==> Eval(env, AndOf(a, b)) == Eval(env, a)
  {
  }

  lemma {:induction false} NotValue(env: Environment, a: Node)
    ensures Eval(env, a).Value? ==> Eval(env, NotOf(a)) == Value(Bool(!Truthy(Eval(env, a).value)))
    ensures Eval(env, a).Missing? ==> Eval(env, NotOf(a)) == Thrown(NotFound(Eval(env, a).name))
    ensures Eval(env, a).Thrown? ==> Eval(env, NotOf(a)) == Eval(env, a)
  {
    var os := EvalFirst(env, [a], 1);
    assert os == [Eval(env, a)];
    OneOutcome(Eval(env, a));
  }

  lemma {:induction false} OneOutcome(o: Outcome)
    ensures FirstThrown([o]) == if o.Thrown? then Some(o.error) else None
    ensures LastMissing([o]) == if o.Missing? then Some(o.name) else None
  {
    assert [o][1..] == [] && [o][..0] == [];
  }

  /** De Morgan, with the errors of either side. */
  lemma {:induction false} DeMorgan(env: Environment, a: Node, b: Node)
    ensures Eval(env, NotOf(AndOf(a, b))) == Eval(env, OrOf(NotOf(a), NotOf(b)))
    ensures Eval(env, NotOf(OrOf(a, b))) == Eval(env, AndOf(NotOf(a), NotOf(b)))
  {
    NotValue(env, a);
    NotValue(env, b);
    NotValue(env, AndOf(a, b));
    NotValue(env, OrOf(a, b));
  }

  /** default(a, b) is a, unless a is a variable without value; then it is b. */
  lemma {:induction false} DefaultIs(env: Environment, f: string, a: Node, b: Node)
    requires env.isDefault(f, 2)
    ensures var d := Eval(env, Call(f, [a, b]));
            if a.Data? && Lookup(env, a.name).None? then d == Demand(Eval(env, b)) else d == Eval(env, a)
    ensures Eval(env, Call(f, [a, b])).Value? && Eval(env, b).Value? ==>
              Eval(env, Call(f, [a, b])) == if Eval(env, a).Value? then Eval(env, a) else Eval(env, b)
  {
    OnlyVariablesAreMissing(env, a);
  }

  /** A loop or set variable hides the input of the same name, and that hides a callback. */
  lemma {:induction false} InnermostWins(env: Environment, name: string)
    ensures name in env.local ==> Eval(env, Data(name)) == Value(env.local[name])
    ensures name !in env.local && name in env.input ==> Eval(env, Data(name)) == Value(env.input[name])
    ensures name !in env.local && name !in env.input ==>
              Eval(env, Data(name)) == if name in env.callback then Value(env.callback[name]) else Missing(name)
  {
  }

  /** An operation on two operands takes the values in order; else the left error, then the right one, wins. */
  lemma {:induction false} BinaryIs(env: Environment, op: Op, a: Node, b: Node)
    requires !op.And? && !op.Or? && !op.Not?
    ensures var x, y, r := Eval(env, a), Eval(env, b), Eval(env, Apply(op, [a, b]));
            if x.Thrown? then r == x
            else if y.Thrown? then r == y
            else if y.Missing? then r == Thrown(NotFound(y.name))
            else if x.Missing? then r == Thrown(NotFound(x.name))
            else var v := env.apply(Operator(op), [x.value, y.value]);
                 r == if v.Ok? then Value(v.value) else Thrown(Failure(v.error))
  {
    var x, y := Eval(env, a), Eval(env, b);
    var os := EvalFirst(env, [a, b], 2);
    assert os == [x, y];
    assert os[1..] == [y] && os[..1] == [x];
    OneOutcome(x);
    OneOutcome(y);
    if x.Value? && y.Value? {
      assert Gather(os).values == [x.value, y.value];
    }
  }
}
