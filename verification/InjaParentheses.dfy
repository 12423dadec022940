/**
No pair of parentheses that an operator's printed form puts around an operand can be
dropped: without it the tokens parse to another expression, or not at all.
*/
module InjaParentheses {
  import opened Wrappers
  import opened InjaExpression
  import opened InjaExpressionRoundTrip

  /** What is printed of an operator before its last operand. */
  function Before(op: Op, others: seq<Node>): seq<Token>
    requires |others| + 1 == Arity(op) && forall i | 0 <= i < |others| :: Proper(others[i])
  {
    (if op.Not? then [] else Wrapped(WrapLeft(op, others[0]), Print(others[0]))) + [OperatorToken(op)]
  }

  lemma {:induction false} ApplyPrints(op: Op, others: seq<Node>, last: Node)
    requires |others| + 1 == Arity(op) && (forall i | 0 <= i < |others| :: Proper(others[i])) && Proper(last)
    ensures var n := Apply(op, others + [last]);
            Proper(n) && Print(n) == Before(op, others) + Wrapped(WrapRight(op, last), Print(last))
  {
    var n := Apply(op, others + [last]);
    assert n.args[|n.args| - 1] == last;
    assert !op.Not? ==> n.args[0] == others[0];
  }

  // ------------------------------------------------------- the pair on the left

  /** An operator printed without the parentheses around its left operand. */
  function BareLeft(n: Node): seq<Token>
    requires Proper(n) && n.Apply? && !n.op.Not?
  {
    Print(n.args[0]) + [OperatorToken(n.op)] + Wrapped(WrapRight(n.op, n.args[1]), Print(n.args[1]))
  }

  /** What the parser makes of it: `op` takes only the last operand of `x` as its left one. */
  function TakenLeft(x: Node, op: Op, right: Node): (r: Node)
    requires Proper(x) && x.Apply?
    decreases x
  {
    var k := |x.args| - 1;
    var last := x.args[k];
    var inner := if !WrapRight(x.op, last) && WrapLeft(op, last) then TakenLeft(last, op, right)
                 else Apply(op, [last, right]);
    Apply(x.op, x.args[..k] + [inner])
  }

  lemma {:induction false} WrapsAgreeLeft(o: Op, op: Op, last: Node)
    requires !Pops(o, Some(op)) && WrapRight(o, last)
    ensures WrapLeft(op, last)
  {
  }

  lemma {:induction false} TakenLeftPrints(x: Node, op: Op, right: Node)
    requires Proper(x) && x.Apply? && Proper(right) && !op.Not? && WrapLeft(op, x)
    ensures Proper(TakenLeft(x, op, right)) && TakenLeft(x, op, right).Apply? && TakenLeft(x, op, right).op == x.op
    ensures Print(TakenLeft(x, op, right))
            == Print(x) + [OperatorToken(op)] + Wrapped(WrapRight(op, right), Print(right))
    decreases x
  {
    var k := |x.args| - 1;
    var others, last := x.args[..k], x.args[k];
    var inner := TakenLeft(x, op, right).args[k];
    var tail := [OperatorToken(op)] + Wrapped(WrapRight(op, right), Print(right));
    if WrapRight(x.op, last) {
      WrapsAgreeLeft(x.op, op, last);
    }
    if !WrapRight(x.op, last) && WrapLeft(op, last) {
      TakenLeftPrints(last, op, right);
      Reassociate(Print(last), [OperatorToken(op)], Wrapped(WrapRight(op, right), Print(right)));
    } else {
      ApplyPrints(op, [last], right);
      Reassociate(Wrapped(WrapLeft(op, last), Print(last)), [OperatorToken(op)], Wrapped(WrapRight(op, right), Print(right)));
      assert [last] + [right] == [last, right];
    }
    assert Proper(inner) && Print(inner) == Wrapped(WrapRight(x.op, last), Print(last)) + tail;
    TakenLeftWhole(x, inner, tail);
    Reassociate(Print(x), [OperatorToken(op)], Wrapped(WrapRight(op, right), Print(right)));
  }

  lemma {:induction false} Reassociate(a: seq<Token>, b: seq<Token>, c: seq<Token>)
    ensures a + b + c == a + (b + c)
  {
  }

  /** More tokens after the last operand, where that operand with them is a whole one. */
  lemma {:induction false} TakenLeftWhole(x: Node, inner: Node, tail: seq<Token>)
    requires Proper(x) && x.Apply? && Proper(inner) && !WrapRight(x.op, inner)
    requires var last := x.args[|x.args| - 1];
             Print(inner) == Wrapped(WrapRight(x.op, last), Print(last)) + tail
    ensures var t := Apply(x.op, x.args[..|x.args| - 1] + [inner]); Proper(t) && Print(t) == Print(x) + tail
  {
    var k := |x.args| - 1;
    var others, last := x.args[..k], x.args[k];
    ApplyPrints(x.op, others, last);
    ApplyPrints(x.op, others, inner);
    assert others + [last] == x.args;
    Reassociate(Before(x.op, others), Wrapped(WrapRight(x.op, last), Print(last)), tail);
  }

  /** The parentheses around a left operand are needed. */
  lemma {:induction false} LeftPairIsNeeded(known: Library, n: Node)
    requires Proper(n) && Linked(known, n) && n.Apply? && !n.op.Not? && WrapLeft(n.op, n.args[0])
    ensures Parse(known, BareLeft(n), 0) != Found(Some(n), |BareLeft(n)|)
  {
    var x, right := n.args[0], n.args[1];
    var t := TakenLeft(x, n.op, right);
    TakenLeftPrints(x, n.op, right);
    TakenLeftLinked(known, x, n.op, right);
    assert |x.args| == 2 ==> t.args[0] == x.args[0];
    ParsesToOther(known, n, t, BareLeft(n));
  }

  lemma {:induction false} TakenLeftLinked(known: Library, x: Node, op: Op, right: Node)
    requires Proper(x) && x.Apply? && Linked(known, x) && Linked(known, right)
    ensures Linked(known, TakenLeft(x, op, right))
    decreases x
  {
    var k := |x.args| - 1;
    var last := x.args[k];
    if !WrapRight(x.op, last) && WrapLeft(op, last) {
      TakenLeftLinked(known, last, op, right);
    } else {
      assert Linked(known, Apply(op, [last, right]));
    }
  }

  // ------------------------------------------------------- the pair on the right

  /** An operator printed without the parentheses around its last operand. */
  function BareRight(n: Node): seq<Token>
    requires Proper(n) && n.Apply?
  {
    var last := Print(n.args[|n.args| - 1]);
    if n.op.Not? then [OperatorToken(Not)] + last
    else Wrapped(WrapLeft(n.op, n.args[0]), Print(n.args[0])) + [OperatorToken(n.op)] + last
  }

  /** The printed operand starts with a `not` that would close `op` before its operand came. */
  predicate StartsWithNot(op: Op, x: Node)
    requires Proper(x)
    decreases x
  {
    x.Apply? && if x.op.Not? then Pops(op, Some(Not)) else !WrapLeft(x.op, x.args[0]) && StartsWithNot(op, x.args[0])
  }

  /** `op` with its other operand takes only the first operand of `x` as its right one. */
  function TakenRight(op: Op, others: seq<Node>, x: Node): (r: Node)
    requires Proper(x) && x.Apply? && !x.op.Not?
    decreases x
  {
    var first := x.args[0];
    var inner := if !WrapLeft(x.op, first) && WrapRight(op, first) && !first.op.Not? then TakenRight(op, others, first)
                 else Apply(op, others + [first]);
    Apply(x.op, [inner, x.args[1]])
  }

  lemma {:induction false} WrapsAgreeRight(op: Op, o: Op, first: Node)
    requires Pops(op, Some(o)) && WrapLeft(o, first)
    ensures WrapRight(op, first)
  {
  }

  lemma {:induction false} TakenRightPrints(op: Op, others: seq<Node>, x: Node)
    requires |others| + 1 == Arity(op) && forall i | 0 <= i < |others| :: Proper(others[i])
    requires Proper(x) && x.Apply? && !x.op.Not? && WrapRight(op, x) && !StartsWithNot(op, x)
    ensures var t := TakenRight(op, others, x);
            Proper(t) && t.Apply? && t.op == x.op && Print(t) == Before(op, others) + Print(x)
    decreases x
  {
    var first, t := x.args[0], TakenRight(op, others, x);
    var inner, before := t.args[0], Before(op, others);
    if WrapLeft(x.op, first) {
      WrapsAgreeRight(op, x.op, first);
    }
    if !WrapLeft(x.op, first) && WrapRight(op, first) && !first.op.Not? {
      TakenRightPrints(op, others, first);
    } else {
      ApplyPrints(op, others, first);
    }
    assert Proper(inner) && Print(inner) == before + Wrapped(WrapLeft(x.op, first), Print(first));
    TakenRightWhole(x, inner, before);
  }

  /** More tokens before the first operand, where that operand with them is a whole one. */
  lemma {:induction false} TakenRightWhole(x: Node, inner: Node, before: seq<Token>)
    requires Proper(x) && x.Apply? && !x.op.Not? && Proper(inner) && !WrapLeft(x.op, inner)
    requires Print(inner) == before + Wrapped(WrapLeft(x.op, x.args[0]), Print(x.args[0]))
    ensures var t := Apply(x.op, [inner, x.args[1]]); Proper(t) && Print(t) == before + Print(x)
  {
    var first, last := x.args[0], x.args[1];
    ApplyPrints(x.op, [first], last);
    ApplyPrints(x.op, [inner], last);
    assert [first] + [last] == x.args && [inner] + [last] == [inner, last];
    Reassociate(before, Wrapped(WrapLeft(x.op, first), Print(first)), [OperatorToken(x.op)]);
    Reassociate(before, Before(x.op, [first]), Wrapped(WrapRight(x.op, last), Print(last)));
  }

  lemma {:induction false} TakenRightLinked(known: Library, op: Op, others: seq<Node>, x: Node)
    requires Proper(x) && x.Apply? && !x.op.Not? && Linked(known, x)
    requires forall i | 0 <= i < |others| :: Linked(known, others[i])
    ensures Linked(known, TakenRight(op, others, x))
    decreases x
  {
    var first := x.args[0];
    if !WrapLeft(x.op, first) && WrapRight(op, first) && !first.op.Not? {
      TakenRightLinked(known, op, others, first);
    } else {
      assert Linked(known, Apply(op, others + [first]));
    }
  }

  lemma {:induction false} NotComesFirst(op: Op, x: Node)
    requires Proper(x) && StartsWithNot(op, x)
    ensures Pops(op, Some(Not)) && Print(x) != [] && Print(x)[0] == OperatorToken(Not)
    decreases x
  {
    if !x.op.Not? {
      NotComesFirst(op, x.args[0]);
    }
  }

  /** Reading `not` closes the operator before it, which has an operand too few. */
  lemma {:induction false} NotClosesTooEarly(known: Library, toks: seq<Token>, i: nat, n: Node)
    requires Proper(n) && n.Apply? && i < |toks| && toks[i] == OperatorToken(Not) && Pops(n.op, Some(Not))
    ensures Yields(known, toks, i, Awaiting(Stacks([], []), n), FLAT, Failed(TooFewArguments))
  {
    var s := Awaiting(Stacks([], []), n);
    assert OperatorOf(toks[i]) == Some(Not);
    assert s.ops == [n.op] && |s.args| < Arity(n.op);
    assert Reduce(s, Some(Not)) == Err(TooFewArguments);
  }

  lemma {:induction false} BareRightFails(known: Library, n: Node)
    requires Proper(n) && Linked(known, n) && n.Apply? && StartsWithNot(n.op, n.args[|n.args| - 1])
    ensures Parse(known, BareRight(n), 0).Failed?
  {
    var toks, last := BareRight(n), n.args[|n.args| - 1];
    NotComesFirst(n.op, last);
    var head := if n.op.Not? then [] else Wrapped(WrapLeft(n.op, n.args[0]), Print(n.args[0]));
    var at := |head|;
    assert toks == head + [OperatorToken(n.op)] + Print(last);
    assert toks[at] == OperatorToken(n.op) && toks[at + 1] == OperatorToken(Not);
    assert !n.op.Not? ==> toks[0..at] == head;
    FeedHead(known, toks, 0, at, n, Stacks([], []));
    NotClosesTooEarly(known, toks, at + 1, n);
    assert Yields(known, toks, 0, Stacks([], []), FLAT, Failed(TooFewArguments));
  }

  /** The parentheses around a right operand, or the operand of `not`, are needed. */
  lemma {:induction false} RightPairIsNeeded(known: Library, n: Node)
    requires Proper(n) && Linked(known, n) && n.Apply? && WrapRight(n.op, n.args[|n.args| - 1])
    ensures Parse(known, BareRight(n), 0) != Found(Some(n), |BareRight(n)|)
  {
    var k := |n.args| - 1;
    var others, x := n.args[..k], n.args[k];
    if StartsWithNot(n.op, x) {
      BareRightFails(known, n);
    } else {
      TakenRightPrints(n.op, others, x);
      TakenRightLinked(known, n.op, others, x);
      BareRightIs(n);
      ParsesToOther(known, n, TakenRight(n.op, others, x), BareRight(n));
    }
  }

  lemma {:induction false} BareRightIs(n: Node)
    requires Proper(n) && n.Apply?
    ensures BareRight(n) == Before(n.op, n.args[..|n.args| - 1]) + Print(n.args[|n.args| - 1])
  {
  }

  lemma {:induction false} ParsesToOther(known: Library, n: Node, t: Node, toks: seq<Token>)
    requires Proper(t) && Linked(known, t) && Print(t) == toks && t != n
    ensures Parse(known, toks, 0) != Found(Some(n), |toks|)
  {
    assert toks + [] == toks;
    RoundTrip(known, t, []);
  }
}
