/**
Whatever tokens the expression parser is given, the leaves of the tree it builds
are the operands it read, each once and in the order it read them. What an operand
is, is told by one pass over the tokens that knows nothing of operators, arguments
or precedence.
*/
module InjaExpressionLeaves {
  import opened Wrappers
  import opened InjaExpression

  /** The leaves of a tree, left to right. */
  function Leaves(n: Node): seq<Node> {
    match n
    case Literal(_) => [n]
    case Data(_) => [n]
    case Apply(_, args) => AllLeaves(args)
    case Call(_, args) => AllLeaves(args)
  }

  function AllLeaves(args: seq<Node>): seq<Node> {
    if args == [] then [] else Leaves(args[0]) + AllLeaves(args[1..])
  }

  // ------------------------------------------------------------------- the scanner

  /** One bracket state for every parenthesis entered, and whether a function name must follow. */
  datatype Scanner = Scanner(frames: seq<Levels>, named: bool)

  function Top(s: Scanner): Levels {
    if s.frames == [] then FLAT else s.frames[|s.frames| - 1]
  }

  function WithTop(s: Scanner, l: Levels): Scanner {
    if s.frames == [] then s else Scanner(s.frames[..|s.frames| - 1] + [l], false)
  }

  /** Token `i` ends a literal, or names a value. */
  function OperandAt(toks: seq<Token>, i: nat, s: Scanner): Option<Node>
    requires i < |toks|
  {
    var t, l := toks[i], Top(s);
    if t.StringLit? || t.NumberLit? then if Flat(l) then Some(Literal([t])) else None
    else if t.RightBracket? || t.RightBrace? then
      if !Flat(l) && Flat(After(toks, i, l)) && l.start <= i then Some(Literal(toks[l.start..i + 1])) else None
    else if !t.Id? || s.named || WordOperator(t.text).Some? then None
    else if IsConstant(t.text) then if Flat(l) then Some(Literal([t])) else None
    else if Tok(toks, i + 1).LeftParen? then None
    else Some(Data(t.text))
  }

  /** The bracket state after token `i`. */
  function After(toks: seq<Token>, i: nat, l: Levels): Levels
    requires i < |toks|
  {
    var t := toks[i];
    if t.LeftBracket? || t.LeftBrace? then Opened(l, i, t.LeftBracket?)
    else if (t.RightBracket? && l.bracket > 0) || (t.RightBrace? && l.brace > 0) then
      var m := Closed(l, t.RightBracket?);
      if Flat(m) then FLAT else m
    else l
  }

  function Step(toks: seq<Token>, i: nat, s: Scanner): Scanner
    requires i < |toks|
  {
    var t := toks[i];
    if t.LeftParen? then Scanner(s.frames + [FLAT], false)
    else if t.RightParen? then Scanner(if s.frames == [] then [] else s.frames[..|s.frames| - 1], false)
    else if t.Pipe? then s.(named := true)
    else WithTop(s, After(toks, i, Top(s)))
  }

  function OneOrNone(o: Option<Node>): seq<Node> {
    if o.Some? then [o.value] else []
  }

  /** From `i` to `j` the scanner reads the operands `ls` and goes from state `s` to `t`. */
  predicate Reads(toks: seq<Token>, i: nat, s: Scanner, ls: seq<Node>, j: nat, t: Scanner)
    decreases |toks| - i
  {
    && i <= j <= |toks|
    && if i == j then ls == [] && s == t
       else
         var o := OneOrNone(OperandAt(toks, i, s));
         o <= ls && Reads(toks, i + 1, Step(toks, i, s), ls[|o|..], j, t)
  }

  const BEGIN := Scanner([FLAT], false)

  /** Whatever is read from `j` in state `t` is read from `i` in state `s` after the operands `ls`. */
  ghost predicate Passes(toks: seq<Token>, i: nat, s: Scanner, ls: seq<Node>, j: nat, t: Scanner) {
    forall more, k, u :: Reads(toks, j, t, more, k, u) ==> Reads(toks, i, s, ls + more, k, u)
  }

  lemma {:induction false} PassesOn(
    toks: seq<Token>, i: nat, s: Scanner, a: seq<Node>, j: nat, t: Scanner, b: seq<Node>, k: nat, u: Scanner)
    requires Passes(toks, i, s, a, j, t) && Passes(toks, j, t, b, k, u)
    ensures Passes(toks, i, s, a + b, k, u)
  {
    forall more, m, v | Reads(toks, k, u, more, m, v)
      ensures Reads(toks, i, s, a + b + more, m, v)
    {
      assert a + b + more == a + (b + more);
    }
  }

  lemma {:induction false} PassesOne(toks: seq<Token>, i: nat, s: Scanner, o: seq<Node>, t: Scanner)
    requires i < |toks| && o == OneOrNone(OperandAt(toks, i, s)) && t == Step(toks, i, s)
    ensures Passes(toks, i, s, o, i + 1, t)
  {
    forall more, k, u | Reads(toks, i + 1, t, more, k, u)
      ensures Reads(toks, i, s, o + more, k, u)
    {
      assert (o + more)[|o|..] == more;
    }
  }

  lemma {:induction false} PassesIsReads(toks: seq<Token>, i: nat, s: Scanner, ls: seq<Node>, j: nat, t: Scanner)
    requires i <= j <= |toks| && Passes(toks, i, s, ls, j, t)
    ensures Reads(toks, i, s, ls, j, t)
  {
    assert Reads(toks, j, t, [], j, t);
    assert ls + [] == ls;
  }

  // -------------------------------------------------------------------- leaves kept

  lemma {:induction false} LeavesAppend(a: seq<Node>, b: seq<Node>)
    ensures AllLeaves(a + b) == AllLeaves(a) + AllLeaves(b)
  {
    if a == [] {
      assert a + b == b;
    } else {
      var tail, first := a[1..], Leaves(a[0]);
      LeavesAppend(tail, b);
      AllLeavesOf(a);
      AllLeavesOf(a + b);
      assert (a + b)[1..] == tail + b;
      assert first + AllLeaves(tail) + AllLeaves(b) == first + (AllLeaves(tail) + AllLeaves(b));
    }
  }

  lemma {:induction false} AllLeavesOf(args: seq<Node>)
    requires args != []
    ensures AllLeaves(args) == Leaves(args[0]) + AllLeaves(args[1..])
  {
  }

  lemma {:induction false} LeavesOne(n: Node)
    ensures AllLeaves([n]) == Leaves(n)
  {
  }

  lemma {:induction false} PushLeaves(s: Stacks, n: Node)
    ensures AllLeaves(Push(s, n).args) == AllLeaves(s.args) + Leaves(n)
  {
    LeavesAppend(s.args, [n]);
  }

  /** Closing operators groups operands; it neither moves nor loses one. */
  lemma {:induction false} ReduceLeaves(s: Stacks, next: Option<Op>)
    requires Reduce(s, next).Ok?
    ensures AllLeaves(Reduce(s, next).value.args) == AllLeaves(s.args)
    decreases |s.ops|
  {
    if s.ops != [] && Pops(s.ops[|s.ops| - 1], next) {
      var r := AddOperator(s).value;
      var m := |s.args| - Arity(s.ops[|s.ops| - 1]);
      LeavesAppend(s.args[..m], [Apply(s.ops[|s.ops| - 1], s.args[m..])]);
      LeavesAppend(s.args[..m], s.args[m..]);
      assert s.args[..m] + s.args[m..] == s.args;
      ReduceLeaves(r, next);
    }
  }

  lemma {:induction false} ConcludeLeaves(s: Stacks, i: nat)
    requires Conclude(s, i).Found?
    ensures AllLeaves(OneOrNone(Conclude(s, i).node)) == AllLeaves(s.args)
  {
    ReduceLeaves(s, None);
    var args := Reduce(s, None).value.args;
    assert args == OneOrNone(Conclude(s, i).node);
  }

  // --------------------------------------------------------------- one turn of the loop

  datatype Turn = Done(result: Parsed) | Go(s: Stacks, l: Levels, next: nat)

  /** What the loop does with token `i`, and where it goes on. */
  function TurnAt(known: Library, toks: seq<Token>, i: nat, s: Stacks, l: Levels): Turn
    requires i <= |toks| && l.start <= i
  {
    if i == |toks| || toks[i].Eof? then Done(Conclude(s, i))
    else
      var t := toks[i];
      if t.StringLit? || t.NumberLit? || (t.Id? && IsConstant(t.text)) then
        Go(if Flat(l) then Push(s, Literal([t])) else s, l, i + 1)
      else if t.LeftBracket? || t.LeftBrace? then Go(s, Opened(l, i, t.LeftBracket?), i + 1)
      else if t.RightBracket? && l.bracket == 0 then Done(Failed(UnexpectedBracket))
      else if t.RightBrace? && l.brace == 0 then Done(Failed(UnexpectedBrace))
      else if t.RightBracket? || t.RightBrace? then
        var m := Closed(l, t.RightBracket?);
        if Flat(m) then Go(Push(s, Literal(toks[l.start..i + 1])), FLAT, i + 1) else Go(s, m, i + 1)
      else if OperatorOf(t).Some? then
        var r := Reduce(s, OperatorOf(t));
        if r.Err? then Done(Failed(r.error)) else Go(r.value.(ops := r.value.ops + [OperatorOf(t).value]), l, i + 1)
      else if IsCompound(toks, i) then
        var c := Compound(known, toks, i, s);
        if c.Rejected? then Done(Failed(c.error)) else Go(c.s, l, c.next)
      else if t.Id? then Go(Push(s, Data(t.text)), l, i + 1)
      else if (t.Comma? || t.Colon?) && !Flat(l) then Go(s, l, i + 1)
      else if t.Colon? then Done(Failed(UnexpectedColon))
      else Done(Conclude(s, i))
  }

  lemma {:induction false} LoopTurns(known: Library, toks: seq<Token>, i: nat, s: Stacks, l: Levels)
    requires i <= |toks| && l.start <= i
    ensures var t := TurnAt(known, toks, i, s, l);
            if t.Done? then Loop(known, toks, i, s, l) == t.result
            else i < t.next <= |toks| && t.l.start <= t.next
                 && Loop(known, toks, i, s, l) == Loop(known, toks, t.next, t.s, t.l)
  {
  }

  /** A bracket state with nothing open remembers no start. */
  predicate Settled(l: Levels) {
    Flat(l) ==> l == FLAT
  }

  function At(outer: seq<Levels>, l: Levels): Scanner {
    Scanner(outer + [l], false)
  }

  /** Token `i` is taken by the loop itself, not by a parenthesis, call or pipe. */
  predicate Plain(toks: seq<Token>, i: nat)
    requires i < |toks|
  {
    !IsCompound(toks, i) || OperatorOf(toks[i]).Some? || (toks[i].Id? && IsConstant(toks[i].text))
  }

  lemma {:induction false} PlainTurn(
    known: Library, toks: seq<Token>, i: nat, s: Stacks, l: Levels, outer: seq<Levels>)
    requires i < |toks| && l.start <= i && Settled(l) && Plain(toks, i) && TurnAt(known, toks, i, s, l).Go?
    ensures var t := TurnAt(known, toks, i, s, l); var o := OneOrNone(OperandAt(toks, i, At(outer, l)));
            && t.next == i + 1 && Settled(t.l)
            && AllLeaves(t.s.args) == AllLeaves(s.args) + o
            && Passes(toks, i, At(outer, l), o, t.next, At(outer, t.l))
  {
    var o := OneOrNone(OperandAt(toks, i, At(outer, l)));
    PassesOne(toks, i, At(outer, l), o, Step(toks, i, At(outer, l)));
    forall n
      ensures AllLeaves(Push(s, n).args) == AllLeaves(s.args) + Leaves(n)
    {
      PushLeaves(s, n);
    }
    if OperatorOf(toks[i]).Some? {
      ReduceLeaves(s, OperatorOf(toks[i]));
    }
    assert (outer + [l])[..|outer|] == outer;
  }

  // ---------------------------------------------------------------------- the theorem

  lemma {:induction false} LoopLeaves(
    known: Library, toks: seq<Token>, i: nat, s: Stacks, l: Levels, outer: seq<Levels>, r: Parsed)
    returns (ls: seq<Node>, end: Levels)
    requires i <= |toks| && l.start <= i && Settled(l) && Loop(known, toks, i, s, l) == r && r.Found?
    ensures Tok(toks, r.next).Comma? ==> end == FLAT
    ensures AllLeaves(OneOrNone(r.node)) == AllLeaves(s.args) + ls
    ensures Passes(toks, i, At(outer, l), ls, r.next, At(outer, end))
    decreases |toks| - i, 1
  {
    var t, first := TurnLeaves(known, toks, i, s, l, outer, r);
    if t.Done? {
      ls, end := [], l;
      PassesNothing(toks, i, At(outer, l));
    } else {
      var rest;
      rest, end := LoopLeaves(known, toks, t.next, t.s, t.l, outer, r);
      ls := first + rest;
      Reassociate(AllLeaves(s.args), first, rest);
      PassesOn(toks, i, At(outer, l), first, t.next, At(outer, t.l), rest, r.next, At(outer, end));
    }
  }

  lemma {:induction false} Reassociate(a: seq<Node>, b: seq<Node>, c: seq<Node>)
    ensures a + b + c == a + (b + c)
  {
  }

  lemma {:induction false} PassesNothing(toks: seq<Token>, i: nat, s: Scanner)
    ensures Passes(toks, i, s, [], i, s)
  {
    forall more, k, u | Reads(toks, i, s, more, k, u)
      ensures Reads(toks, i, s, [] + more, k, u)
    {
      assert [] + more == more;
    }
  }

  lemma {:induction false} TurnLeaves(
    known: Library, toks: seq<Token>, i: nat, s: Stacks, l: Levels, outer: seq<Levels>, r: Parsed)
    returns (t: Turn, first: seq<Node>)
    requires i <= |toks| && l.start <= i && Settled(l) && Loop(known, toks, i, s, l) == r && r.Found?
    ensures t.Done? ==> r.next == i && (Tok(toks, i).Comma? ==> l == FLAT)
                        && AllLeaves(OneOrNone(r.node)) == AllLeaves(s.args)
    ensures t.Go? ==> i < t.next <= |toks| && t.l.start <= t.next && Settled(t.l)
                      && Loop(known, toks, t.next, t.s, t.l) == r
                      && AllLeaves(t.s.args) == AllLeaves(s.args) + first
                      && Passes(toks, i, At(outer, l), first, t.next, At(outer, t.l))
    decreases |toks| - i, 0, 2
  {
    LoopTurns(known, toks, i, s, l);
    t, first := TurnAt(known, toks, i, s, l), [];
    if t.Done? {
      ConcludeLeaves(s, i);
    } else if Plain(toks, i) {
      PlainTurn(known, toks, i, s, l, outer);
      first := OneOrNone(OperandAt(toks, i, At(outer, l)));
    } else {
      first := CompoundLeaves(known, toks, i, s, l, outer, Compound(known, toks, i, s));
    }
  }

  lemma {:induction false} CompoundLeaves(
    known: Library, toks: seq<Token>, i: nat, s: Stacks, l: Levels, outer: seq<Levels>, c: Operand)
    returns (ls: seq<Node>)
    requires i < |toks| && l.start <= i && !Plain(toks, i) && Compound(known, toks, i, s) == c && c.Operand?
    ensures AllLeaves(c.s.args) == AllLeaves(s.args) + ls
    ensures Passes(toks, i, At(outer, l), ls, c.next, At(outer, l))
    decreases |toks| - i, 0, 1
  {
    if toks[i].LeftParen? {
      ls := ParenLeaves(known, toks, i, s, l, outer, c);
    } else if toks[i].Id? {
      ls := CallLeaves(known, toks, i, s, l, outer, c);
    } else {
      ls := PipeLeaves(known, toks, i, s, l, outer, c);
    }
  }

  /** A left parenthesis, an expression in it, and the right one. */
  lemma {:induction false} ParenLeaves(
    known: Library, toks: seq<Token>, i: nat, s: Stacks, l: Levels, outer: seq<Levels>, c: Operand)
    returns (ls: seq<Node>)
    requires i < |toks| && toks[i].LeftParen? && Compound(known, toks, i, s) == c && c.Operand?
    ensures AllLeaves(c.s.args) == AllLeaves(s.args) + ls
    ensures Passes(toks, i, At(outer, l), ls, c.next, At(outer, l))
    decreases |toks| - i, 0, 0
  {
    var e := Loop(known, toks, i + 1, Stacks([], []), FLAT);
    var end;
    ls, end := LoopLeaves(known, toks, i + 1, Stacks([], []), FLAT, outer + [l], e);
    PushLeaves(s, e.node.value);
    LeavesOne(e.node.value);
    Enclosed(toks, i, e.next, ls, end, l, outer);
  }

  /** A function name and its arguments in parentheses. */
  lemma {:induction false} CallLeaves(
    known: Library, toks: seq<Token>, i: nat, s: Stacks, l: Levels, outer: seq<Levels>, c: Operand)
    returns (ls: seq<Node>)
    requires i < |toks| && toks[i].Id? && !Plain(toks, i) && Compound(known, toks, i, s) == c && c.Operand?
    ensures AllLeaves(c.s.args) == AllLeaves(s.args) + ls
    ensures Passes(toks, i, At(outer, l), ls, c.next, At(outer, l))
    decreases |toks| - i, 0, 0
  {
    var a := CallArguments(known, toks, i + 2, []);
    var end;
    ls, end := ArgumentsLeaves(known, toks, i + 2, [], outer + [l], a);
    PushLeaves(s, Call(toks[i].text, a.args));
    NamedEnclosed(toks, i, a.next, ls, end, l, outer);
  }

  lemma {:induction false} NamedEnclosed(
    toks: seq<Token>, i: nat, j: nat, ls: seq<Node>, end: Levels, l: Levels, outer: seq<Levels>)
    requires i + 1 < j < |toks| && toks[i].Id? && !Plain(toks, i) && toks[j].RightParen?
    requires Passes(toks, i + 2, At(outer + [l], FLAT), ls, j, At(outer + [l], end))
    ensures Passes(toks, i, At(outer, l), ls, j + 1, At(outer, l))
  {
    var here, none: seq<Node> := At(outer, l), [];
    Enclosed(toks, i + 1, j, ls, end, l, outer);
    NameIsNoOperand(toks, i, l, outer, false);
    assert here.(named := false) == here;
    PassesOn(toks, i, here, none, i + 1, here, ls, j + 1, here);
    assert none + ls == ls;
  }

  lemma {:induction false} NameIsNoOperand(toks: seq<Token>, i: nat, l: Levels, outer: seq<Levels>, named: bool)
    requires i < |toks| && toks[i].Id?
    requires named || (!Plain(toks, i) && IsCompound(toks, i))
    ensures Passes(toks, i, At(outer, l).(named := named), [], i + 1, At(outer, l))
  {
    var from := At(outer, l).(named := named);
    assert from.frames[..|outer|] == outer;
    PassesOne(toks, i, from, [], At(outer, l));
  }

  lemma {:induction false} PipeIsNoOperand(toks: seq<Token>, i: nat, l: Levels, outer: seq<Levels>)
    requires i + 1 < |toks| && toks[i].Pipe? && toks[i + 1].Id?
    ensures Passes(toks, i, At(outer, l), [], i + 2, At(outer, l))
  {
    var none: seq<Node> := [];
    PassesOne(toks, i, At(outer, l), none, At(outer, l).(named := true));
    NameIsNoOperand(toks, i + 1, l, outer, true);
    PassesOn(toks, i, At(outer, l), none, i + 1, At(outer, l).(named := true), none, i + 2, At(outer, l));
    assert none + none == none;
  }

  /** A pipe, a function name, and further arguments if there are parentheses. */
  lemma {:induction false} PipeLeaves(
    known: Library, toks: seq<Token>, i: nat, s: Stacks, l: Levels, outer: seq<Levels>, c: Operand)
    returns (ls: seq<Node>)
    requires i < |toks| && toks[i].Pipe? && Compound(known, toks, i, s) == c && c.Operand?
    ensures AllLeaves(c.s.args) == AllLeaves(s.args) + ls
    ensures Passes(toks, i, At(outer, l), ls, c.next, At(outer, l))
    decreases |toks| - i, 0, 0
  {
    PipeIsNoOperand(toks, i, l, outer);
    var first := s.args[|s.args| - 1];
    if Tok(toks, i + 2).LeftParen? {
      var a := CallArguments(known, toks, i + 3, [first]);
      var end;
      ls, end := ArgumentsLeaves(known, toks, i + 3, [first], outer + [l], a);
      Enclosed(toks, i + 2, a.next, ls, end, l, outer);
      PassesOn(toks, i, At(outer, l), [], i + 2, At(outer, l), ls, a.next + 1, At(outer, l));
      assert [] + ls == ls;
      PipeTakesLast(s, toks[i + 1].text, a.args, ls);
    } else {
      ls := [];
      PipeTakesLast(s, toks[i + 1].text, [first], ls);
    }
  }

  lemma {:induction false} PipeTakesLast(s: Stacks, name: string, args: seq<Node>, ls: seq<Node>)
    requires s.args != [] && AllLeaves(args) == AllLeaves([s.args[|s.args| - 1]]) + ls
    ensures var m := |s.args| - 1;
            AllLeaves(Push(s.(args := s.args[..m]), Call(name, args)).args) == AllLeaves(s.args) + ls
  {
    var m := |s.args| - 1;
    LeavesAppend(s.args[..m], [s.args[m]]);
    assert s.args[..m] + [s.args[m]] == s.args;
    PushLeaves(s.(args := s.args[..m]), Call(name, args));
  }

  /** What is read between parentheses is read with the brackets outside untouched. */
  lemma {:induction false} Enclosed(
    toks: seq<Token>, i: nat, j: nat, ls: seq<Node>, end: Levels, l: Levels, outer: seq<Levels>)
    requires i < j < |toks| && toks[i].LeftParen? && toks[j].RightParen?
    requires Passes(toks, i + 1, At(outer + [l], FLAT), ls, j, At(outer + [l], end))
    ensures Passes(toks, i, At(outer, l), ls, j + 1, At(outer, l))
  {
    assert (outer + [l] + [end])[..|outer| + 1] == outer + [l];
    PassesOne(toks, i, At(outer, l), [], At(outer + [l], FLAT));
    PassesOne(toks, j, At(outer + [l], end), [], At(outer, l));
    PassesOn(toks, i, At(outer, l), [], i + 1, At(outer + [l], FLAT), ls, j, At(outer + [l], end));
    PassesOn(toks, i, At(outer, l), [] + ls, j, At(outer + [l], end), [], j + 1, At(outer, l));
    assert [] + ls + [] == ls;
  }

  lemma {:induction false} AroundComma(
    toks: seq<Token>, i: nat, comma: nat, k: nat, ls: seq<Node>, rest: seq<Node>, t: Scanner, outer: seq<Levels>)
    requires comma < |toks| && toks[comma].Comma?
    requires Passes(toks, i, At(outer, FLAT), ls, comma, At(outer, FLAT))
    requires Passes(toks, comma + 1, At(outer, FLAT), rest, k, t)
    ensures Passes(toks, i, At(outer, FLAT), ls + rest, k, t)
  {
    var flat := At(outer, FLAT);
    assert WithTop(flat, FLAT) == flat;
    PassesOne(toks, comma, flat, [], flat);
    PassesOn(toks, i, flat, ls, comma, flat, [], comma + 1, flat);
    assert ls + [] == ls;
    PassesOn(toks, i, flat, ls, comma + 1, flat, rest, k, t);
  }

  lemma {:induction false} ArgumentsLeaves(
    known: Library, toks: seq<Token>, i: nat, args: seq<Node>, outer: seq<Levels>, a: Arguments)
    returns (ls: seq<Node>, end: Levels)
    requires i <= |toks| && CallArguments(known, toks, i, args) == a && a.Arguments?
    ensures AllLeaves(a.args) == AllLeaves(args) + ls
    ensures Passes(toks, i, At(outer, FLAT), ls, a.next, At(outer, end))
    decreases |toks| - i, 2
  {
    var e, given := ArgumentTurn(known, toks, i, args, a);
    ls, end := LoopLeaves(known, toks, i, Stacks([], []), FLAT, outer, e);
    LeavesAppend(args, OneOrNone(e.node));
    if e.next != a.next {
      var rest;
      rest, end := ArgumentsLeaves(known, toks, e.next + 1, given, outer, a);
      AroundComma(toks, i, e.next, a.next, ls, rest, At(outer, end), outer);
      ls := ls + rest;
    }
  }

  /** One turn of the loop over the arguments: the last one, or one with a comma behind it. */
  lemma {:induction false} ArgumentTurn(known: Library, toks: seq<Token>, i: nat, args: seq<Node>, a: Arguments)
    returns (e: Parsed, given: seq<Node>)
    requires i <= |toks| && CallArguments(known, toks, i, args) == a && a.Arguments?
    ensures Loop(known, toks, i, Stacks([], []), FLAT) == e && e.Found? && i <= e.next < |toks|
    ensures given == args + OneOrNone(e.node)
    ensures if e.next == a.next then a.args == given
            else toks[e.next].Comma? && CallArguments(known, toks, e.next + 1, given) == a
  {
    e := Loop(known, toks, i, Stacks([], []), FLAT);
    given := args + OneOrNone(e.node);
  }

  /** The leaves of a parsed expression are the operands among its tokens. */
  lemma {:induction false} LeavesAreTheOperands(known: Library, toks: seq<Token>, i: nat)
    returns (ls: seq<Node>, end: Levels)
    requires i <= |toks| && Parse(known, toks, i).Found?
    ensures Reads(toks, i, BEGIN, ls, Parse(known, toks, i).next, At([], end))
    ensures AllLeaves(OneOrNone(Parse(known, toks, i).node)) == ls
  {
    ls, end := ParseLeaves(known, toks, i, Parse(known, toks, i));
  }

  lemma {:induction false} ParseLeaves(known: Library, toks: seq<Token>, i: nat, r: Parsed)
    returns (ls: seq<Node>, end: Levels)
    requires i <= |toks| && Loop(known, toks, i, Stacks([], []), FLAT) == r && r.Found?
    ensures Reads(toks, i, BEGIN, ls, r.next, At([], end)) && AllLeaves(OneOrNone(r.node)) == ls
  {
    ls, end := LoopLeaves(known, toks, i, Stacks([], []), FLAT, [], r);
    assert AllLeaves([]) + ls == ls && At([], FLAT) == BEGIN;
    PassesIsReads(toks, i, BEGIN, ls, r.next, At([], end));
  }

  /** What the scanner reads between two positions is determined. */
  lemma {:induction false} ReadsIsUnique(
    toks: seq<Token>, i: nat, s: Scanner, a: seq<Node>, j: nat, t: Scanner, b: seq<Node>, u: Scanner)
    requires Reads(toks, i, s, a, j, t) && Reads(toks, i, s, b, j, u)
    ensures a == b && t == u
    decreases j - i
  {
    if i < j {
      var o := OneOrNone(OperandAt(toks, i, s));
      ReadsIsUnique(toks, i + 1, Step(toks, i, s), a[|o|..], j, t, b[|o|..], u);
      assert a == o + a[|o|..] && b == o + b[|o|..];
    }
  }
}
