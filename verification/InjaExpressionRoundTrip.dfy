/**
Printing an expression with only the parentheses the operator table demands and
parsing it again gives the expression back.
*/
module InjaExpressionRoundTrip {
  import opened Wrappers
  import opened InjaExpression

  // -------------------------------------------------------------------- printing

  function OperatorToken(op: Op): Token {
    match op
    case Not => Id("not")
    case And => Id("and")
    case Or => Id("or")
    case In => Id("in")
    case _ => Symbol(op)
  }

  /** An operand of `op` is parenthesised exactly when the parser would take it apart. */
  predicate WrapLeft(op: Op, n: Node) {
    n.Apply? && !Pops(n.op, Some(op))
  }

  predicate WrapRight(op: Op, n: Node) {
    n.Apply? && Pops(op, Some(n.op))
  }

  function Wrapped(wrap: bool, toks: seq<Token>): seq<Token> {
    if wrap then [LeftParen] + toks + [RightParen] else toks
  }

  function Print(n: Node): seq<Token>
    requires Proper(n)
  {
    match n
    case Literal(tokens) => tokens
    case Data(name) => [Id(name)]
    case Call(name, args) => [Id(name), LeftParen] + PrintArguments(args) + [RightParen]
    case Apply(op, args) =>
      var last := args[|args| - 1];
      var right := [OperatorToken(op)] + Wrapped(WrapRight(op, last), Print(last));
      if op.Not? then right else Wrapped(WrapLeft(op, args[0]), Print(args[0])) + right
  }

  function PrintArguments(args: seq<Node>): seq<Token>
    requires forall i | 0 <= i < |args| :: Proper(args[i])
  {
    if args == [] then []
    else if |args| == 1 then Print(args[0])
    else Print(args[0]) + [Comma] + PrintArguments(args[1..])
  }

  // --------------------------------------------------------------- printable trees

  /** The rest of a bracketed literal with the given brackets open: it ends where the last one closes. */
  predicate ClosesGroup(toks: seq<Token>, bracket: nat, brace: nat) {
    toks != [] &&
    match toks[0]
    case LeftBracket => ClosesGroup(toks[1..], bracket + 1, brace)
    case LeftBrace => ClosesGroup(toks[1..], bracket, brace + 1)
    case RightBracket =>
      bracket > 0 && if bracket + brace == 1 then |toks| == 1 else ClosesGroup(toks[1..], bracket - 1, brace)
    case RightBrace =>
      brace > 0 && if bracket + brace == 1 then |toks| == 1 else ClosesGroup(toks[1..], bracket, brace - 1)
    case StringLit(_) => ClosesGroup(toks[1..], bracket, brace)
    case NumberLit(_) => ClosesGroup(toks[1..], bracket, brace)
    case Comma => ClosesGroup(toks[1..], bracket, brace)
    case Colon => ClosesGroup(toks[1..], bracket, brace)
    case Id(text) => IsConstant(text) && ClosesGroup(toks[1..], bracket, brace)
    case _ => false
  }

  /** A string, a number, a constant, or a list or object of such. */
  predicate IsLiteral(toks: seq<Token>) {
    || (|toks| == 1 && (toks[0].StringLit? || toks[0].NumberLit? || (toks[0].Id? && IsConstant(toks[0].text))))
    || (toks != [] && toks[0].LeftBracket? && ClosesGroup(toks[1..], 1, 0))
    || (toks != [] && toks[0].LeftBrace? && ClosesGroup(toks[1..], 0, 1))
  }

  /** A tree the grammar can express; which functions exist is a separate question. */
  predicate Proper(n: Node) {
    match n
    case Literal(tokens) => IsLiteral(tokens)
    case Data(name) => !IsKeyword(name)
    case Apply(op, args) => |args| == Arity(op) && forall i | 0 <= i < |args| :: Proper(args[i])
    case Call(name, args) => !IsKeyword(name) && forall i | 0 <= i < |args| :: Proper(args[i])
  }

  /** Every function called is in the library. */
  predicate Linked(known: Library, n: Node) {
    match n
    case Literal(_) => true
    case Data(_) => true
    case Apply(_, args) => forall i | 0 <= i < |args| :: Linked(known, args[i])
    case Call(name, args) => known(name, |args|) && forall i | 0 <= i < |args| :: Linked(known, args[i])
  }

  // ------------------------------------------------------------------------ spines

  /** What a printed tree leaves on the stacks: its right spine, still open. */
  function Spine(n: Node): Stacks
    requires Proper(n)
    decreases n, 0
  {
    if !n.Apply? then Stacks([n], [])
    else
      var last := n.args[|n.args| - 1];
      var r := RightSpine(n.op, last);
      Stacks(n.args[..|n.args| - 1] + r.args, [n.op] + r.ops)
  }

  function RightSpine(op: Op, n: Node): Stacks
    requires Proper(n)
    decreases n, 1
  {
    if WrapRight(op, n) then Stacks([n], []) else Spine(n)
  }

  function Over(s: Stacks, top: Stacks): Stacks {
    Stacks(s.args + top.args, s.ops + top.ops)
  }

  predicate AllPop(ops: seq<Op>, next: Option<Op>) {
    forall i | 0 <= i < |ops| :: Pops(ops[i], next)
  }

  lemma {:induction false} SpinePops(n: Node, next: Option<Op>)
    requires Proper(n) && n.Apply? && Pops(n.op, next)
    ensures AllPop(Spine(n).ops, next)
  {
    var last := n.args[|n.args| - 1];
    var right := RightSpine(n.op, last).ops;
    if !last.Apply? || WrapRight(n.op, last) {
      assert last.Apply? || Spine(last).ops == [];
      assert right == [];
    } else {
      SpinePops(last, next);
      assert right == Spine(last).ops;
    }
    assert Spine(n).ops == [n.op] + right;
    assert forall i | 0 < i < |Spine(n).ops| :: Spine(n).ops[i] == right[i - 1];
  }

  lemma {:induction false} OverAssoc(s: Stacks, a: Stacks, b: Stacks)
    ensures Over(Over(s, a), b) == Over(s, Over(a, b))
  {
    assert (s.args + a.args) + b.args == s.args + (a.args + b.args);
    assert (s.ops + a.ops) + b.ops == s.ops + (a.ops + b.ops);
  }

  /** Closing the operators of a spine puts the tree together again. */
  lemma {:induction false} SpineCloses(s: Stacks, n: Node, next: Option<Op>)
    requires Proper(n) && AllPop(Spine(n).ops, next)
    ensures Reduce(Over(s, Spine(n)), next) == Reduce(Push(s, n), next)
    decreases n
  {
    if !n.Apply? {
      assert Over(s, Spine(n)) == Push(s, n);
    } else {
      var k := |n.args| - 1;
      var last := n.args[k];
      var open := Over(s, Stacks(n.args[..k], [n.op]));
      var r := RightSpine(n.op, last);
      OverAssoc(s, Stacks(n.args[..k], [n.op]), r);
      assert Over(s, Spine(n)) == Over(open, r);
      assert forall i | 0 <= i < |r.ops| :: r.ops[i] == Spine(n).ops[i + 1];
      if WrapRight(n.op, last) {
        assert Over(open, r) == Push(open, last);
      } else {
        SpineCloses(open, last, next);
      }
      AddsBack(s, n, Push(open, last));
      assert Spine(n).ops[0] == n.op;
    }
  }

  lemma {:induction false} AddsBack(s: Stacks, n: Node, full: Stacks)
    requires n.Apply? && |n.args| == Arity(n.op)
    requires full == Push(Over(s, Stacks(n.args[..|n.args| - 1], [n.op])), n.args[|n.args| - 1])
    ensures full.ops != [] && full.ops[|full.ops| - 1] == n.op
    ensures AddOperator(full) == Ok(Push(s, n))
  {
    assert n.args == n.args[..|n.args| - 1] + [n.args[|n.args| - 1]];
    assert full.args == s.args + n.args;
    assert full.args[|s.args|..] == n.args && full.args[..|s.args|] == s.args;
    assert full.ops[..|s.ops|] == s.ops;
  }

  // ------------------------------------------------------------------------ feeding

  /** `part` is what `toks` holds from token `i` on. */
  predicate At(toks: seq<Token>, i: nat, part: seq<Token>) {
    i + |part| <= |toks| && toks[i..i + |part|] == part
  }

  lemma {:induction false} AtSplit(toks: seq<Token>, i: nat, a: seq<Token>, b: seq<Token>)
    requires At(toks, i, a + b)
    ensures At(toks, i, a) && At(toks, i + |a|, b)
  {
    assert toks[i..i + |a + b|][..|a|] == a && toks[i..i + |a + b|][|a|..] == b;
  }

  lemma {:induction false} AtFirst(toks: seq<Token>, i: nat, part: seq<Token>)
    requires At(toks, i, part) && part != []
    ensures i < |toks| && toks[i] == part[0] && At(toks, i + 1, part[1..])
  {
    assert part == part[..1] + part[1..];
    AtSplit(toks, i, part[..1], part[1..]);
    assert toks[i..i + 1][0] == part[0];
  }

  lemma {:induction false} AtToken(toks: seq<Token>, i: nat, t: Token, rest: seq<Token>)
    requires At(toks, i, [t] + rest)
    ensures i < |toks| && toks[i] == t && At(toks, i + 1, rest)
  {
    AtFirst(toks, i, [t] + rest);
    assert ([t] + rest)[1..] == rest;
  }

  /** A token no expression can go on with. */
  predicate Stops(t: Token) {
    || t.Eof? || t.Comma? || t.RightParen? || t.ExpressionClose? || t.StatementClose? || t.LineStatementClose?
  }

  /** Reading the operator at the root of `n` leaves the stacked operators alone. */
  predicate Admits(ops: seq<Op>, n: Node) {
    n.Apply? && ops != [] ==> !Pops(ops[|ops| - 1], Some(n.op))
  }

  /** What a printed operand leaves on the stacks. */
  function OperandSpine(wrap: bool, n: Node): Stacks
    requires Proper(n)
  {
    if wrap then Stacks([n], []) else Spine(n)
  }

  /** The loop ends in `r` when it goes on from token `i` with these stacks and brackets. */
  predicate Yields(known: Library, toks: seq<Token>, i: nat, s: Stacks, l: Levels, r: Parsed) {
    i <= |toks| && l.start <= i && Loop(known, toks, i, s, l) == r
  }

  /** However the loop ends from token `j`, so it does from token `i`. */
  ghost predicate Goes(
    known: Library, toks: seq<Token>, i: nat, s: Stacks, l: Levels, j: nat, t: Stacks, m: Levels)
  {
    forall r :: Yields(known, toks, j, t, m, r) ==> Yields(known, toks, i, s, l, r)
  }

  /** The same outside brackets. */
  ghost predicate Feeds(known: Library, toks: seq<Token>, i: nat, s: Stacks, j: nat, t: Stacks) {
    Goes(known, toks, i, s, FLAT, j, t, FLAT)
  }

  lemma {:induction false} FeedsOn(
    known: Library, toks: seq<Token>, i: nat, s: Stacks, j: nat, t: Stacks, k: nat, u: Stacks)
    requires Feeds(known, toks, i, s, j, t) && Feeds(known, toks, j, t, k, u)
    ensures Feeds(known, toks, i, s, k, u)
  {
  }

  /** A token inside a bracketed literal that does not end it. */
  lemma {:induction false} GroupToken(known: Library, toks: seq<Token>, i: nat, s: Stacks, l: Levels, m: Levels)
    requires i < |toks| && l.start <= i && !Flat(l)
    requires var t := toks[i];
             if t.LeftBracket? || t.LeftBrace? then m == Opened(l, i, t.LeftBracket?)
             else if t.RightBracket? then l.bracket > 0 && m == Closed(l, true) && !Flat(m)
             else if t.RightBrace? then l.brace > 0 && m == Closed(l, false) && !Flat(m)
             else m == l && (t.StringLit? || t.NumberLit? || t.Comma? || t.Colon? || (t.Id? && IsConstant(t.text)))
    ensures Goes(known, toks, i, s, l, i + 1, s, m)
  {
    assert toks[i].Comma? || toks[i].Colon? ==> OperatorOf(toks[i]).None?;
  }

  lemma {:induction false} GroupEnd(known: Library, toks: seq<Token>, i: nat, s: Stacks, l: Levels, t: Stacks)
    requires i < |toks| && l.start <= i && !Flat(l)
    requires (toks[i].RightBracket? && l.bracket > 0 && Flat(Closed(l, true)))
             || (toks[i].RightBrace? && l.brace > 0 && Flat(Closed(l, false)))
    requires t == Push(s, Literal(toks[l.start..i + 1]))
    ensures Goes(known, toks, i, s, l, i + 1, t, FLAT)
  {
  }

  lemma {:induction false} FeedGroup(
    known: Library, toks: seq<Token>, i: nat, rest: seq<Token>, s: Stacks, l: Levels, end: nat, t: Stacks)
    requires At(toks, i, rest) && l.start <= i && !Flat(l) && ClosesGroup(rest, l.bracket, l.brace)
    requires end == i + |rest| && t == Push(s, Literal(toks[l.start..end]))
    ensures Goes(known, toks, i, s, l, end, t, FLAT)
    decreases |rest|
  {
    AtFirst(toks, i, rest);
    var tok := rest[0];
    if (tok.RightBracket? || tok.RightBrace?) && l.bracket + l.brace == 1 {
      GroupEnd(known, toks, i, s, l, t);
    } else {
      var m := if tok.LeftBracket? || tok.LeftBrace? then Opened(l, i, tok.LeftBracket?)
               else if tok.RightBracket? || tok.RightBrace? then Closed(l, tok.RightBracket?)
               else l;
      GroupToken(known, toks, i, s, l, m);
      FeedGroup(known, toks, i + 1, rest[1..], s, m, end, t);
    }
  }

  lemma {:induction false} FeedConstant(known: Library, toks: seq<Token>, i: nat, n: Node, s: Stacks)
    requires n.Literal? && Proper(n) && |n.tokens| == 1 && i < |toks| && toks[i] == n.tokens[0]
    ensures Feeds(known, toks, i, s, i + 1, Push(s, n))
  {
    assert n.tokens == [toks[i]];
  }

  lemma {:induction false} OpenGroup(known: Library, toks: seq<Token>, i: nat, s: Stacks)
    requires i < |toks| && (toks[i].LeftBracket? || toks[i].LeftBrace?)
    ensures Goes(known, toks, i, s, FLAT, i + 1, s, Opened(FLAT, i, toks[i].LeftBracket?))
  {
  }

  lemma {:induction false} FeedLiteral(known: Library, toks: seq<Token>, i: nat, n: Node, s: Stacks, end: nat)
    requires n.Literal? && Proper(n) && At(toks, i, n.tokens) && end == i + |n.tokens|
    ensures Feeds(known, toks, i, s, end, Push(s, n))
  {
    AtFirst(toks, i, n.tokens);
    if |n.tokens| == 1 {
      FeedConstant(known, toks, i, n, s);
    } else {
      OpenGroup(known, toks, i, s);
      FeedGroup(known, toks, i + 1, n.tokens[1..], s, Opened(FLAT, i, n.tokens[0].LeftBracket?), end, Push(s, n));
    }
  }

  lemma {:induction false} FeedData(known: Library, toks: seq<Token>, i: nat, n: Node, s: Stacks)
    requires n.Data? && Proper(n) && i < |toks| && toks[i] == Id(n.name) && !Tok(toks, i + 1).LeftParen?
    ensures Feeds(known, toks, i, s, i + 1, Push(s, n))
  {
  }

  /** Reading an operator, when it is clear what closing operators before it leaves. */
  lemma {:induction false} FeedSymbol(known: Library, toks: seq<Token>, i: nat, op: Op, s: Stacks, reduced: Stacks, t: Stacks)
    requires i < |toks| && toks[i] == OperatorToken(op)
    requires Reduce(s, Some(op)) == Ok(reduced) && t == reduced.(ops := reduced.ops + [op])
    ensures Feeds(known, toks, i, s, i + 1, t)
  {
    assert OperatorOf(toks[i]) == Some(op);
  }

  /** Reading an operator after its left operand puts that operand together. */
  lemma {:induction false} FeedOperator(known: Library, toks: seq<Token>, i: nat, op: Op, left: Node, s: Stacks)
    requires i < |toks| && toks[i] == OperatorToken(op) && Proper(left)
    requires s.ops != [] ==> !Pops(s.ops[|s.ops| - 1], Some(op))
    ensures Feeds(known, toks, i, Over(s, OperandSpine(WrapLeft(op, left), left)), i + 1, Over(s, Stacks([left], [op])))
  {
    var open := OperandSpine(WrapLeft(op, left), left);
    PutTogether(op, left, s);
    assert Push(s, left).(ops := s.ops + [op]) == Over(s, Stacks([left], [op]));
    FeedSymbol(known, toks, i, op, Over(s, open), Push(s, left), Over(s, Stacks([left], [op])));
  }

  lemma {:induction false} PutTogether(op: Op, left: Node, s: Stacks)
    requires Proper(left) && (s.ops != [] ==> !Pops(s.ops[|s.ops| - 1], Some(op)))
    ensures Reduce(Over(s, OperandSpine(WrapLeft(op, left), left)), Some(op)) == Ok(Push(s, left))
  {
    if WrapLeft(op, left) {
      assert Over(s, Stacks([left], [])) == Push(s, left);
    } else {
      if left.Apply? {
        SpinePops(left, Some(op));
      }
      SpineCloses(s, left, Some(op));
    }
    assert Reduce(Push(s, left), Some(op)) == Ok(Push(s, left));
  }

  /** Reading `not` when nothing stacked closes before it. */
  lemma {:induction false} FeedNot(known: Library, toks: seq<Token>, i: nat, s: Stacks)
    requires i < |toks| && toks[i] == OperatorToken(Not)
    requires s.ops != [] ==> !Pops(s.ops[|s.ops| - 1], Some(Not))
    ensures Feeds(known, toks, i, s, i + 1, Over(s, Stacks([], [Not])))
  {
    assert Reduce(s, Some(Not)) == Ok(s);
    assert s.(ops := s.ops + [Not]) == Over(s, Stacks([], [Not]));
    FeedSymbol(known, toks, i, Not, s, s, Over(s, Stacks([], [Not])));
  }

  /** Where the parts of a printed operator stand. */
  lemma {:induction false} PartsOfApply(toks: seq<Token>, i: nat, n: Node) returns (at: nat)
    requires Proper(n) && n.Apply? && At(toks, i, Print(n))
    ensures at < |toks| && toks[at] == OperatorToken(n.op)
    ensures var last := n.args[|n.args| - 1];
            var right := Wrapped(WrapRight(n.op, last), Print(last));
            At(toks, at + 1, right) && at + 1 + |right| == i + |Print(n)|
    ensures if n.op.Not? then at == i
            else var left := Wrapped(WrapLeft(n.op, n.args[0]), Print(n.args[0]));
                 At(toks, i, left) && at == i + |left|
  {
    var last := n.args[|n.args| - 1];
    var right := Wrapped(WrapRight(n.op, last), Print(last));
    at := i;
    if !n.op.Not? {
      var left := Wrapped(WrapLeft(n.op, n.args[0]), Print(n.args[0]));
      at := i + |left|;
      AtSplit(toks, i, left, [OperatorToken(n.op)] + right);
    }
    AtToken(toks, at, OperatorToken(n.op), right);
  }

  /** The stacks while the last operand of `n` is still to come. */
  function Awaiting(s: Stacks, n: Node): Stacks
    requires Proper(n) && n.Apply?
  {
    Over(s, Stacks(n.args[..|n.args| - 1], [n.op]))
  }

  lemma {:induction false} AwaitingThenLast(s: Stacks, n: Node)
    requires Proper(n) && n.Apply?
    ensures var last := n.args[|n.args| - 1];
            Over(Awaiting(s, n), OperandSpine(WrapRight(n.op, last), last)) == Over(s, Spine(n))
    ensures Awaiting(s, n).ops[|s.ops|..] == [n.op]
  {
    OverAssoc(s, Stacks(n.args[..|n.args| - 1], [n.op]), RightSpine(n.op, n.args[|n.args| - 1]));
  }

  /** Everything of an operator but its last operand. */
  lemma {:induction false} FeedHead(known: Library, toks: seq<Token>, i: nat, at: nat, n: Node, s: Stacks)
    requires Proper(n) && n.Apply? && Linked(known, n) && Admits(s.ops, n)
    requires at < |toks| && toks[at] == OperatorToken(n.op)
    requires if n.op.Not? then at == i
             else var left := Wrapped(WrapLeft(n.op, n.args[0]), Print(n.args[0]));
                  At(toks, i, left) && at == i + |left|
    ensures Feeds(known, toks, i, s, at + 1, Awaiting(s, n))
    decreases n, 0
  {
    if n.op.Not? {
      assert n.args[..|n.args| - 1] == [];
      FeedNot(known, toks, i, s);
    } else {
      var left := n.args[0];
      assert n.args[..|n.args| - 1] == [left];
      var read := Over(s, OperandSpine(WrapLeft(n.op, left), left));
      FeedOperand(known, toks, i, WrapLeft(n.op, left), left, s, at);
      FeedOperator(known, toks, at, n.op, left, s);
      FeedsOn(known, toks, i, s, at, read, at + 1, Awaiting(s, n));
    }
  }

  lemma {:induction false} FeedTail(known: Library, toks: seq<Token>, at: nat, end: nat, n: Node, s: Stacks)
    requires Proper(n) && n.Apply? && Linked(known, n) && Admits(s.ops, n)
    requires var last := n.args[|n.args| - 1];
             var right := Wrapped(WrapRight(n.op, last), Print(last));
             At(toks, at + 1, right) && at + 1 + |right| == end
    requires !Tok(toks, end).LeftParen?
    ensures Feeds(known, toks, at + 1, Awaiting(s, n), end, Over(s, Spine(n)))
    decreases n, 1
  {
    var last := n.args[|n.args| - 1];
    AwaitingThenLast(s, n);
    FeedOperand(known, toks, at + 1, WrapRight(n.op, last), last, Awaiting(s, n), end);
  }

  lemma {:induction false} FeedApply(known: Library, toks: seq<Token>, i: nat, n: Node, s: Stacks, end: nat)
    requires Proper(n) && n.Apply? && Linked(known, n) && At(toks, i, Print(n)) && Admits(s.ops, n)
    requires end == i + |Print(n)| && !Tok(toks, end).LeftParen?
    ensures Feeds(known, toks, i, s, end, Over(s, Spine(n)))
    decreases n, 2
  {
    var at := PartsOfApply(toks, i, n);
    FeedHead(known, toks, i, at, n, s);
    FeedTail(known, toks, at, end, n, s);
    ghost var awaiting, done := Awaiting(s, n), Over(s, Spine(n));
    FeedsOn(known, toks, i, s, at + 1, awaiting, end, done);
  }

  lemma {:induction false} Feed(known: Library, toks: seq<Token>, i: nat, n: Node, s: Stacks, end: nat)
    requires Proper(n) && Linked(known, n) && At(toks, i, Print(n)) && Admits(s.ops, n)
    requires end == i + |Print(n)| && !Tok(toks, end).LeftParen?
    ensures Feeds(known, toks, i, s, end, Over(s, Spine(n)))
    decreases n, 3
  {
    if n.Apply? {
      FeedApply(known, toks, i, n, s, end);
    } else {
      assert Over(s, Spine(n)) == Push(s, n);
      if n.Literal? {
        FeedLiteral(known, toks, i, n, s, end);
      } else if n.Call? {
        FeedCall(known, toks, i, n, s, end);
      } else {
        AtFirst(toks, i, Print(n));
        FeedData(known, toks, i, n, s);
      }
    }
  }

  lemma {:induction false} PartsOfParens(toks: seq<Token>, i: nat, inner: seq<Token>)
    requires At(toks, i, Wrapped(true, inner))
    ensures At(toks, i + 1, inner) && i + 1 + |inner| < |toks|
    ensures toks[i].LeftParen? && toks[i + 1 + |inner|].RightParen?
  {
    assert Wrapped(true, inner) == [LeftParen] + (inner + [RightParen]);
    AtToken(toks, i, LeftParen, inner + [RightParen]);
    AtSplit(toks, i + 1, inner, [RightParen]);
    AtFirst(toks, i + 1 + |inner|, [RightParen]);
  }

  /** A parenthesised expression is one operand. */
  lemma {:induction false} FeedParens(known: Library, toks: seq<Token>, i: nat, close: nat, n: Node, s: Stacks)
    requires i < close < |toks| && toks[i].LeftParen? && toks[close].RightParen?
    requires Parse(known, toks, i + 1) == Found(Some(n), close)
    ensures Feeds(known, toks, i, s, close + 1, Push(s, n))
  {
    assert Compound(known, toks, i, s) == Operand(Push(s, n), close + 1);
  }

  lemma {:induction false} FeedOperand(known: Library, toks: seq<Token>, i: nat, wrap: bool, n: Node, s: Stacks, end: nat)
    requires Proper(n) && Linked(known, n) && At(toks, i, Wrapped(wrap, Print(n))) && end == i + |Wrapped(wrap, Print(n))|
    requires !wrap ==> Admits(s.ops, n) && !Tok(toks, end).LeftParen?
    ensures Feeds(known, toks, i, s, end, Over(s, OperandSpine(wrap, n)))
    decreases n, 5
  {
    if wrap {
      PartsOfParens(toks, i, Print(n));
      FeedWhole(known, toks, i + 1, n);
      FeedParens(known, toks, i, end - 1, n, s);
      assert Over(s, Stacks([n], [])) == Push(s, n);
    } else {
      Feed(known, toks, i, n, s, end);
    }
  }

  /** At a token that ends it, an expression is concluded. */
  lemma {:induction false} StopsHere(known: Library, toks: seq<Token>, i: nat, s: Stacks)
    requires i <= |toks| && Stops(Tok(toks, i))
    ensures Yields(known, toks, i, s, FLAT, Conclude(s, i))
  {
  }

  /** A printed tree followed by a token that ends it parses to that tree. */
  lemma {:induction false} FeedWhole(known: Library, toks: seq<Token>, i: nat, n: Node)
    requires Proper(n) && Linked(known, n) && At(toks, i, Print(n)) && Stops(Tok(toks, i + |Print(n)|))
    ensures Parse(known, toks, i) == Found(Some(n), i + |Print(n)|)
    decreases n, 4
  {
    var empty, end := Stacks([], []), i + |Print(n)|;
    Feed(known, toks, i, n, empty, end);
    StopsHere(known, toks, end, Over(empty, Spine(n)));
    Concludes(n, end);
    assert Yields(known, toks, i, empty, FLAT, Found(Some(n), end));
  }

  lemma {:induction false} Concludes(n: Node, end: nat)
    requires Proper(n)
    ensures Conclude(Over(Stacks([], []), Spine(n)), end) == Found(Some(n), end)
  {
    var empty := Stacks([], []);
    SpineCloses(empty, n, None);
    assert Push(empty, n).args == [n];
  }

  lemma {:induction false} PartsOfCall(toks: seq<Token>, i: nat, n: Node)
    requires Proper(n) && n.Call? && At(toks, i, Print(n))
    ensures i + 1 < |toks| && toks[i] == Id(n.name) && toks[i + 1].LeftParen?
    ensures At(toks, i + 2, PrintArguments(n.args) + [RightParen])
    ensures i + |Print(n)| == i + 3 + |PrintArguments(n.args)|
  {
    var inner := PrintArguments(n.args) + [RightParen];
    assert Print(n) == [Id(n.name)] + ([LeftParen] + inner);
    AtToken(toks, i, Id(n.name), [LeftParen] + inner);
    AtToken(toks, i + 1, LeftParen, inner);
  }

  /** A call whose arguments have been read is one operand. */
  lemma {:induction false} FeedCalled(known: Library, toks: seq<Token>, i: nat, n: Node, s: Stacks, close: nat)
    requires n.Call? && !IsKeyword(n.name) && known(n.name, |n.args|)
    requires i + 1 < |toks| && toks[i] == Id(n.name) && toks[i + 1].LeftParen?
    requires CallArguments(known, toks, i + 2, []) == Arguments(n.args, close)
    ensures Feeds(known, toks, i, s, close + 1, Push(s, n))
  {
    assert Compound(known, toks, i, s) == Operand(Push(s, n), close + 1);
  }

  lemma {:induction false} FeedCall(known: Library, toks: seq<Token>, i: nat, n: Node, s: Stacks, end: nat)
    requires Proper(n) && n.Call? && Linked(known, n) && At(toks, i, Print(n)) && end == i + |Print(n)|
    ensures Feeds(known, toks, i, s, end, Push(s, n))
    decreases n, 1
  {
    PartsOfCall(toks, i, n);
    FeedArguments(known, toks, i + 2, n.args, [], end - 1);
    assert [] + n.args == n.args;
    FeedCalled(known, toks, i, n, s, end - 1);
  }

  /** One argument and the comma behind it. */
  lemma {:induction false} NextArgument(known: Library, toks: seq<Token>, i: nat, n: Node, given: seq<Node>, comma: nat)
    requires i <= comma < |toks| && toks[comma].Comma? && Parse(known, toks, i) == Found(Some(n), comma)
    ensures CallArguments(known, toks, i, given) == CallArguments(known, toks, comma + 1, given + [n])
  {
  }

  /** The last argument and the right parenthesis behind it. */
  lemma {:induction false} LastArgument(known: Library, toks: seq<Token>, i: nat, n: Node, given: seq<Node>, close: nat)
    requires i <= close < |toks| && toks[close].RightParen? && Parse(known, toks, i) == Found(Some(n), close)
    ensures CallArguments(known, toks, i, given) == Arguments(given + [n], close)
  {
  }

  /** The right parenthesis where an argument could be. */
  lemma {:induction false} NoArgument(known: Library, toks: seq<Token>, i: nat, given: seq<Node>)
    requires i < |toks| && toks[i].RightParen?
    ensures CallArguments(known, toks, i, given) == Arguments(given, i)
  {
    StopsHere(known, toks, i, Stacks([], []));
    assert given + [] == given;
  }

  lemma {:induction false} PartsOfArguments(toks: seq<Token>, i: nat, args: seq<Node>) returns (comma: nat)
    requires |args| > 1 && forall k | 0 <= k < |args| :: Proper(args[k])
    requires At(toks, i, PrintArguments(args) + [RightParen])
    ensures At(toks, i, Print(args[0])) && comma == i + |Print(args[0])| < |toks| && toks[comma].Comma?
    ensures At(toks, comma + 1, PrintArguments(args[1..]) + [RightParen])
    ensures i + |PrintArguments(args)| == comma + 1 + |PrintArguments(args[1..])|
  {
    var rest := PrintArguments(args[1..]) + [RightParen];
    assert PrintArguments(args) + [RightParen] == Print(args[0]) + ([Comma] + rest);
    AtSplit(toks, i, Print(args[0]), [Comma] + rest);
    comma := i + |Print(args[0])|;
    AtToken(toks, comma, Comma, rest);
  }

  lemma {:induction false} FeedArguments(
    known: Library, toks: seq<Token>, i: nat, args: seq<Node>, given: seq<Node>, close: nat)
    requires forall k | 0 <= k < |args| :: Proper(args[k]) && Linked(known, args[k])
    requires At(toks, i, PrintArguments(args) + [RightParen]) && close == i + |PrintArguments(args)|
    ensures CallArguments(known, toks, i, given) == Arguments(given + args, close)
    decreases args, 1
  {
    if |args| > 1 {
      var next := FeedFirst(known, toks, i, args, given, close);
      FeedArguments(known, toks, next, args[1..], given + [args[0]], close);
      assert given + [args[0]] + args[1..] == given + args;
    } else {
      ClosingParen(toks, i, args, close);
      if args == [] {
        NoArgument(known, toks, i, given);
        assert given + args == given;
      } else {
        FeedLast(known, toks, i, args, given, close);
      }
    }
  }

  lemma {:induction false} FeedFirst(
    known: Library, toks: seq<Token>, i: nat, args: seq<Node>, given: seq<Node>, close: nat)
    returns (next: nat)
    requires |args| > 1 && forall k | 0 <= k < |args| :: Proper(args[k])
    requires Linked(known, args[0])
    requires At(toks, i, PrintArguments(args) + [RightParen]) && close == i + |PrintArguments(args)|
    ensures next <= |toks| && At(toks, next, PrintArguments(args[1..]) + [RightParen])
    ensures close == next + |PrintArguments(args[1..])|
    ensures CallArguments(known, toks, i, given) == CallArguments(known, toks, next, given + [args[0]])
    decreases args, 0
  {
    var comma := PartsOfArguments(toks, i, args);
    ReadArgument(known, toks, i, args[0], comma);
    NextArgument(known, toks, i, args[0], given, comma);
    next := comma + 1;
  }

  lemma {:induction false} FeedLast(
    known: Library, toks: seq<Token>, i: nat, args: seq<Node>, given: seq<Node>, close: nat)
    requires |args| == 1 && Proper(args[0]) && Linked(known, args[0]) && At(toks, i, Print(args[0]))
    requires close == i + |Print(args[0])| < |toks| && toks[close].RightParen?
    ensures CallArguments(known, toks, i, given) == Arguments(given + args, close)
    decreases args, 0
  {
    ReadArgument(known, toks, i, args[0], close);
    LastArgument(known, toks, i, args[0], given, close);
    assert given + args == given + [args[0]];
  }

  lemma {:induction false} ReadArgument(known: Library, toks: seq<Token>, i: nat, n: Node, end: nat)
    requires Proper(n) && Linked(known, n) && At(toks, i, Print(n)) && end == i + |Print(n)| && Stops(Tok(toks, end))
    ensures Parse(known, toks, i) == Found(Some(n), end)
    decreases n, 5
  {
    FeedWhole(known, toks, i, n);
  }

  lemma {:induction false} ClosingParen(toks: seq<Token>, i: nat, args: seq<Node>, close: nat)
    requires forall k | 0 <= k < |args| :: Proper(args[k])
    requires At(toks, i, PrintArguments(args) + [RightParen]) && close == i + |PrintArguments(args)|
    ensures At(toks, i, PrintArguments(args)) && close < |toks| && toks[close].RightParen?
  {
    AtSplit(toks, i, PrintArguments(args), [RightParen]);
    AtFirst(toks, close, [RightParen]);
  }

  /** The round trip: parsing the printed form of any expression gives that expression back. */
  lemma {:induction false} RoundTrip(known: Library, n: Node, rest: seq<Token>)
    requires Proper(n) && Linked(known, n) && Stops(Tok(rest, 0))
    ensures Parse(known, Print(n) + rest, 0) == Found(Some(n), |Print(n)|)
  {
    assert Tok(Print(n) + rest, |Print(n)|) == Tok(rest, 0);
    FeedWhole(known, Print(n) + rest, 0, n);
  }

  /** Printing is injective: two different expressions never look alike. */
  lemma {:induction false} PrintsDiffer(m: Node, n: Node)
    requires Proper(m) && Proper(n) && Print(m) == Print(n)
    ensures m == n
  {
    var any: Library := (name, k) => true;
    AllLinked(any, m);
    AllLinked(any, n);
    RoundTrip(any, m, []);
    RoundTrip(any, n, []);
  }

  lemma AllLinked(any: Library, n: Node)
    requires forall name, k :: any(name, k)
    ensures Linked(any, n)
  {
  }
}
