/**
The grammar of expressions, level by level, and that the parser gives every derivable
token sequence the tree of its derivation. The grammar names operators only; how the
parser's operator table comes to the same grouping is what is proved.
*/
module InjaGrammar {
  import opened Wrappers
  import opened InjaExpression
  import opened InjaExpressionRoundTrip

  /** How a token sequence is derived; parentheses are kept where they were written. */
  datatype Derivation =
    | Leaf(node: Node)
    | Paren(inner: Derivation)
    | CallOf(name: string, args: seq<Derivation>)
    | Piped(operand: Derivation, name: string, parens: bool, args: seq<Derivation>)
    | Negated(operand: Derivation)
    | Binary(left: Derivation, op: Op, right: Derivation)

  // ---------------------------------------------------------------------- the grammar

  predicate IsLogic(op: Op) {
    op.And? || op.Or?
  }

  predicate IsComparison(op: Op) {
    op.In? || op.Equal? || op.NotEqual? || op.Greater? || op.GreaterEqual? || op.Less? || op.LessEqual?
  }

  predicate IsSum(op: Op) {
    op.Add? || op.Subtract?
  }

  predicate IsProduct(op: Op) {
    op.Multiplication? || op.Division? || op.Modulo?
  }

  /** The level an operator makes, and the levels of its operands. */
  datatype Production = Production(makes: nat, left: nat, right: nat)

  /**
  logic      ::= logic (and|or) comparison | comparison
  comparison ::= comparison (in|==|!=|<|<=|>|>=) sum | sum
  sum        ::= sum (+|-) product | product
  product    ::= product (*|/|%) power | not power | power
  power      ::= path ^ power | path
  path       ::= path . primary | primary
  primary    ::= leaf | ( logic ) | name ( logic, ... ) | primary "|" name | primary "|" name ( logic, ... )
  */
  function ProductionOf(op: Op): Production {
    if IsLogic(op) then Production(0, 0, 1)
    else if IsComparison(op) then Production(1, 1, 2)
    else if IsSum(op) then Production(2, 2, 3)
    else if IsProduct(op) then Production(3, 3, 4)
    else if op.Power? then Production(4, 5, 4)
    else Production(5, 5, 6)
  }

  predicate IsLeaf(n: Node) {
    match n
    case Literal(tokens) => IsLiteral(tokens)
    case Data(name) => !IsKeyword(name)
    case _ => false
  }

  /** `d` derives a sequence of this level, logic being level zero. */
  predicate Derives(level: nat, d: Derivation)
    decreases d
  {
    match d
    case Leaf(n) => IsLeaf(n)
    case Paren(e) => Derives(0, e)
    case CallOf(name, args) => !IsKeyword(name) && forall i | 0 <= i < |args| :: Derives(0, args[i])
    case Piped(e, _, parens, args) =>
      Derives(6, e) && (parens || args == []) && forall i | 0 <= i < |args| :: Derives(0, args[i])
    case Negated(e) => level <= 3 && Derives(4, e)
    case Binary(l, op, r) =>
      !op.Not? && level <= ProductionOf(op).makes && Derives(ProductionOf(op).left, l) && Derives(ProductionOf(op).right, r)
  }

  /** Every function called exists. */
  predicate Exist(known: Library, d: Derivation) {
    match d
    case Leaf(_) => true
    case Paren(e) => Exist(known, e)
    case CallOf(name, args) => known(name, |args|) && forall i | 0 <= i < |args| :: Exist(known, args[i])
    case Piped(e, name, _, args) =>
      Exist(known, e) && known(name, 1 + |args|) && forall i | 0 <= i < |args| :: Exist(known, args[i])
    case Negated(e) => Exist(known, e)
    case Binary(l, _, r) => Exist(known, l) && Exist(known, r)
  }

  /** The tokens derived. */
  function Words(d: Derivation): seq<Token> {
    match d
    case Leaf(Literal(tokens)) => tokens
    case Leaf(Data(name)) => [Id(name)]
    case Leaf(_) => []
    case Paren(e) => Wrapped(true, Words(e))
    case CallOf(name, args) => [Id(name)] + Listed(args)
    case Piped(e, name, parens, args) => Words(e) + ([Pipe, Id(name)] + if parens then Listed(args) else [])
    case Negated(e) => [OperatorToken(Not)] + Words(e)
    case Binary(l, op, r) => Words(l) + ([OperatorToken(op)] + Words(r))
  }

  function Listed(args: seq<Derivation>): seq<Token>
    decreases args, 1
  {
    [LeftParen] + (Separated(args) + [RightParen])
  }

  function Separated(args: seq<Derivation>): seq<Token>
    decreases args, 0
  {
    if args == [] then []
    else if |args| == 1 then Words(args[0])
    else Words(args[0]) + ([Comma] + Separated(args[1..]))
  }

  /** The tree derived. */
  function Tree(d: Derivation): Node {
    match d
    case Leaf(n) => n
    case Paren(e) => Tree(e)
    case CallOf(name, args) => Call(name, Trees(args))
    case Piped(e, name, _, args) => Call(name, [Tree(e)] + Trees(args))
    case Negated(e) => Apply(Not, [Tree(e)])
    case Binary(l, op, r) => Apply(op, [Tree(l), Tree(r)])
  }

  function Trees(args: seq<Derivation>): (ns: seq<Node>)
    ensures |ns| == |args|
  {
    if args == [] then [] else [Tree(args[0])] + Trees(args[1..])
  }

  // --------------------------------------------------------- levels and the operator table

  /** The operator that a derivation ends with, outside all parentheses. */
  function Root(d: Derivation): Option<Op> {
    match d
    case Negated(_) => Some(Not)
    case Binary(_, op, _) => Some(op)
    case _ => None
  }

  /** The operand after the root operator. */
  function Last(d: Derivation): (r: Derivation)
    requires Root(d).Some?
    ensures r < d
  {
    if d.Negated? then d.operand else d.right
  }

  /** What stands before the root operator, as operands. */
  function Firsts(d: Derivation): seq<Node>
    requires Root(d).Some?
  {
    if d.Negated? then [] else [Tree(d.left)]
  }

  /** The level of the operand after the root operator. */
  function LastLevel(d: Derivation): nat
    requires Root(d).Some?
  {
    if d.Negated? then 4 else ProductionOf(d.op).right
  }

  /** Reading the root operator of `d` leaves `top` open. */
  predicate LeavesOpen(top: Op, d: Derivation) {
    Root(d).Some? ==> !Pops(top, Root(d))
  }

  /** Levels and operator table agree: the right operand stays open, the left one is closed. */
  lemma {:induction false} TableAgrees(level: nat, d: Derivation)
    requires Derives(level, d) && Root(d).Some?
    ensures Derives(LastLevel(d), Last(d)) && LeavesOpen(Root(d).value, Last(d))
    ensures d.Binary? ==> Root(d.left).Some? ==> Pops(Root(d.left).value, Root(d))
  {
  }

  // ---------------------------------------------------------------- what is left open

  /** What the stacks get before the last operand comes. */
  function Head(d: Derivation): Stacks
    requires Root(d).Some?
  {
    Stacks(Firsts(d), [Root(d).value])
  }

  /** What a derived sequence leaves on the stacks: its operators from the root to the right. */
  function Open(d: Derivation): Stacks {
    if Root(d).None? then Stacks([Tree(d)], [])
    else Over(Head(d), Open(Last(d)))
  }

  lemma {:induction false} OpenPops(level: nat, d: Derivation, next: Option<Op>)
    requires Derives(level, d) && (Root(d).Some? ==> Pops(Root(d).value, next))
    ensures AllPop(Open(d).ops, next)
    decreases d
  {
    if Root(d).Some? {
      TableAgrees(level, d);
      OpenPops(LastLevel(d), Last(d), next);
    }
  }

  /** Closing the open operators puts the tree together. */
  lemma {:induction false} OpenCloses(s: Stacks, level: nat, d: Derivation, next: Option<Op>)
    requires Derives(level, d) && AllPop(Open(d).ops, next)
    ensures Reduce(Over(s, Open(d)), next) == Reduce(Push(s, Tree(d)), next)
    decreases d
  {
    if Root(d).None? {
      assert Over(s, Open(d)) == Push(s, Tree(d));
    } else {
      var op, last := Root(d).value, Last(d);
      var head := Head(d);
      OverAssoc(s, head, Open(last));
      assert forall i | 0 <= i < |Open(last).ops| :: Open(last).ops[i] == Open(d).ops[i + 1];
      TableAgrees(level, d);
      OpenCloses(Over(s, head), LastLevel(d), last, next);
      RootCloses(s, d);
      assert Open(d).ops[0] == op;
    }
  }

  lemma {:induction false} RootCloses(s: Stacks, d: Derivation)
    requires Root(d).Some? && (d.Binary? ==> !d.op.Not?)
    ensures var full := Push(Over(s, Head(d)), Tree(Last(d)));
            && full.ops != [] && full.ops[|full.ops| - 1] == Root(d).value
            && AddOperator(full) == Ok(Push(s, Tree(d)))
  {
    var n := Tree(d);
    assert n.args[..|n.args| - 1] == Firsts(d);
    AddsBack(s, n, Push(Over(s, Head(d)), Tree(Last(d))));
  }

  // ------------------------------------------------------------------------- reading

  lemma {:induction false} ReadRoot(known: Library, toks: seq<Token>, at: nat, level: nat, d: Derivation, s: Stacks)
    requires d.Binary? && Derives(level, d) && at < |toks| && toks[at] == OperatorToken(d.op)
    requires s.ops != [] ==> LeavesOpen(s.ops[|s.ops| - 1], d)
    ensures Feeds(known, toks, at, Over(s, Open(d.left)), at + 1, Over(s, Head(d)))
  {
    var left, n := d.left, Tree(d.left);
    TableAgrees(level, d);
    OpenPops(ProductionOf(d.op).left, left, Some(d.op));
    OpenCloses(s, ProductionOf(d.op).left, left, Some(d.op));
    assert Reduce(Push(s, n), Some(d.op)) == Ok(Push(s, n));
    assert Push(s, n).(ops := s.ops + [d.op]) == Over(s, Head(d));
    FeedSymbol(known, toks, at, d.op, Over(s, Open(left)), Push(s, n), Over(s, Head(d)));
  }

  /** Under which circumstances `d` can be read from token `i` to `end` over these stacks. */
  predicate Readable(known: Library, toks: seq<Token>, i: nat, level: nat, d: Derivation, s: Stacks, end: nat) {
    && Derives(level, d) && Exist(known, d)
    && At(toks, i, Words(d)) && end == i + |Words(d)| && !Tok(toks, end).LeftParen?
    && (s.ops != [] ==> LeavesOpen(s.ops[|s.ops| - 1], d))
  }

  /** The operand before the root operator, and the operator. */
  lemma {:induction false} ReadLeft(
    known: Library, toks: seq<Token>, i: nat, level: nat, d: Derivation, s: Stacks, at: nat)
    requires d.Binary? && Derives(level, d) && Exist(known, d) && (s.ops != [] ==> LeavesOpen(s.ops[|s.ops| - 1], d))
    requires At(toks, i, Words(d.left)) && at == i + |Words(d.left)| < |toks| && toks[at] == OperatorToken(d.op)
    ensures Feeds(known, toks, i, s, at + 1, Over(s, Head(d)))
    decreases d, 0
  {
    TableAgrees(level, d);
    Read(known, toks, i, ProductionOf(d.op).left, d.left, s, at);
    ReadRoot(known, toks, at, level, d, s);
    FeedsOn(known, toks, i, s, at, Over(s, Open(d.left)), at + 1, Over(s, Head(d)));
  }

  lemma {:induction false} PartsOfBinary(toks: seq<Token>, i: nat, d: Derivation) returns (at: nat)
    requires d.Binary? && At(toks, i, Words(d))
    ensures At(toks, i, Words(d.left)) && at == i + |Words(d.left)| < |toks| && toks[at] == OperatorToken(d.op)
    ensures At(toks, at + 1, Words(d.right)) && at + 1 + |Words(d.right)| == i + |Words(d)|
  {
    at := i + |Words(d.left)|;
    AtSplit(toks, i, Words(d.left), [OperatorToken(d.op)] + Words(d.right));
    AtToken(toks, at, OperatorToken(d.op), Words(d.right));
  }

  lemma {:induction false} PartsOfNegated(toks: seq<Token>, i: nat, d: Derivation)
    requires d.Negated? && At(toks, i, Words(d))
    ensures i < |toks| && toks[i] == OperatorToken(Not)
    ensures At(toks, i + 1, Words(d.operand)) && i + 1 + |Words(d.operand)| == i + |Words(d)|
  {
    NegatedIs(d);
    AtToken(toks, i, OperatorToken(Not), Words(d.operand));
  }

  lemma {:induction false} NegatedIs(d: Derivation)
    requires d.Negated?
    ensures Words(d) == [OperatorToken(Not)] + Words(d.operand) && Tree(d) == Apply(Not, [Tree(d.operand)])
  {
  }

  lemma {:induction false} ReadNot(known: Library, toks: seq<Token>, i: nat, d: Derivation, s: Stacks)
    requires d.Negated? && i < |toks| && toks[i] == OperatorToken(Not)
    requires s.ops != [] ==> LeavesOpen(s.ops[|s.ops| - 1], d)
    ensures Feeds(known, toks, i, s, i + 1, Over(s, Head(d)))
  {
    FeedNot(known, toks, i, s);
  }

  /** The last operand, after everything up to the root operator. */
  lemma {:induction false} ReadLast(
    known: Library, toks: seq<Token>, i: nat, next: nat, level: nat, d: Derivation, s: Stacks, end: nat)
    requires Root(d).Some? && Derives(level, d) && Exist(known, d)
    requires Feeds(known, toks, i, s, next, Over(s, Head(d)))
    requires At(toks, next, Words(Last(d))) && end == next + |Words(Last(d))| && !Tok(toks, end).LeftParen?
    ensures Feeds(known, toks, i, s, end, Over(s, Open(d)))
    decreases d, 1
  {
    var head := Head(d);
    TableAgrees(level, d);
    assert Over(s, head).ops[|s.ops|] == Root(d).value;
    Read(known, toks, next, LastLevel(d), Last(d), Over(s, head), end);
    OverAssoc(s, head, Open(Last(d)));
    FeedsOn(known, toks, i, s, next, Over(s, head), end, Over(s, Open(d)));
  }

  lemma {:induction false} ReadNegated(
    known: Library, toks: seq<Token>, i: nat, level: nat, d: Derivation, s: Stacks, end: nat)
    requires Readable(known, toks, i, level, d, s, end) && d.Negated?
    ensures Feeds(known, toks, i, s, end, Over(s, Open(d)))
    decreases d, 2
  {
    PartsOfNegated(toks, i, d);
    ReadNot(known, toks, i, d, s);
    ReadLast(known, toks, i, i + 1, level, d, s, end);
  }

  lemma {:induction false} ReadBinary(
    known: Library, toks: seq<Token>, i: nat, level: nat, d: Derivation, s: Stacks, end: nat)
    requires Readable(known, toks, i, level, d, s, end) && d.Binary?
    ensures Feeds(known, toks, i, s, end, Over(s, Open(d)))
    decreases d, 2
  {
    var at := PartsOfBinary(toks, i, d);
    ReadLeft(known, toks, i, level, d, s, at);
    ReadLast(known, toks, i, at + 1, level, d, s, end);
  }

  /** A derived sequence is read over any stacks that its root operator leaves alone. */
  lemma {:induction false} Read(
    known: Library, toks: seq<Token>, i: nat, level: nat, d: Derivation, s: Stacks, end: nat)
    requires Readable(known, toks, i, level, d, s, end)
    ensures Feeds(known, toks, i, s, end, Over(s, Open(d)))
    decreases d, 3
  {
    if d.Negated? {
      ReadNegated(known, toks, i, level, d, s, end);
    } else if d.Binary? {
      ReadBinary(known, toks, i, level, d, s, end);
    } else {
      assert Over(s, Open(d)) == Push(s, Tree(d));
      ReadPrimary(known, toks, i, level, d, s, end);
    }
  }

  lemma {:induction false} ReadPrimary(
    known: Library, toks: seq<Token>, i: nat, level: nat, d: Derivation, s: Stacks, end: nat)
    requires Readable(known, toks, i, level, d, s, end) && Root(d).None?
    ensures Feeds(known, toks, i, s, end, Push(s, Tree(d)))
    decreases d, 1
  {
    match d
    case Leaf(n) => ReadLeaf(known, toks, i, n, s, end);
    case Paren(e) =>
      PartsOfParens(toks, i, Words(e));
      ReadWhole(known, toks, i + 1, e, end - 1);
      FeedParens(known, toks, i, end - 1, Tree(e), s);
    case CallOf(name, args) =>
      AtToken(toks, i, Id(name), Listed(args));
      ReadList(known, toks, i + 1, args, [], end);
      assert [] + Trees(args) == Trees(args);
      FeedCalled(known, toks, i, Tree(d), s, end - 1);
    case Piped(_, _, _, _) => ReadPipe(known, toks, i, level, d, s, end);
  }

  lemma {:induction false} ReadLeaf(known: Library, toks: seq<Token>, i: nat, n: Node, s: Stacks, end: nat)
    requires IsLeaf(n) && At(toks, i, Words(Leaf(n))) && end == i + |Words(Leaf(n))| && !Tok(toks, end).LeftParen?
    ensures Feeds(known, toks, i, s, end, Push(s, n))
  {
    if n.Literal? {
      FeedLiteral(known, toks, i, n, s, end);
    } else {
      AtFirst(toks, i, Words(Leaf(n)));
      FeedData(known, toks, i, n, s);
    }
  }

  /** What stands behind the operand of a pipe. */
  function PipeTail(d: Derivation): seq<Token>
    requires d.Piped?
  {
    [Pipe, Id(d.name)] + if d.parens then Listed(d.args) else []
  }

  lemma {:induction false} PartsOfPipe(toks: seq<Token>, bar: nat, d: Derivation)
    requires d.Piped? && At(toks, bar, PipeTail(d))
    ensures bar + 1 < |toks| && toks[bar].Pipe? && toks[bar + 1] == Id(d.name)
    ensures d.parens ==> At(toks, bar + 2, Listed(d.args)) && |PipeTail(d)| == 2 + |Listed(d.args)|
    ensures !d.parens ==> |PipeTail(d)| == 2
  {
    var tail := if d.parens then Listed(d.args) else [];
    assert PipeTail(d) == [Pipe] + ([Id(d.name)] + tail);
    AtToken(toks, bar, Pipe, [Id(d.name)] + tail);
    AtToken(toks, bar + 1, Id(d.name), tail);
  }

  /** The operand of a pipe is the last one read. */
  lemma {:induction false} ReadPipe(
    known: Library, toks: seq<Token>, i: nat, level: nat, d: Derivation, s: Stacks, end: nat)
    requires Readable(known, toks, i, level, d, s, end) && d.Piped?
    ensures Feeds(known, toks, i, s, end, Push(s, Tree(d)))
    decreases d, 0
  {
    var e, bar := d.operand, i + |Words(d.operand)|;
    AtSplit(toks, i, Words(e), PipeTail(d));
    PartsOfPipe(toks, bar, d);
    PrimaryHasNoRoot(e);
    ReadPrimary(known, toks, i, 6, e, s, bar);
    ReadTail(known, toks, bar, d, s, end);
    FeedsOn(known, toks, i, s, bar, Push(s, Tree(e)), end, Push(s, Tree(d)));
  }

  lemma {:induction false} ReadTail(known: Library, toks: seq<Token>, bar: nat, d: Derivation, s: Stacks, end: nat)
    requires d.Piped? && (d.parens || d.args == []) && forall k | 0 <= k < |d.args| :: Derives(0, d.args[k])
    requires known(d.name, 1 + |d.args|) && forall k | 0 <= k < |d.args| :: Exist(known, d.args[k])
    requires At(toks, bar, PipeTail(d)) && end == bar + |PipeTail(d)| && !Tok(toks, end).LeftParen?
    ensures Feeds(known, toks, bar, Push(s, Tree(d.operand)), end, Push(s, Tree(d)))
    decreases d.args, 5
  {
    PartsOfPipe(toks, bar, d);
    if d.parens {
      ReadList(known, toks, bar + 2, d.args, [Tree(d.operand)], end);
      FeedPipeList(known, toks, bar, d, s, end);
    } else {
      FeedPipeName(known, toks, bar, d, s);
    }
  }

  lemma {:induction false} PrimaryHasNoRoot(d: Derivation)
    requires Derives(6, d)
    ensures Root(d).None?
  {
  }

  lemma {:induction false} FeedPipeName(known: Library, toks: seq<Token>, bar: nat, d: Derivation, s: Stacks)
    requires d.Piped? && d.args == [] && known(d.name, 1) && bar + 1 < |toks|
    requires toks[bar].Pipe? && toks[bar + 1] == Id(d.name) && !Tok(toks, bar + 2).LeftParen?
    ensures Feeds(known, toks, bar, Push(s, Tree(d.operand)), bar + 2, Push(s, Tree(d)))
  {
    var first := Tree(d.operand);
    var before := Push(s, first);
    assert before.args[..|before.args| - 1] == s.args;
    assert Tree(d) == Call(d.name, [first] + []);
    assert [first] + [] == [first];
    assert Compound(known, toks, bar, before) == PushCall(known, s, d.name, Arguments([first], bar + 1));
  }

  lemma {:induction false} FeedPipeList(known: Library, toks: seq<Token>, bar: nat, d: Derivation, s: Stacks, end: nat)
    requires d.Piped? && known(d.name, 1 + |d.args|) && bar + 2 < end <= |toks|
    requires toks[bar].Pipe? && toks[bar + 1] == Id(d.name) && toks[bar + 2].LeftParen?
    requires CallArguments(known, toks, bar + 3, [Tree(d.operand)]) == Arguments([Tree(d.operand)] + Trees(d.args), end - 1)
    ensures Feeds(known, toks, bar, Push(s, Tree(d.operand)), end, Push(s, Tree(d)))
  {
    var before := Push(s, Tree(d.operand));
    assert before.args[..|before.args| - 1] == s.args;
    assert Compound(known, toks, bar, before) == Operand(Push(s, Tree(d)), end);
  }

  /** A list of arguments from its left parenthesis on. */
  lemma {:induction false} ReadList(
    known: Library, toks: seq<Token>, i: nat, args: seq<Derivation>, given: seq<Node>, end: nat)
    requires forall k | 0 <= k < |args| :: Derives(0, args[k]) && Exist(known, args[k])
    requires At(toks, i, Listed(args)) && end == i + |Listed(args)|
    ensures i + 1 < end <= |toks| && toks[i].LeftParen?
    ensures CallArguments(known, toks, i + 1, given) == Arguments(given + Trees(args), end - 1)
    decreases args, 4
  {
    AtToken(toks, i, LeftParen, Separated(args) + [RightParen]);
    ReadArguments(known, toks, i + 1, args, given, end - 1);
  }

  lemma {:induction false} ReadArguments(
    known: Library, toks: seq<Token>, i: nat, args: seq<Derivation>, given: seq<Node>, close: nat)
    requires forall k | 0 <= k < |args| :: Derives(0, args[k]) && Exist(known, args[k])
    requires At(toks, i, Separated(args) + [RightParen]) && close == i + |Separated(args)|
    ensures i <= close < |toks|
    ensures CallArguments(known, toks, i, given) == Arguments(given + Trees(args), close)
    decreases args, 3
  {
    AtSplit(toks, i, Separated(args), [RightParen]);
    AtFirst(toks, close, [RightParen]);
    if args == [] {
      NoArgument(known, toks, i, given);
      assert given + Trees(args) == given;
    } else if |args| == 1 {
      ReadWhole(known, toks, i, args[0], close);
      LastArgument(known, toks, i, Tree(args[0]), given, close);
      assert Trees(args) == [Tree(args[0])];
    } else {
      var comma := ReadFirst(known, toks, i, args, given, close);
      ReadArguments(known, toks, comma + 1, args[1..], given + [Tree(args[0])], close);
      assert given + [Tree(args[0])] + Trees(args[1..]) == given + Trees(args);
    }
  }

  lemma {:induction false} ReadFirst(
    known: Library, toks: seq<Token>, i: nat, args: seq<Derivation>, given: seq<Node>, close: nat) returns (comma: nat)
    requires |args| > 1 && Derives(0, args[0]) && Exist(known, args[0])
    requires At(toks, i, Separated(args) + [RightParen]) && close == i + |Separated(args)|
    ensures i <= comma < |toks| && At(toks, comma + 1, Separated(args[1..]) + [RightParen])
    ensures close == comma + 1 + |Separated(args[1..])|
    ensures CallArguments(known, toks, i, given) == CallArguments(known, toks, comma + 1, given + [Tree(args[0])])
    decreases args, 2
  {
    var rest := Separated(args[1..]) + [RightParen];
    assert Separated(args) + [RightParen] == Words(args[0]) + ([Comma] + rest);
    comma := i + |Words(args[0])|;
    AtSplit(toks, i, Words(args[0]), [Comma] + rest);
    AtToken(toks, comma, Comma, rest);
    ReadWhole(known, toks, i, args[0], comma);
    NextArgument(known, toks, i, Tree(args[0]), given, comma);
  }

  /** A derived sequence and a token that ends it. */
  lemma {:induction false} ReadWhole(known: Library, toks: seq<Token>, i: nat, d: Derivation, end: nat)
    requires Derives(0, d) && Exist(known, d) && At(toks, i, Words(d)) && end == i + |Words(d)| && Stops(Tok(toks, end))
    ensures Parse(known, toks, i) == Found(Some(Tree(d)), end)
    decreases d, 4
  {
    var empty := Stacks([], []);
    Read(known, toks, i, 0, d, empty, end);
    StopsHere(known, toks, end, Over(empty, Open(d)));
    OpenCloses(empty, 0, d, None);
    assert Push(empty, Tree(d)).args == [Tree(d)];
    assert Yields(known, toks, i, empty, FLAT, Found(Some(Tree(d)), end));
  }

  /** Every derivable token sequence parses to the tree of its derivation. */
  lemma {:induction false} DerivedIsParsed(known: Library, d: Derivation, rest: seq<Token>)
    requires Derives(0, d) && Exist(known, d) && Stops(Tok(rest, 0))
    ensures Parse(known, Words(d) + rest, 0) == Found(Some(Tree(d)), |Words(d)|)
  {
    assert Tok(Words(d) + rest, |Words(d)|) == Tok(rest, 0);
    ReadWhole(known, Words(d) + rest, 0, d, |Words(d)|);
  }

  // -------------------------------------------------------------------- consequences

  /** No sequence has derivations of two different trees. */
  lemma {:induction false} OneTreePerSequence(d: Derivation, e: Derivation)
    requires Derives(0, d) && Derives(0, e) && Words(d) == Words(e)
    ensures Tree(d) == Tree(e)
  {
    var any: Library := (name, k) => true;
    AllExist(any, d);
    AllExist(any, e);
    DerivedIsParsed(any, d, []);
    DerivedIsParsed(any, e, []);
  }

  lemma AllExist(any: Library, d: Derivation)
    requires forall name, k :: any(name, k)
    ensures Exist(any, d)
  {
  }

  /** In `a o1 b o2 c` the operand `b` belongs to `o1`. */
  predicate GroupsLeft(o1: Op, o2: Op) {
    if IsLogic(o2) then true
    else if IsComparison(o2) then !IsLogic(o1)
    else if IsSum(o2) then !IsLogic(o1) && !IsComparison(o1)
    else if IsProduct(o2) then IsProduct(o1) || o1.Power? || o1.AtId?
    else o1.AtId?
  }

  /** How two operators in a row group: `a - b - c` to the left, `a ^ b ^ c` to the right, `a + b * c` by the product. */
  lemma {:induction false} TwoOperatorsGroup(known: Library, a: Node, o1: Op, b: Node, o2: Op, c: Node, rest: seq<Token>)
    requires IsLeaf(a) && IsLeaf(b) && IsLeaf(c) && !o1.Not? && !o2.Not? && Stops(Tok(rest, 0))
    ensures var toks := Words(Leaf(a)) + ([OperatorToken(o1)] + Words(Leaf(b))) + ([OperatorToken(o2)] + Words(Leaf(c)));
            Parse(known, toks + rest, 0)
            == Found(Some(if GroupsLeft(o1, o2) then Apply(o2, [Apply(o1, [a, b]), c])
                          else Apply(o1, [a, Apply(o2, [b, c])])), |toks|)
  {
    var x, y, z := Leaf(a), Leaf(b), Leaf(c);
    var toks := Words(x) + ([OperatorToken(o1)] + Words(y)) + ([OperatorToken(o2)] + Words(z));
    if GroupsLeft(o1, o2) {
      var inner := Binary(x, o1, y);
      var d := Binary(inner, o2, z);
      assert Tree(inner) == Apply(o1, [a, b]);
      assert Words(inner) == Words(x) + ([OperatorToken(o1)] + Words(y));
      ParsesTo(known, d, toks, Apply(o2, [Tree(inner), c]), rest);
    } else {
      var inner := Binary(y, o2, z);
      var d := Binary(x, o1, inner);
      assert Tree(inner) == Apply(o2, [b, c]);
      assert Words(inner) == Words(y) + ([OperatorToken(o2)] + Words(z));
      ParsesTo(known, d, toks, Apply(o1, [a, Tree(inner)]), rest);
    }
  }

  lemma {:induction false} ParsesTo(known: Library, d: Derivation, toks: seq<Token>, n: Node, rest: seq<Token>)
    requires Derives(0, d) && Exist(known, d) && Words(d) == toks && Tree(d) == n && Stops(Tok(rest, 0))
    ensures Parse(known, toks + rest, 0) == Found(Some(n), |toks|)
  {
    DerivedIsParsed(known, d, rest);
  }

  /** `not` takes a power or a path, and nothing wider. */
  lemma {:induction false} NotGroups(known: Library, a: Node, op: Op, b: Node, rest: seq<Token>)
    requires IsLeaf(a) && IsLeaf(b) && !op.Not? && Stops(Tok(rest, 0))
    ensures var toks := [OperatorToken(Not)] + (Words(Leaf(a)) + ([OperatorToken(op)] + Words(Leaf(b))));
            Parse(known, toks + rest, 0)
            == Found(Some(if op.Power? || op.AtId? then Apply(Not, [Apply(op, [a, b])])
                          else Apply(op, [Apply(Not, [a]), b])), |toks|)
  {
    var x, y := Leaf(a), Leaf(b);
    if op.Power? || op.AtId? {
      NotOutside(known, x, op, y, rest);
    } else {
      NotInside(known, x, op, y, rest);
    }
  }

  lemma {:induction false} NotOutside(known: Library, x: Derivation, op: Op, y: Derivation, rest: seq<Token>)
    requires x.Leaf? && y.Leaf? && IsLeaf(x.node) && IsLeaf(y.node) && (op.Power? || op.AtId?) && Stops(Tok(rest, 0))
    ensures var toks := [OperatorToken(Not)] + (Words(x) + ([OperatorToken(op)] + Words(y)));
            Parse(known, toks + rest, 0) == Found(Some(Apply(Not, [Apply(op, [x.node, y.node])])), |toks|)
  {
    var inner := Binary(x, op, y);
    assert Tree(inner) == Apply(op, [x.node, y.node]);
    NegatedIs(Negated(inner));
    DerivedIsParsed(known, Negated(inner), rest);
  }

  lemma {:induction false} NotInside(known: Library, x: Derivation, op: Op, y: Derivation, rest: seq<Token>)
    requires x.Leaf? && y.Leaf? && IsLeaf(x.node) && IsLeaf(y.node) && !op.Not? && !op.Power? && !op.AtId?
    requires Stops(Tok(rest, 0))
    ensures var toks := [OperatorToken(Not)] + (Words(x) + ([OperatorToken(op)] + Words(y)));
            Parse(known, toks + rest, 0) == Found(Some(Apply(op, [Apply(Not, [x.node]), y.node])), |toks|)
  {
    var inner := Negated(x);
    var tail := [OperatorToken(op)] + Words(y);
    NegatedIs(inner);
    assert [OperatorToken(Not)] + (Words(x) + tail) == Words(inner) + tail;
    DerivedIsParsed(known, Binary(inner, op, y), rest);
  }
}
