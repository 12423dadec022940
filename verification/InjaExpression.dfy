/**
The expression parser of the template engine: operators on one stack, operands
on another, a recursive call for every parenthesis and every call argument.
*/
module InjaExpression {
  import opened Wrappers

  datatype Op =
    | Not | And | Or | In
    | Equal | NotEqual | Greater | GreaterEqual | Less | LessEqual
    | Add | Subtract | Multiplication | Division | Power | Modulo | AtId

  datatype Token =
    | StringLit(text: string)
    | NumberLit(text: string)
    | Id(text: string)
    | Symbol(op: Op) // an operator spelt with punctuation
    | Comma | Colon | Pipe
    | LeftParen | RightParen | LeftBracket | RightBracket | LeftBrace | RightBrace
    | Assign // a lone "=", which the lexer calls unknown and only {% set %} accepts
    | Text(text: string)
    | ExpressionOpen | ExpressionClose
    | StatementOpen | StatementClose
    | LineStatementOpen | LineStatementClose
    | CommentOpen | CommentClose
    | Unknown
    | Eof

  /** An expression tree. A literal keeps the tokens it was written with. */
  datatype Node =
    | Literal(tokens: seq<Token>)
    | Data(name: string)
    | Apply(op: Op, args: seq<Node>)
    | Call(name: string, args: seq<Node>)

  datatype Error =
    | TooFewArguments | MalformedExpression | EmptyParentheses | ExpectedRightParen
    | UnexpectedBracket | UnexpectedBrace | UnexpectedColon | ExpectedFunctionName | UnknownFunction
    | NoPipeOperand // the code reads the last of no operands here

  // ------------------------------------------------------------- operator table

  function Arity(op: Op): nat {
    if op.Not? then 1 else 2
  }

  function Precedence(op: Op): nat {
    match op
    case And => 1 case Or => 1
    case In => 2 case Equal => 2 case NotEqual => 2
    case Greater => 2 case GreaterEqual => 2 case Less => 2 case LessEqual => 2
    case Add => 3 case Subtract => 3
    case Multiplication => 4 case Division => 4 case Modulo => 4 case Not => 4
    case Power => 5
    case AtId => 8
  }

  predicate LeftAssociative(op: Op) {
    !op.Power?
  }

  /** Reading `next` closes the operator `top`; the end of the expression closes every operator. */
  predicate Pops(top: Op, next: Option<Op>) {
    next.Some? ==>
      || Precedence(top) > Precedence(next.value)
      || (Precedence(top) == Precedence(next.value) && LeftAssociative(next.value))
  }

  predicate IsConstant(name: string) {
    name == "true" || name == "false" || name == "null"
  }

  function WordOperator(name: string): Option<Op> {
    if name == "and" then Some(And)
    else if name == "or" then Some(Or)
    else if name == "in" then Some(In)
    else if name == "not" then Some(Not)
    else None
  }

  /** The operator a token stands for. */
  function OperatorOf(t: Token): Option<Op> {
    if t.Symbol? then Some(t.op) else if t.Id? then WordOperator(t.text) else None
  }

  predicate IsKeyword(name: string) {
    IsConstant(name) || WordOperator(name).Some?
  }

  // ------------------------------------------------------------------ the stacks

  /** Operands and operators, tops at the right. */
  datatype Stacks = Stacks(args: seq<Node>, ops: seq<Op>)

  function Push(s: Stacks, n: Node): Stacks {
    s.(args := s.args + [n])
  }

  /** add_operator(): the top operator takes its operands and becomes one itself. */
  function AddOperator(s: Stacks): (r: Result<Stacks, Error>)
    requires s.ops != []
    ensures r.Ok? ==> |r.value.ops| < |s.ops|
  {
    var op := s.ops[|s.ops| - 1];
    var n := Arity(op);
    if |s.args| < n then Err(TooFewArguments)
    else
      var m := |s.args| - n;
      Ok(Stacks(s.args[..m] + [Apply(op, s.args[m..])], s.ops[..|s.ops| - 1]))
  }

  /** Close operators until one is left open by `next`. */
  function Reduce(s: Stacks, next: Option<Op>): Result<Stacks, Error>
    decreases |s.ops|
  {
    if s.ops != [] && Pops(s.ops[|s.ops| - 1], next) then
      var r := AddOperator(s);
      if r.Err? then r else Reduce(r.value, next)
    else Ok(s)
  }

  // ------------------------------------------------------------------- the parser

  /** Which functions exist, by name and number of arguments. */
  type Library = (string, nat) -> bool

  /** How many brackets and braces of a literal are open, and where it started. */
  datatype Levels = Levels(bracket: nat, brace: nat, start: nat)

  const FLAT := Levels(0, 0, 0)

  predicate Flat(l: Levels) {
    l.bracket == 0 && l.brace == 0
  }

  /** An expression, or none, and the position of the token that ended it. */
  datatype Parsed = Found(node: Option<Node>, next: nat) | Failed(error: Error)

  datatype Arguments = Arguments(args: seq<Node>, next: nat) | Refused(error: Error)

  function Tok(toks: seq<Token>, i: nat): Token {
    if i < |toks| then toks[i] else Eof
  }

  /** Left or right end of a bracketed literal, or nothing new inside one. */
  function Opened(l: Levels, i: nat, bracket: bool): Levels {
    var start := if Flat(l) then i else l.start;
    if bracket then Levels(l.bracket + 1, l.brace, start) else Levels(l.bracket, l.brace + 1, start)
  }

  function Closed(l: Levels, bracket: bool): Levels
    requires if bracket then l.bracket > 0 else l.brace > 0
  {
    if bracket then l.(bracket := l.bracket - 1) else l.(brace := l.brace - 1)
  }

  /** The end of the expression: close every operator; at most one operand may be left. */
  function Conclude(s: Stacks, i: nat): Parsed {
    var r := Reduce(s, None);
    if r.Err? then Failed(r.error)
    else if |r.value.args| == 0 then Found(None, i)
    else if |r.value.args| == 1 then Found(Some(r.value.args[0]), i)
    else Failed(MalformedExpression)
  }

  /** The stacks after one operand has been read, and where to go on. */
  datatype Operand = Operand(s: Stacks, next: nat) | Rejected(error: Error)

  /** Token `i` begins a parenthesis, a call or a pipe: an operand with expressions inside. */
  predicate IsCompound(toks: seq<Token>, i: nat)
    requires i < |toks|
  {
    toks[i].LeftParen? || toks[i].Pipe? || (toks[i].Id? && Tok(toks, i + 1).LeftParen?)
  }

  function PushCall(known: Library, s: Stacks, name: string, a: Arguments): Operand {
    if a.Refused? then Rejected(a.error)
    else if !known(name, |a.args|) then Rejected(UnknownFunction)
    else Operand(Push(s, Call(name, a.args)), a.next + 1)
  }

  function Compound(known: Library, toks: seq<Token>, i: nat, s: Stacks): (r: Operand)
    requires i < |toks| && IsCompound(toks, i)
    ensures r.Operand? ==> i < r.next <= |toks|
    decreases |toks| - i, 0
  {
    if toks[i].LeftParen? then
      var e := Loop(known, toks, i + 1, Stacks([], []), FLAT);
      if e.Failed? then Rejected(e.error)
      else if !Tok(toks, e.next).RightParen? then Rejected(ExpectedRightParen)
      else if e.node.None? then Rejected(EmptyParentheses)
      else Operand(Push(s, e.node.value), e.next + 1)
    else if toks[i].Id? then PushCall(known, s, toks[i].text, CallArguments(known, toks, i + 2, []))
    else if !Tok(toks, i + 1).Id? then Rejected(ExpectedFunctionName)
    else if s.args == [] then Rejected(NoPipeOperand)
    else
      var first := s.args[|s.args| - 1];
      var a := if Tok(toks, i + 2).LeftParen? then CallArguments(known, toks, i + 3, [first])
               else Arguments([first], i + 1);
      PushCall(known, s.(args := s.args[..|s.args| - 1]), toks[i + 1].text, a)
  }

  /** The loop of parse_expression(), from token `i` with the given stacks. */
  function Loop(known: Library, toks: seq<Token>, i: nat, s: Stacks, l: Levels): (r: Parsed)
    requires i <= |toks| && l.start <= i
    ensures r.Found? ==> i <= r.next <= |toks|
    decreases |toks| - i, 1
  {
    if i == |toks| || toks[i].Eof? then Conclude(s, i)
    else
      var t := toks[i];
      if t.StringLit? || t.NumberLit? || (t.Id? && IsConstant(t.text)) then
        Loop(known, toks, i + 1, if Flat(l) then Push(s, Literal([t])) else s, l)
      else if t.LeftBracket? || t.LeftBrace? then
        Loop(known, toks, i + 1, s, Opened(l, i, t.LeftBracket?))
      else if t.RightBracket? && l.bracket == 0 then Failed(UnexpectedBracket)
      else if t.RightBrace? && l.brace == 0 then Failed(UnexpectedBrace)
      else if t.RightBracket? || t.RightBrace? then
        var m := Closed(l, t.RightBracket?);
        if Flat(m) then Loop(known, toks, i + 1, Push(s, Literal(toks[l.start..i + 1])), FLAT)
        else Loop(known, toks, i + 1, s, m)
      else if OperatorOf(t).Some? then
        var r := Reduce(s, OperatorOf(t));
        if r.Err? then Failed(r.error)
        else Loop(known, toks, i + 1, r.value.(ops := r.value.ops + [OperatorOf(t).value]), l)
      else if IsCompound(toks, i) then
        var c := Compound(known, toks, i, s);
        if c.Rejected? then Failed(c.error) else Loop(known, toks, c.next, c.s, l)
      else if t.Id? then Loop(known, toks, i + 1, Push(s, Data(t.text)), l)
      else if (t.Comma? || t.Colon?) && !Flat(l) then Loop(known, toks, i + 1, s, l)
      else if t.Colon? then Failed(UnexpectedColon)
      else Conclude(s, i)
  }

  /** The do-while over the arguments of a call, from token `i` to its right parenthesis. */
  function CallArguments(known: Library, toks: seq<Token>, i: nat, args: seq<Node>): (r: Arguments)
    requires i <= |toks|
    ensures r.Arguments? ==> i <= r.next < |toks| && toks[r.next].RightParen?
    decreases |toks| - i, 2
  {
    var e := Loop(known, toks, i, Stacks([], []), FLAT);
    if e.Failed? then Refused(e.error)
    else if e.node.Some? && Tok(toks, e.next).Comma? then
      CallArguments(known, toks, e.next + 1, args + [e.node.value])
    else if !Tok(toks, e.next).RightParen? then Refused(ExpectedRightParen)
    else Arguments(args + (if e.node.Some? then [e.node.value] else []), e.next)
  }

  function Parse(known: Library, toks: seq<Token>, i: nat): Parsed
    requires i <= |toks|
  {
    Loop(known, toks, i, Stacks([], []), FLAT)
  }
}
