/**
The statement parser of the template engine. Its output is a graph the parser
points into while it builds it - the block being filled, the if and for
statements still open - so the model keeps an arena of blocks, ifs and fors and
uses positions where the code uses pointers.
*/
module InjaStatements {
  import opened Wrappers
  import E = InjaExpression

  type Token = E.Token
  type Node = E.Node

  /** A node of a block. An if or for statement lives in the arena under its number. */
  datatype Item =
    | TextItem(text: string)
    | OutputItem(root: Option<Node>)
    | IfItem(id: nat)
    | ForItem(id: nat)
    | SetItem(key: string, root: Option<Node>)

  datatype IfNode = IfNode(cond: Option<Node>, yes: nat, no: nat, hasElse: bool, parent: nat, nested: bool)

  datatype ForNode = ForNode(key: Option<string>, value: string, over: Option<Node>, body: nat, parent: nat)

  /** The template as built so far; block 0 is its root. */
  datatype Arena = Arena(blocks: seq<seq<Item>>, ifs: seq<IfNode>, fors: seq<ForNode>)

  datatype Build = Build(arena: Arena, current: nat, ifStack: seq<nat>, forStack: seq<nat>)

  const START := Build(Arena([[]], [], []), 0, [], [])

  datatype Error =
    | InExpression(error: E.Error)
    | ExpectedStatement | ExpectedClose | ExpectedId | ExpectedIn | ExpectedAssign | UnexpectedToken
    | ElseWithoutIf | EndifWithoutIf | EndforWithoutFor | UnmatchedIf | UnmatchedFor
    | EmptyStackInspected // what the endif loop would do if every open if were a nested one

  /** Every position stored anywhere is one the arena has. */
  predicate Valid(b: Build) {
    && b.current < |b.arena.blocks|
    && (forall i | 0 <= i < |b.ifStack| :: b.ifStack[i] < |b.arena.ifs|)
    && (forall i | 0 <= i < |b.forStack| :: b.forStack[i] < |b.arena.fors|)
    && (forall i | 0 <= i < |b.arena.ifs| ::
          var n := b.arena.ifs[i];
          n.yes < |b.arena.blocks| && n.no < |b.arena.blocks| && n.parent < |b.arena.blocks|)
    && (forall i | 0 <= i < |b.arena.fors| ::
          var n := b.arena.fors[i]; n.body < |b.arena.blocks| && n.parent < |b.arena.blocks|)
  }

  // ---------------------------------------------------------------- building steps

  /** current_block->nodes.emplace_back(...) */
  function AddItem(b: Build, item: Item): Build
    requires b.current < |b.arena.blocks|
  {
    b.(arena := b.arena.(blocks := b.arena.blocks[b.current := b.arena.blocks[b.current] + [item]]))
  }

  function OpenIf(b: Build, cond: Option<Node>, nested: bool): Build
    requires b.current < |b.arena.blocks|
  {
    var n, id := |b.arena.blocks|, |b.arena.ifs|;
    var c := AddItem(b, IfItem(id));
    Build(Arena(c.arena.blocks + [[], []], c.arena.ifs + [IfNode(cond, n, n + 1, false, b.current, nested)], c.arena.fors),
          n, b.ifStack + [id], b.forStack)
  }

  /** The else of the innermost open if. */
  function EnterElse(b: Build): Build
    requires Valid(b) && b.ifStack != []
  {
    var id := b.ifStack[|b.ifStack| - 1];
    b.(arena := b.arena.(ifs := b.arena.ifs[id := b.arena.ifs[id].(hasElse := true)]),
       current := b.arena.ifs[id].no)
  }

  /** The open ifs after the `else if` ones on top are closed. */
  function PopNested(ifs: seq<IfNode>, stack: seq<nat>): seq<nat> {
    if stack != [] && stack[|stack| - 1] < |ifs| && ifs[stack[|stack| - 1]].nested then
      PopNested(ifs, stack[..|stack| - 1])
    else stack
  }

  function CloseIf(b: Build): Result<Build, Error>
    requires Valid(b) && b.ifStack != []
  {
    var stack := PopNested(b.arena.ifs, b.ifStack);
    if stack == [] then Err(EmptyStackInspected)
    else
      var top := stack[|stack| - 1];
      if top >= |b.arena.ifs| then Err(EmptyStackInspected)
      else Ok(b.(current := b.arena.ifs[top].parent, ifStack := stack[..|stack| - 1]))
  }

  function OpenFor(b: Build, key: Option<string>, value: string, over: Option<Node>): Build
    requires b.current < |b.arena.blocks|
  {
    var n, id := |b.arena.blocks|, |b.arena.fors|;
    var c := AddItem(b, ForItem(id));
    Build(Arena(c.arena.blocks + [[]], c.arena.ifs, c.arena.fors + [ForNode(key, value, over, n, b.current)]),
          n, b.ifStack, b.forStack + [id])
  }

  function CloseFor(b: Build): Build
    requires Valid(b) && b.forStack != []
  {
    var top := b.forStack[|b.forStack| - 1];
    b.(current := b.arena.fors[top].parent, forStack := b.forStack[..|b.forStack| - 1])
  }

  // -------------------------------------------------------------------- statements

  /** The template so far and the next token to look at, or the error that ended the parse. */
  datatype Progress = At(b: Build, next: nat) | Stopped(error: Error)

  predicate IsWord(t: Token, word: string) {
    t.Id? && t.text == word
  }

  /** parse_expression(tmpl, closing): an expression that must end in `closing`. */
  function ClosedExpression(known: E.Library, toks: seq<Token>, i: nat, closing: Token): (r: E.Parsed)
    requires i <= |toks|
    ensures r.Found? ==> i <= r.next < |toks| && toks[r.next] == closing
  {
    var r := E.Parse(known, toks, i);
    if r.Found? && (r.next >= |toks| || toks[r.next] != closing) then E.Failed(E.ExpectedRightParen) else r
  }

  /** The complaint about an expression that ends in another token than `closing`. */
  function WrongEnd(closing: Token): Error {
    if closing.ExpressionClose? then ExpectedClose else ExpectedStatement
  }

  /** Why ClosedExpression() failed: an error inside, or the wrong token at its end. */
  function ExpressionError(known: E.Library, toks: seq<Token>, i: nat, closing: Token): Error
    requires i <= |toks|
  {
    var r := E.Parse(known, toks, i);
    if r.Failed? then InExpression(r.error) else WrongEnd(closing)
  }

  function ForStatement(known: E.Library, toks: seq<Token>, i: nat, b: Build, closing: Token): Progress
    requires i < |toks| && Valid(b)
  {
    if !E.Tok(toks, i + 1).Id? then Stopped(ExpectedId)
    else
      var pair := E.Tok(toks, i + 2).Comma?;
      if pair && !E.Tok(toks, i + 3).Id? then Stopped(ExpectedId)
      else
        var key := if pair then Some(toks[i + 1].text) else None;
        var value := if pair then toks[i + 3].text else toks[i + 1].text;
        var j := if pair then i + 4 else i + 2;
        if !IsWord(E.Tok(toks, j), "in") then Stopped(ExpectedIn)
        else
          var e := ClosedExpression(known, toks, j + 1, closing);
          if e.Failed? then Stopped(ExpressionError(known, toks, j + 1, closing))
          else At(OpenFor(b, key, value, e.node), e.next)
  }

  function SetStatement(known: E.Library, toks: seq<Token>, i: nat, b: Build, closing: Token): Progress
    requires i < |toks| && Valid(b)
  {
    if !E.Tok(toks, i + 1).Id? then Stopped(ExpectedId)
    else if !E.Tok(toks, i + 2).Assign? then Stopped(ExpectedAssign)
    else
      var e := ClosedExpression(known, toks, i + 3, closing);
      if e.Failed? then Stopped(ExpressionError(known, toks, i + 3, closing))
      else At(AddItem(b, SetItem(toks[i + 1].text, e.node)), e.next)
  }

  function IfStatement(known: E.Library, toks: seq<Token>, i: nat, b: Build, closing: Token, nested: bool): Progress
    requires i <= |toks| && Valid(b)
  {
    var e := ClosedExpression(known, toks, i, closing);
    if e.Failed? then Stopped(ExpressionError(known, toks, i, closing)) else At(OpenIf(b, e.node, nested), e.next)
  }

  function ElseStatement(known: E.Library, toks: seq<Token>, i: nat, b: Build, closing: Token): Progress
    requires i < |toks| && Valid(b)
  {
    if b.ifStack == [] then Stopped(ElseWithoutIf)
    else if IsWord(E.Tok(toks, i + 1), "if") then
      IfStatement(known, toks, i + 2, EnterElse(b), closing, true)
    else At(EnterElse(b), i + 1)
  }

  /** parse_statement(), from the token after the opening delimiter. */
  function Statement(known: E.Library, toks: seq<Token>, i: nat, b: Build, closing: Token): Progress
    requires i <= |toks| && Valid(b)
  {
    var t := E.Tok(toks, i);
    if IsWord(t, "if") then IfStatement(known, toks, i + 1, b, closing, false)
    else if IsWord(t, "else") then ElseStatement(known, toks, i, b, closing)
    else if IsWord(t, "endif") then
      if b.ifStack == [] then Stopped(EndifWithoutIf)
      else
        var c := CloseIf(b);
        if c.Err? then Stopped(c.error) else At(c.value, i + 1)
    else if IsWord(t, "for") then ForStatement(known, toks, i, b, closing)
    else if IsWord(t, "endfor") then
      if b.forStack == [] then Stopped(EndforWithoutFor) else At(CloseFor(b), i + 1)
    else if IsWord(t, "set") then SetStatement(known, toks, i, b, closing)
    else Stopped(ExpectedStatement)
  }

  predicate AtEnd(toks: seq<Token>, i: nat) {
    E.Tok(toks, i).Eof?
  }

  /** One turn of the loop of parse_into(), on a token that is not the end. */
  function Turn(known: E.Library, toks: seq<Token>, i: nat, b: Build): Progress
    requires i <= |toks| && Valid(b) && !AtEnd(toks, i)
  {
    var t := toks[i];
    if t.Text? then At(AddItem(b, TextItem(t.text)), i + 1)
    else if t.StatementOpen? || t.LineStatementOpen? then
      var closing := if t.StatementOpen? then E.StatementClose else E.LineStatementClose;
      var p := Statement(known, toks, i + 1, b, closing);
      if p.Stopped? then p
      else if E.Tok(toks, p.next) == closing then At(p.b, p.next + 1)
      else if t.LineStatementOpen? && AtEnd(toks, p.next) then p
      else Stopped(ExpectedClose)
    else if t.ExpressionOpen? then
      var e := ClosedExpression(known, toks, i + 1, E.ExpressionClose);
      if e.Failed? then Stopped(ExpressionError(known, toks, i + 1, E.ExpressionClose))
      else At(AddItem(b, OutputItem(e.node)), e.next + 1)
    else if t.CommentOpen? then
      if E.Tok(toks, i + 1).CommentClose? then At(b, i + 2) else Stopped(ExpectedClose)
    else Stopped(UnexpectedToken)
  }

  function Finish(b: Build): Result<Build, Error> {
    if b.ifStack != [] then Err(UnmatchedIf)
    else if b.forStack != [] then Err(UnmatchedFor)
    else Ok(b)
  }

  // ------------------------------------------------------------------- validity kept

  lemma OpenIfValid(b: Build, cond: Option<Node>, nested: bool)
    requires Valid(b)
    ensures Valid(OpenIf(b, cond, nested))
  {
  }

  lemma OpenForValid(b: Build, key: Option<string>, value: string, over: Option<Node>)
    requires Valid(b)
    ensures Valid(OpenFor(b, key, value, over))
  {
  }

  lemma PopNestedPrefix(ifs: seq<IfNode>, stack: seq<nat>)
    ensures PopNested(ifs, stack) <= stack
  {
  }

  lemma CloseIfValid(b: Build)
    requires Valid(b) && b.ifStack != [] && CloseIf(b).Ok?
    ensures Valid(CloseIf(b).value)
  {
    PopNestedPrefix(b.arena.ifs, b.ifStack);
  }

  /** A step leads to a valid template and moves forward. */
  predicate Fine(p: Progress, toks: seq<Token>, i: nat) {
    p.At? ==> Valid(p.b) && i < p.next <= |toks|
  }

  lemma IfStatementFine(known: E.Library, toks: seq<Token>, i: nat, b: Build, closing: Token, nested: bool)
    requires 0 < i <= |toks| && Valid(b)
    ensures Fine(IfStatement(known, toks, i, b, closing, nested), toks, i - 1)
  {
    var e := ClosedExpression(known, toks, i, closing);
    if e.Found? {
      OpenIfValid(b, e.node, nested);
    }
  }

  lemma {:induction false} EnterElseValid(b: Build)
    requires Valid(b) && b.ifStack != []
    ensures Valid(EnterElse(b))
  {
  }

  lemma {:induction false} ElseStatementFine(known: E.Library, toks: seq<Token>, i: nat, b: Build, closing: Token)
    requires i < |toks| && Valid(b)
    ensures Fine(ElseStatement(known, toks, i, b, closing), toks, i)
  {
    if b.ifStack != [] {
      EnterElseValid(b);
      if IsWord(E.Tok(toks, i + 1), "if") {
        IfStatementFine(known, toks, i + 2, EnterElse(b), closing, true);
      }
    }
  }

  lemma ForStatementFine(known: E.Library, toks: seq<Token>, i: nat, b: Build, closing: Token)
    requires i < |toks| && Valid(b)
    ensures Fine(ForStatement(known, toks, i, b, closing), toks, i)
  {
    forall key, value, over
      ensures Valid(OpenFor(b, key, value, over))
    {
      OpenForValid(b, key, value, over);
    }
  }

  lemma SetStatementFine(known: E.Library, toks: seq<Token>, i: nat, b: Build, closing: Token)
    requires i < |toks| && Valid(b)
    ensures Fine(SetStatement(known, toks, i, b, closing), toks, i)
  {
  }

  lemma StatementFine(known: E.Library, toks: seq<Token>, i: nat, b: Build, closing: Token)
    requires i <= |toks| && Valid(b)
    ensures Fine(Statement(known, toks, i, b, closing), toks, i)
  {
    var t := E.Tok(toks, i);
    if IsWord(t, "if") {
      IfStatementFine(known, toks, i + 1, b, closing, false);
    } else if IsWord(t, "else") {
      ElseStatementFine(known, toks, i, b, closing);
    } else if IsWord(t, "endif") {
      if b.ifStack != [] && CloseIf(b).Ok? {
        CloseIfValid(b);
      }
    } else if IsWord(t, "for") {
      ForStatementFine(known, toks, i, b, closing);
    } else if IsWord(t, "set") {
      SetStatementFine(known, toks, i, b, closing);
    }
  }

  /** The loop of parse_into(), from token `i`. */
  function Run(known: E.Library, toks: seq<Token>, i: nat, b: Build): Result<Build, Error>
    requires i <= |toks| && Valid(b)
    decreases |toks| - i
  {
    if AtEnd(toks, i) then Finish(b)
    else
      var p := Turn(known, toks, i, b);
      if p.Stopped? then Err(p.error)
      else
        TurnValid(known, toks, i, b);
        Run(known, toks, p.next, p.b)
  }

  lemma TurnValid(known: E.Library, toks: seq<Token>, i: nat, b: Build)
    requires i <= |toks| && Valid(b) && !AtEnd(toks, i)
    ensures Fine(Turn(known, toks, i, b), toks, i)
  {
    var t := toks[i];
    if t.StatementOpen? {
      StatementFine(known, toks, i + 1, b, E.StatementClose);
    } else if t.LineStatementOpen? {
      StatementFine(known, toks, i + 1, b, E.LineStatementClose);
    }
  }

  /** parse_into() on a whole template. */
  function ParseTemplate(known: E.Library, toks: seq<Token>): Result<Build, Error> {
    Run(known, toks, 0, START)
  }
}
