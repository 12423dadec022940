/**
Printing a template tree and parsing it again rebuilds the tree, and leaves the
parser with nothing open.
*/
module InjaStatementRoundTrip {
  import opened Wrappers
  import opened InjaStatements
  import E = InjaExpression
  import R = InjaExpressionRoundTrip

  /** A well-nested template. */
  datatype Stmt =
    | Raw(text: string)
    | Output(e: Node)
    | If(cond: Node, yes: seq<Stmt>, otherwise: Else)
    | For(key: Option<string>, value: string, over: Node, body: seq<Stmt>)
    | Set(name: string, e: Node)

  datatype Else =
    | NoElse
    | ElseBlock(no: seq<Stmt>)
    | ElseIf(cond: Node, yes: seq<Stmt>, rest: Else)

  // --------------------------------------------------------------------- printing

  function Tag(body: seq<Token>): seq<Token> {
    [E.StatementOpen] + body + [E.StatementClose]
  }

  predicate GoodExpr(known: E.Library, e: Node) {
    R.Proper(e) && R.Linked(known, e)
  }

  predicate GoodStmts(known: E.Library, stmts: seq<Stmt>) {
    forall i | 0 <= i < |stmts| :: GoodStmt(known, stmts[i])
  }

  predicate GoodStmt(known: E.Library, s: Stmt) {
    match s
    case Raw(_) => true
    case Output(e) => GoodExpr(known, e)
    case If(cond, yes, otherwise) => GoodExpr(known, cond) && GoodStmts(known, yes) && GoodElse(known, otherwise)
    case For(_, _, over, body) => GoodExpr(known, over) && GoodStmts(known, body)
    case Set(_, e) => GoodExpr(known, e)
  }

  predicate GoodElse(known: E.Library, o: Else) {
    match o
    case NoElse => true
    case ElseBlock(no) => GoodStmts(known, no)
    case ElseIf(cond, yes, rest) => GoodExpr(known, cond) && GoodStmts(known, yes) && GoodElse(known, rest)
  }

  function Word(w: string): seq<Token> {
    [E.Id(w)]
  }

  function LoopVariables(key: Option<string>, value: string): seq<Token> {
    if key.Some? then [E.Id(key.value), E.Comma, E.Id(value)] else [E.Id(value)]
  }

  function PrintStmts(known: E.Library, stmts: seq<Stmt>): seq<Token>
    requires GoodStmts(known, stmts)
  {
    if stmts == [] then [] else PrintStmt(known, stmts[0]) + PrintStmts(known, stmts[1..])
  }

  function PrintStmt(known: E.Library, s: Stmt): seq<Token>
    requires GoodStmt(known, s)
  {
    match s
    case Raw(text) => [E.Text(text)]
    case Output(e) => [E.ExpressionOpen] + R.Print(e) + [E.ExpressionClose]
    case If(cond, yes, otherwise) =>
      Tag(Word("if") + R.Print(cond)) + PrintStmts(known, yes) + PrintElse(known, otherwise) + Tag(Word("endif"))
    case For(key, value, over, body) =>
      Tag(Word("for") + LoopVariables(key, value) + Word("in") + R.Print(over))
      + PrintStmts(known, body) + Tag(Word("endfor"))
    case Set(name, e) => Tag(Word("set") + [E.Id(name), E.Assign] + R.Print(e))
  }

  function PrintElse(known: E.Library, o: Else): seq<Token>
    requires GoodElse(known, o)
  {
    match o
    case NoElse => []
    case ElseBlock(no) => Tag(Word("else")) + PrintStmts(known, no)
    case ElseIf(cond, yes, rest) =>
      Tag(Word("else") + Word("if") + R.Print(cond)) + PrintStmts(known, yes) + PrintElse(known, rest)
  }

  // ---------------------------------------------------------------- representation

  datatype Sizes = Sizes(blocks: nat, ifs: nat, fors: nat)

  function SizesOf(a: Arena): Sizes {
    Sizes(|a.blocks|, |a.ifs|, |a.fors|)
  }

  /** The items of a block stand for these statements, in nodes at or above `lo`. */
  predicate Shows(a: Arena, items: seq<Item>, stmts: seq<Stmt>, lo: Sizes)
    decreases stmts
  {
    |items| == |stmts| && forall i | 0 <= i < |items| :: ShowsItem(a, items[i], stmts[i], lo)
  }

  predicate ShowsItem(a: Arena, item: Item, s: Stmt, lo: Sizes)
    decreases s
  {
    match s
    case Raw(text) => item == TextItem(text)
    case Output(e) => item == OutputItem(Some(e))
    case Set(name, e) => item == SetItem(name, Some(e))
    case For(key, value, over, body) =>
      && item.ForItem? && lo.fors <= item.id < |a.fors|
      && var n := a.fors[item.id];
      && n.key == key && n.value == value && n.over == Some(over)
      && lo.blocks <= n.body < |a.blocks| && Shows(a, a.blocks[n.body], body, lo)
    case If(cond, yes, otherwise) =>
      && item.IfItem? && lo.ifs <= item.id < |a.ifs|
      && var n := a.ifs[item.id];
      && n.cond == Some(cond) && !n.nested
      && lo.blocks <= n.yes < |a.blocks| && Shows(a, a.blocks[n.yes], yes, lo)
      && ShowsElse(a, n, otherwise, lo)
  }

  predicate ShowsElse(a: Arena, n: IfNode, o: Else, lo: Sizes)
    decreases o
  {
    && lo.blocks <= n.no < |a.blocks|
    && match o
       case NoElse => !n.hasElse && a.blocks[n.no] == []
       case ElseBlock(no) => n.hasElse && lo.blocks <= n.no < |a.blocks| && Shows(a, a.blocks[n.no], no, lo)
       case ElseIf(cond, yes, rest) =>
         && n.hasElse && |a.blocks[n.no]| == 1
         && var item := a.blocks[n.no][0];
         && item.IfItem? && lo.ifs <= item.id < |a.ifs|
         && var m := a.ifs[item.id];
         && m.cond == Some(cond) && m.nested
         && lo.blocks <= m.yes < |a.blocks| && Shows(a, a.blocks[m.yes], yes, lo)
         && ShowsElse(a, m, rest, lo)
  }

  // ------------------------------------------------------------------- stability

  /** `b` still holds everything `a` had at or above `lo`. */
  predicate Keeps(a: Arena, b: Arena, lo: Sizes) {
    && |a.blocks| <= |b.blocks| && |a.ifs| <= |b.ifs| && |a.fors| <= |b.fors|
    && (forall i | lo.blocks <= i < |a.blocks| :: b.blocks[i] == a.blocks[i])
    && (forall i | lo.ifs <= i < |a.ifs| :: b.ifs[i] == a.ifs[i])
    && (forall i | lo.fors <= i < |a.fors| :: b.fors[i] == a.fors[i])
  }

  lemma {:induction false} ShowsKept(a: Arena, b: Arena, items: seq<Item>, stmts: seq<Stmt>, lo: Sizes)
    requires Keeps(a, b, lo) && Shows(a, items, stmts, lo)
    ensures Shows(b, items, stmts, lo)
    decreases stmts
  {
    forall i | 0 <= i < |items|
      ensures ShowsItem(b, items[i], stmts[i], lo)
    {
      match stmts[i]
      case Raw(_) =>
      case Output(_) =>
      case Set(_, _) =>
      case For(_, _, _, body) =>
        var n := a.fors[items[i].id];
        ShowsKept(a, b, a.blocks[n.body], body, lo);
      case If(_, yes, otherwise) =>
        var n := a.ifs[items[i].id];
        ShowsKept(a, b, a.blocks[n.yes], yes, lo);
        ElseKept(a, b, n, otherwise, lo);
    }
  }

  lemma {:induction false} ElseKept(a: Arena, b: Arena, n: IfNode, o: Else, lo: Sizes)
    requires Keeps(a, b, lo) && ShowsElse(a, n, o, lo)
    ensures ShowsElse(b, n, o, lo)
    decreases o
  {
    match o
    case NoElse =>
    case ElseBlock(no) => ShowsKept(a, b, a.blocks[n.no], no, lo);
    case ElseIf(_, yes, rest) =>
      var m := a.ifs[a.blocks[n.no][0].id];
      ShowsKept(a, b, a.blocks[m.yes], yes, lo);
      ElseKept(a, b, m, rest, lo);
  }

  predicate AtMost(lo: Sizes, hi: Sizes) {
    lo.blocks <= hi.blocks && lo.ifs <= hi.ifs && lo.fors <= hi.fors
  }

  lemma {:induction false} ShowsLower(a: Arena, items: seq<Item>, stmts: seq<Stmt>, hi: Sizes, lo: Sizes)
    requires AtMost(lo, hi) && Shows(a, items, stmts, hi)
    ensures Shows(a, items, stmts, lo)
    decreases stmts
  {
    forall i | 0 <= i < |items|
      ensures ShowsItem(a, items[i], stmts[i], lo)
    {
      match stmts[i]
      case Raw(_) =>
      case Output(_) =>
      case Set(_, _) =>
      case For(_, _, _, body) =>
        var n := a.fors[items[i].id];
        ShowsLower(a, a.blocks[n.body], body, hi, lo);
      case If(_, yes, otherwise) =>
        var n := a.ifs[items[i].id];
        ShowsLower(a, a.blocks[n.yes], yes, hi, lo);
        ElseLower(a, n, otherwise, hi, lo);
    }
  }

  lemma {:induction false} ElseLower(a: Arena, n: IfNode, o: Else, hi: Sizes, lo: Sizes)
    requires AtMost(lo, hi) && ShowsElse(a, n, o, hi)
    ensures ShowsElse(a, n, o, lo)
    decreases o
  {
    match o
    case NoElse =>
    case ElseBlock(no) => ShowsLower(a, a.blocks[n.no], no, hi, lo);
    case ElseIf(_, yes, rest) =>
      var m := a.ifs[a.blocks[n.no][0].id];
      ShowsLower(a, a.blocks[m.yes], yes, hi, lo);
      ElseLower(a, m, rest, hi, lo);
  }

  /** A block stands for one list of statements only. */
  lemma {:induction false} ShowsUnique(a: Arena, items: seq<Item>, s: seq<Stmt>, t: seq<Stmt>, lo: Sizes)
    requires Shows(a, items, s, lo) && Shows(a, items, t, lo)
    ensures s == t
    decreases s
  {
    forall i | 0 <= i < |items|
      ensures s[i] == t[i]
    {
      assert ShowsItem(a, items[i], s[i], lo) && ShowsItem(a, items[i], t[i], lo);
      match s[i]
      case Raw(_) =>
      case Output(_) =>
      case Set(_, _) =>
      case For(_, _, _, body) =>
        ShowsUnique(a, a.blocks[a.fors[items[i].id].body], body, t[i].body, lo);
      case If(_, yes, otherwise) =>
        var n := a.ifs[items[i].id];
        ShowsUnique(a, a.blocks[n.yes], yes, t[i].yes, lo);
        ElseUnique(a, n, otherwise, t[i].otherwise, lo);
    }
  }

  lemma {:induction false} NestedIsNoStatement(a: Arena, items: seq<Item>, stmts: seq<Stmt>, lo: Sizes)
    requires |items| == 1 && items[0].IfItem? && items[0].id < |a.ifs| && a.ifs[items[0].id].nested
    ensures !Shows(a, items, stmts, lo)
  {
    if |stmts| == 1 {
      assert !ShowsItem(a, items[0], stmts[0], lo);
    }
  }

  lemma {:induction false} ElseUnique(a: Arena, n: IfNode, o: Else, p: Else, lo: Sizes)
    requires ShowsElse(a, n, o, lo) && ShowsElse(a, n, p, lo)
    ensures o == p
    decreases o
  {
    match o
    case NoElse =>
    case ElseBlock(no) =>
      if p.ElseBlock? {
        ShowsUnique(a, a.blocks[n.no], no, p.no, lo);
      } else if p.ElseIf? {
        NestedIsNoStatement(a, a.blocks[n.no], no, lo);
      }
    case ElseIf(_, yes, rest) =>
      if p.ElseBlock? {
        NestedIsNoStatement(a, a.blocks[n.no], p.no, lo);
      } else if p.ElseIf? {
        var m := a.ifs[a.blocks[n.no][0].id];
        ShowsUnique(a, a.blocks[m.yes], yes, p.yes, lo);
        ElseUnique(a, m, rest, p.rest, lo);
      }
  }

  // --------------------------------------------------------------- one turn after another

  /** Parsing on from token `i` in state `b` ends in `r`. */
  predicate Ends(known: E.Library, toks: seq<Token>, i: nat, b: Build, r: Result<Build, Error>) {
    i <= |toks| && Valid(b) && Run(known, toks, i, b) == r
  }

  /** However parsing goes on from token `j` in state `c`, so it does from `i` in `b`. */
  ghost predicate LeadsTo(known: E.Library, toks: seq<Token>, i: nat, b: Build, j: nat, c: Build) {
    forall r :: Ends(known, toks, j, c, r) ==> Ends(known, toks, i, b, r)
  }

  lemma {:induction false} LeadsOn(
    known: E.Library, toks: seq<Token>, i: nat, b: Build, j: nat, c: Build, k: nat, d: Build)
    requires LeadsTo(known, toks, i, b, j, c) && LeadsTo(known, toks, j, c, k, d)
    ensures LeadsTo(known, toks, i, b, k, d)
  {
  }

  lemma {:induction false} TakesTurn(known: E.Library, toks: seq<Token>, i: nat, b: Build, j: nat, c: Build)
    requires i < |toks| && Valid(b) && !toks[i].Eof? && Turn(known, toks, i, b) == At(c, j)
    ensures LeadsTo(known, toks, i, b, j, c)
  {
    TurnValid(known, toks, i, b);
  }

  // --------------------------------------------------------------- reading the tags

  /** A printed expression between its tag's words and the closing token. */
  lemma {:induction false} ReadsExpression(known: E.Library, toks: seq<Token>, i: nat, e: Node, closing: Token)
    requires GoodExpr(known, e) && R.At(toks, i, R.Print(e) + [closing]) && R.Stops(closing)
    ensures ClosedExpression(known, toks, i, closing) == E.Found(Some(e), i + |R.Print(e)|)
  {
    R.AtSplit(toks, i, R.Print(e), [closing]);
    R.AtFirst(toks, i + |R.Print(e)|, [closing]);
    R.FeedWhole(known, toks, i, e);
  }

  lemma {:induction false} TagIsOpen(toks: seq<Token>, i: nat, body: seq<Token>)
    requires R.At(toks, i, Tag(body))
    ensures i < |toks| && toks[i].StatementOpen? && R.At(toks, i + 1, body + [E.StatementClose])
  {
    assert Tag(body) == [E.StatementOpen] + (body + [E.StatementClose]);
    R.AtToken(toks, i, E.StatementOpen, body + [E.StatementClose]);
  }

  lemma {:induction false} TurnText(known: E.Library, toks: seq<Token>, i: nat, text: string, b: Build)
    requires Valid(b) && i < |toks| && toks[i] == E.Text(text)
    ensures LeadsTo(known, toks, i, b, i + 1, AddItem(b, TextItem(text)))
  {
    TakesTurn(known, toks, i, b, i + 1, AddItem(b, TextItem(text)));
  }

  /** A comment leaves nothing behind: however the parse ends from behind it, so it does from before it. */
  lemma {:induction false} CommentLeavesNothing(known: E.Library, toks: seq<Token>, i: nat, b: Build)
    requires Valid(b) && i + 1 < |toks| && toks[i].CommentOpen? && toks[i + 1].CommentClose?
    ensures LeadsTo(known, toks, i, b, i + 2, b)
  {
    TakesTurn(known, toks, i, b, i + 2, b);
  }

  lemma {:induction false} TurnIf(known: E.Library, toks: seq<Token>, i: nat, cond: Node, b: Build, end: nat)
    requires Valid(b) && GoodExpr(known, cond) && R.At(toks, i, Tag(Word("if") + R.Print(cond)))
    requires end == i + |Tag(Word("if") + R.Print(cond))|
    ensures LeadsTo(known, toks, i, b, end, OpenIf(b, Some(cond), false))
  {
    TagIsOpen(toks, i, Word("if") + R.Print(cond));
    var rest := R.Print(cond) + [E.StatementClose];
    assert Word("if") + R.Print(cond) + [E.StatementClose] == [E.Id("if")] + rest;
    R.AtToken(toks, i + 1, E.Id("if"), rest);
    ReadsExpression(known, toks, i + 2, cond, E.StatementClose);
    TakesTurn(known, toks, i, b, end, OpenIf(b, Some(cond), false));
  }

  lemma {:induction false} TurnElse(known: E.Library, toks: seq<Token>, i: nat, b: Build)
    requires Valid(b) && b.ifStack != [] && R.At(toks, i, Tag(Word("else")))
    ensures LeadsTo(known, toks, i, b, i + |Tag(Word("else"))|, EnterElse(b))
  {
    TagIsOpen(toks, i, Word("else"));
    R.AtToken(toks, i + 1, E.Id("else"), [E.StatementClose]);
    R.AtFirst(toks, i + 2, [E.StatementClose]);
    TakesTurn(known, toks, i, b, i + |Tag(Word("else"))|, EnterElse(b));
  }

  lemma {:induction false} TurnElseIf(known: E.Library, toks: seq<Token>, i: nat, cond: Node, b: Build, end: nat)
    requires Valid(b) && b.ifStack != [] && GoodExpr(known, cond)
    requires R.At(toks, i, Tag(Word("else") + Word("if") + R.Print(cond)))
    requires end == i + |Tag(Word("else") + Word("if") + R.Print(cond))|
    ensures LeadsTo(known, toks, i, b, end, OpenIf(EnterElse(b), Some(cond), true))
  {
    ElseIfTag(toks, i, cond);
    R.AtSplit(toks, i + 3, R.Print(cond), [E.StatementClose]);
    R.AtFirst(toks, end - 1, [E.StatementClose]);
    ReadsExpression(known, toks, i + 3, cond, E.StatementClose);
    ElseIfTurn(known, toks, i, cond, b, end);
  }

  lemma {:induction false} ElseIfTag(toks: seq<Token>, i: nat, cond: Node)
    requires R.Proper(cond) && R.At(toks, i, Tag(Word("else") + Word("if") + R.Print(cond)))
    ensures i + 2 < |toks| && toks[i].StatementOpen? && toks[i + 1] == E.Id("else") && toks[i + 2] == E.Id("if")
    ensures R.At(toks, i + 3, R.Print(cond) + [E.StatementClose])
    ensures |Tag(Word("else") + Word("if") + R.Print(cond))| == 4 + |R.Print(cond)|
  {
    var inner := R.Print(cond);
    TagIsOpen(toks, i, Word("else") + Word("if") + inner);
    var rest := inner + [E.StatementClose];
    assert Word("else") + Word("if") + inner + [E.StatementClose] == [E.Id("else")] + ([E.Id("if")] + rest);
    R.AtToken(toks, i + 1, E.Id("else"), [E.Id("if")] + rest);
    R.AtToken(toks, i + 2, E.Id("if"), rest);
  }

  lemma {:induction false} ElseIfTurn(known: E.Library, toks: seq<Token>, i: nat, cond: Node, b: Build, end: nat)
    requires Valid(b) && b.ifStack != [] && i + 3 < end <= |toks|
    requires toks[i].StatementOpen? && toks[i + 1] == E.Id("else") && toks[i + 2] == E.Id("if")
    requires ClosedExpression(known, toks, i + 3, E.StatementClose) == E.Found(Some(cond), end - 1)
    ensures LeadsTo(known, toks, i, b, end, OpenIf(EnterElse(b), Some(cond), true))
  {
    assert ElseStatement(known, toks, i + 1, b, E.StatementClose)
        == At(OpenIf(EnterElse(b), Some(cond), true), end - 1);
    TakesTurn(known, toks, i, b, end, OpenIf(EnterElse(b), Some(cond), true));
  }

  lemma {:induction false} TurnEndif(known: E.Library, toks: seq<Token>, i: nat, b: Build)
    requires Valid(b) && b.ifStack != [] && CloseIf(b).Ok? && R.At(toks, i, Tag(Word("endif")))
    ensures LeadsTo(known, toks, i, b, i + |Tag(Word("endif"))|, CloseIf(b).value)
  {
    TagIsOpen(toks, i, Word("endif"));
    R.AtToken(toks, i + 1, E.Id("endif"), [E.StatementClose]);
    R.AtFirst(toks, i + 2, [E.StatementClose]);
    TakesTurn(known, toks, i, b, i + |Tag(Word("endif"))|, CloseIf(b).value);
  }

  lemma {:induction false} TurnEndfor(known: E.Library, toks: seq<Token>, i: nat, b: Build)
    requires Valid(b) && b.forStack != [] && R.At(toks, i, Tag(Word("endfor")))
    ensures LeadsTo(known, toks, i, b, i + |Tag(Word("endfor"))|, CloseFor(b))
  {
    TagIsOpen(toks, i, Word("endfor"));
    R.AtToken(toks, i + 1, E.Id("endfor"), [E.StatementClose]);
    R.AtFirst(toks, i + 2, [E.StatementClose]);
    TakesTurn(known, toks, i, b, i + |Tag(Word("endfor"))|, CloseFor(b));
  }

  function ForTag(s: Stmt): seq<Token>
    requires s.For? && R.Proper(s.over)
  {
    Tag(Word("for") + LoopVariables(s.key, s.value) + Word("in") + R.Print(s.over))
  }

  /** Where the words of a for tag stand; `j` is the place of "in". */
  lemma {:induction false} ForLayout(toks: seq<Token>, i: nat, s: Stmt) returns (j: nat)
    requires s.For? && R.Proper(s.over) && R.At(toks, i, ForTag(s))
    ensures j < |toks| && toks[i].StatementOpen? && toks[i + 1] == E.Id("for") && toks[j] == E.Id("in")
    ensures if s.key.Some? then j == i + 5 && toks[i + 2] == E.Id(s.key.value) && toks[i + 3].Comma? && toks[i + 4] == E.Id(s.value)
            else j == i + 3 && toks[i + 2] == E.Id(s.value)
    ensures R.At(toks, j + 1, R.Print(s.over) + [E.StatementClose])
    ensures i + |ForTag(s)| == j + 2 + |R.Print(s.over)|
  {
    TagIsOpen(toks, i, Word("for") + LoopVariables(s.key, s.value) + Word("in") + R.Print(s.over));
    var last := [E.Id("in")] + (R.Print(s.over) + [E.StatementClose]);
    var vars := LoopVariables(s.key, s.value) + last;
    assert Word("for") + LoopVariables(s.key, s.value) + Word("in") + R.Print(s.over) + [E.StatementClose]
        == [E.Id("for")] + vars;
    R.AtToken(toks, i + 1, E.Id("for"), vars);
    j := VariablesLayout(toks, i + 2, s.key, s.value, last);
    R.AtToken(toks, j, E.Id("in"), R.Print(s.over) + [E.StatementClose]);
  }

  lemma {:induction false} VariablesLayout(toks: seq<Token>, k: nat, key: Option<string>, value: string, last: seq<Token>)
    returns (j: nat)
    requires R.At(toks, k, LoopVariables(key, value) + last)
    ensures j == k + |LoopVariables(key, value)| <= |toks| && R.At(toks, j, last)
    ensures if key.Some? then toks[k] == E.Id(key.value) && toks[k + 1].Comma? && toks[k + 2] == E.Id(value)
            else toks[k] == E.Id(value)
  {
    if key.Some? {
      var afterComma := [E.Id(value)] + last;
      assert LoopVariables(key, value) + last == [E.Id(key.value)] + ([E.Comma] + afterComma);
      R.AtToken(toks, k, E.Id(key.value), [E.Comma] + afterComma);
      R.AtToken(toks, k + 1, E.Comma, afterComma);
      R.AtToken(toks, k + 2, E.Id(value), last);
      j := k + 3;
    } else {
      R.AtToken(toks, k, E.Id(value), last);
      j := k + 1;
    }
  }

  lemma {:induction false} TurnFor(known: E.Library, toks: seq<Token>, i: nat, s: Stmt, b: Build, end: nat)
    requires Valid(b) && s.For? && GoodExpr(known, s.over) && R.At(toks, i, ForTag(s))
    requires end == i + |ForTag(s)|
    ensures LeadsTo(known, toks, i, b, end, OpenFor(b, s.key, s.value, Some(s.over)))
  {
    var j := ForLayout(toks, i, s);
    R.AtSplit(toks, j + 1, R.Print(s.over), [E.StatementClose]);
    R.AtFirst(toks, end - 1, [E.StatementClose]);
    ReadsExpression(known, toks, j + 1, s.over, E.StatementClose);
    ForTurn(known, toks, i, s, b, j, end);
  }

  lemma {:induction false} ForTurn(known: E.Library, toks: seq<Token>, i: nat, s: Stmt, b: Build, j: nat, end: nat)
    requires Valid(b) && s.For? && i + 2 < j < end - 1 < |toks|
    requires toks[i].StatementOpen? && toks[i + 1] == E.Id("for") && toks[j] == E.Id("in")
    requires if s.key.Some? then j == i + 5 && toks[i + 2] == E.Id(s.key.value) && toks[i + 3].Comma? && toks[i + 4] == E.Id(s.value)
             else j == i + 3 && toks[i + 2] == E.Id(s.value)
    requires ClosedExpression(known, toks, j + 1, E.StatementClose) == E.Found(Some(s.over), end - 1)
    ensures LeadsTo(known, toks, i, b, end, OpenFor(b, s.key, s.value, Some(s.over)))
  {
    assert ForStatement(known, toks, i + 1, b, E.StatementClose)
        == At(OpenFor(b, s.key, s.value, Some(s.over)), end - 1);
    TakesTurn(known, toks, i, b, end, OpenFor(b, s.key, s.value, Some(s.over)));
  }

  lemma {:induction false} SetLayout(toks: seq<Token>, i: nat, s: Stmt)
    requires s.Set? && R.Proper(s.e)
    requires R.At(toks, i, Tag(Word("set") + [E.Id(s.name), E.Assign] + R.Print(s.e)))
    ensures i + 3 < |toks| && toks[i].StatementOpen? && toks[i + 1] == E.Id("set")
    ensures toks[i + 2] == E.Id(s.name) && toks[i + 3].Assign?
    ensures R.At(toks, i + 4, R.Print(s.e) + [E.StatementClose])
    ensures |Tag(Word("set") + [E.Id(s.name), E.Assign] + R.Print(s.e))| == 5 + |R.Print(s.e)|
  {
    TagIsOpen(toks, i, Word("set") + [E.Id(s.name), E.Assign] + R.Print(s.e));
    var rest := R.Print(s.e) + [E.StatementClose];
    assert Word("set") + [E.Id(s.name), E.Assign] + R.Print(s.e) + [E.StatementClose]
        == [E.Id("set")] + ([E.Id(s.name)] + ([E.Assign] + rest));
    R.AtToken(toks, i + 1, E.Id("set"), [E.Id(s.name)] + ([E.Assign] + rest));
    R.AtToken(toks, i + 2, E.Id(s.name), [E.Assign] + rest);
    R.AtToken(toks, i + 3, E.Assign, rest);
  }

  lemma {:induction false} TurnSet(known: E.Library, toks: seq<Token>, i: nat, s: Stmt, b: Build, end: nat)
    requires Valid(b) && s.Set? && GoodExpr(known, s.e) && R.At(toks, i, PrintStmt(known, s))
    requires end == i + |PrintStmt(known, s)|
    ensures LeadsTo(known, toks, i, b, end, AddItem(b, SetItem(s.name, Some(s.e))))
  {
    SetLayout(toks, i, s);
    R.AtSplit(toks, i + 4, R.Print(s.e), [E.StatementClose]);
    R.AtFirst(toks, end - 1, [E.StatementClose]);
    ReadsExpression(known, toks, i + 4, s.e, E.StatementClose);
    SetTurn(known, toks, i, s, b, end);
  }

  lemma {:induction false} SetTurn(known: E.Library, toks: seq<Token>, i: nat, s: Stmt, b: Build, end: nat)
    requires Valid(b) && s.Set? && i + 4 < end <= |toks|
    requires toks[i].StatementOpen? && toks[i + 1] == E.Id("set")
    requires toks[i + 2] == E.Id(s.name) && toks[i + 3].Assign?
    requires ClosedExpression(known, toks, i + 4, E.StatementClose) == E.Found(Some(s.e), end - 1)
    ensures LeadsTo(known, toks, i, b, end, AddItem(b, SetItem(s.name, Some(s.e))))
  {
    assert SetStatement(known, toks, i + 1, b, E.StatementClose) == At(AddItem(b, SetItem(s.name, Some(s.e))), end - 1);
    TakesTurn(known, toks, i, b, end, AddItem(b, SetItem(s.name, Some(s.e))));
  }

  lemma {:induction false} TurnOutput(known: E.Library, toks: seq<Token>, i: nat, s: Stmt, b: Build, end: nat)
    requires Valid(b) && s.Output? && GoodExpr(known, s.e) && R.At(toks, i, PrintStmt(known, s))
    requires end == i + |PrintStmt(known, s)|
    ensures LeadsTo(known, toks, i, b, end, AddItem(b, OutputItem(Some(s.e))))
  {
    var rest := R.Print(s.e) + [E.ExpressionClose];
    assert PrintStmt(known, s) == [E.ExpressionOpen] + rest;
    R.AtToken(toks, i, E.ExpressionOpen, rest);
    ReadsExpression(known, toks, i + 1, s.e, E.ExpressionClose);
    OutputTurn(known, toks, i, s.e, b, end);
  }

  lemma {:induction false} OutputTurn(known: E.Library, toks: seq<Token>, i: nat, e: Node, b: Build, end: nat)
    requires Valid(b) && i + 1 < end <= |toks| && toks[i].ExpressionOpen?
    requires ClosedExpression(known, toks, i + 1, E.ExpressionClose) == E.Found(Some(e), end - 1)
    ensures LeadsTo(known, toks, i, b, end, AddItem(b, OutputItem(Some(e))))
  {
    TakesTurn(known, toks, i, b, end, AddItem(b, OutputItem(Some(e))));
  }

  // ----------------------------------------------------------------- running on

  /** From `b` to `c` the current block gained `items`, and the rest only new nodes. */
  predicate Grew(b: Build, c: Build, items: seq<Item>) {
    && Valid(b) && Valid(c)
    && c.current == b.current && c.ifStack == b.ifStack && c.forStack == b.forStack
    && b.arena.blocks[b.current := b.arena.blocks[b.current] + items] <= c.arena.blocks
    && b.arena.ifs <= c.arena.ifs && b.arena.fors <= c.arena.fors
  }

  lemma {:induction false} RunStmts(known: E.Library, toks: seq<Token>, i: nat, b: Build, stmts: seq<Stmt>, end: nat)
    returns (c: Build, items: seq<Item>)
    requires Valid(b) && GoodStmts(known, stmts) && R.At(toks, i, PrintStmts(known, stmts))
    requires end == i + |PrintStmts(known, stmts)|
    ensures LeadsTo(known, toks, i, b, end, c)
    ensures Grew(b, c, items) && Shows(c.arena, items, stmts, SizesOf(b.arena))
    decreases stmts, 1
  {
    if stmts == [] {
      c, items := b, [];
      assert b.arena.blocks[b.current] + [] == b.arena.blocks[b.current];
    } else {
      R.AtSplit(toks, i, PrintStmt(known, stmts[0]), PrintStmts(known, stmts[1..]));
      var j := i + |PrintStmt(known, stmts[0])|;
      var m, first := RunStmt(known, toks, i, b, stmts[0], j);
      var rest;
      c, rest := RunStmts(known, toks, j, m, stmts[1..], end);
      items := [first] + rest;
      LeadsOn(known, toks, i, b, j, m, end, c);
      Append(b, m, c, first, rest, stmts);
    }
  }

  lemma {:induction false} Append(b: Build, m: Build, c: Build, first: Item, rest: seq<Item>, stmts: seq<Stmt>)
    requires stmts != [] && Grew(b, m, [first]) && Grew(m, c, rest)
    requires ShowsItem(m.arena, first, stmts[0], SizesOf(b.arena))
    requires Shows(c.arena, rest, stmts[1..], SizesOf(m.arena))
    ensures Grew(b, c, [first] + rest) && Shows(c.arena, [first] + rest, stmts, SizesOf(b.arena))
  {
    var lo := SizesOf(b.arena);
    assert Shows(m.arena, [first], [stmts[0]], lo);
    ShowsKept(m.arena, c.arena, [first], [stmts[0]], lo);
    ShowsLower(c.arena, rest, stmts[1..], SizesOf(m.arena), lo);
    assert ShowsItem(c.arena, [first][0], [stmts[0]][0], lo);
    assert b.arena.blocks[b.current] + ([first] + rest) == b.arena.blocks[b.current] + [first] + rest;
  }

  lemma {:induction false} RunStmt(known: E.Library, toks: seq<Token>, i: nat, b: Build, s: Stmt, end: nat)
    returns (c: Build, item: Item)
    requires Valid(b) && GoodStmt(known, s) && R.At(toks, i, PrintStmt(known, s))
    requires end == i + |PrintStmt(known, s)|
    ensures LeadsTo(known, toks, i, b, end, c)
    ensures Grew(b, c, [item]) && ShowsItem(c.arena, item, s, SizesOf(b.arena))
    decreases s, 1
  {
    match s
    case Raw(text) =>
      c, item := AddItem(b, TextItem(text)), TextItem(text);
      R.AtFirst(toks, i, [E.Text(text)]);
      TurnText(known, toks, i, text, b);
    case Output(e) =>
      c, item := AddItem(b, OutputItem(Some(e))), OutputItem(Some(e));
      TurnOutput(known, toks, i, s, b, end);
    case Set(name, e) =>
      c, item := AddItem(b, SetItem(name, Some(e))), SetItem(name, Some(e));
      TurnSet(known, toks, i, s, b, end);
    case For(_, _, _, _) => c, item := RunFor(known, toks, i, b, s, end);
    case If(_, _, _) => c, item := RunIf(known, toks, i, b, s, end);
  }

  lemma {:induction false} RunFor(known: E.Library, toks: seq<Token>, i: nat, b: Build, s: Stmt, end: nat)
    returns (c: Build, item: Item)
    requires s.For? && Valid(b) && GoodStmt(known, s) && R.At(toks, i, PrintStmt(known, s))
    requires end == i + |PrintStmt(known, s)|
    ensures LeadsTo(known, toks, i, b, end, c)
    ensures Grew(b, c, [item]) && ShowsItem(c.arena, item, s, SizesOf(b.arena))
    decreases s, 0
  {
    var body, close := PrintStmts(known, s.body), Tag(Word("endfor"));
    assert PrintStmt(known, s) == ForTag(s) + body + close;
    R.AtSplit(toks, i, ForTag(s) + body, close);
    R.AtSplit(toks, i, ForTag(s), body);
    var j := i + |ForTag(s)|;
    var k := j + |body|;
    var entered := OpenFor(b, s.key, s.value, Some(s.over));
    OpenForValid(b, s.key, s.value, Some(s.over));
    TurnFor(known, toks, i, s, b, j);
    var inside, items := RunStmts(known, toks, j, entered, s.body, k);
    TurnEndfor(known, toks, k, inside);
    c, item := CloseFor(inside), ForItem(|b.arena.fors|);
    LeadsOn(known, toks, i, b, j, entered, k, inside);
    LeadsOn(known, toks, i, b, k, inside, end, c);
    LoopShows(b, inside, s, items);
  }

  lemma {:induction false} LoopShows(b: Build, inside: Build, s: Stmt, items: seq<Item>)
    requires s.For? && Valid(b)
    requires var entered := OpenFor(b, s.key, s.value, Some(s.over));
             Grew(entered, inside, items) && Shows(inside.arena, items, s.body, SizesOf(entered.arena))
    requires Valid(CloseFor(inside))
    ensures Grew(b, CloseFor(inside), [ForItem(|b.arena.fors|)])
    ensures ShowsItem(inside.arena, ForItem(|b.arena.fors|), s, SizesOf(b.arena))
  {
    var entered := OpenFor(b, s.key, s.value, Some(s.over));
    var id := |b.arena.fors|;
    assert inside.arena.fors[id] == entered.arena.fors[id];
    assert inside.arena.blocks[|b.arena.blocks|] == items;
    ShowsLower(inside.arena, items, s.body, SizesOf(entered.arena), SizesOf(b.arena));
  }

  lemma {:induction false} RunIf(known: E.Library, toks: seq<Token>, i: nat, b: Build, s: Stmt, end: nat)
    returns (c: Build, item: Item)
    requires s.If? && Valid(b) && GoodStmt(known, s) && R.At(toks, i, PrintStmt(known, s))
    requires end == i + |PrintStmt(known, s)|
    ensures LeadsTo(known, toks, i, b, end, c)
    ensures Grew(b, c, [item]) && ShowsItem(c.arena, item, s, SizesOf(b.arena))
    decreases s, 0
  {
    var j, k, l := IfLayout(known, toks, i, s);
    var inside, items := RunYes(known, toks, i, b, s, j, k);
    IfRest(b, inside, Some(s.cond), items);
    var ended := RunElse(known, toks, k, inside, s.otherwise, SizesOf(b.arena), l);
    ClosesToParent(b, s, inside, ended, items);
    TurnEndif(known, toks, l, ended);
    c, item := CloseIf(ended).value, IfItem(|b.arena.ifs|);
    LeadsOn(known, toks, i, b, k, inside, l, ended);
    LeadsOn(known, toks, i, b, l, ended, end, c);
  }

  lemma {:induction false} RunYes(known: E.Library, toks: seq<Token>, i: nat, b: Build, s: Stmt, j: nat, k: nat)
    returns (inside: Build, items: seq<Item>)
    requires s.If? && Valid(b) && GoodExpr(known, s.cond) && GoodStmts(known, s.yes)
    requires var tag := Tag(Word("if") + R.Print(s.cond)); R.At(toks, i, tag) && j == i + |tag|
    requires R.At(toks, j, PrintStmts(known, s.yes)) && k == j + |PrintStmts(known, s.yes)|
    ensures LeadsTo(known, toks, i, b, k, inside)
    ensures var entered := OpenIf(b, Some(s.cond), false);
            Grew(entered, inside, items) && Shows(inside.arena, items, s.yes, SizesOf(entered.arena))
    decreases s.yes, 2
  {
    var entered := OpenIf(b, Some(s.cond), false);
    OpenIfValid(b, Some(s.cond), false);
    TurnIf(known, toks, i, s.cond, b, j);
    inside, items := RunStmts(known, toks, j, entered, s.yes, k);
    LeadsOn(known, toks, i, b, j, entered, k, inside);
  }

  /** The else of the new if is the one to fill next. */
  lemma {:induction false} IfRest(b: Build, inside: Build, cond: Option<Node>, items: seq<Item>)
    requires Valid(b) && Grew(OpenIf(b, cond, false), inside, items)
    ensures ElseIsOpen(inside) && AtMost(SizesOf(b.arena), SizesOf(inside.arena))
    ensures SizesOf(b.arena).blocks <= inside.arena.ifs[inside.ifStack[|inside.ifStack| - 1]].no
  {
    YesRead(b, cond, false, inside, items);
  }

  lemma {:induction false} IfLayout(known: E.Library, toks: seq<Token>, i: nat, s: Stmt)
    returns (j: nat, k: nat, l: nat)
    requires s.If? && GoodStmt(known, s) && R.At(toks, i, PrintStmt(known, s))
    ensures var tag := Tag(Word("if") + R.Print(s.cond)); R.At(toks, i, tag) && j == i + |tag|
    ensures R.At(toks, j, PrintStmts(known, s.yes)) && k == j + |PrintStmts(known, s.yes)|
    ensures R.At(toks, k, PrintElse(known, s.otherwise)) && l == k + |PrintElse(known, s.otherwise)|
    ensures R.At(toks, l, Tag(Word("endif"))) && i + |PrintStmt(known, s)| == l + |Tag(Word("endif"))|
  {
    var tag, yes, otherwise, close :=
      Tag(Word("if") + R.Print(s.cond)), PrintStmts(known, s.yes), PrintElse(known, s.otherwise), Tag(Word("endif"));
    assert PrintStmt(known, s) == tag + yes + otherwise + close;
    R.AtSplit(toks, i, tag + yes + otherwise, close);
    R.AtSplit(toks, i, tag + yes, otherwise);
    R.AtSplit(toks, i, tag, yes);
    j := i + |tag|;
    k := j + |yes|;
    l := k + |otherwise|;
  }

  /** The if that the top of the stack names is open, and its else is still empty. */
  predicate ElseIsOpen(b: Build) {
    && Valid(b) && b.ifStack != []
    && var n := b.arena.ifs[b.ifStack[|b.ifStack| - 1]];
       b.arena.blocks[n.no] == [] && !n.hasElse
  }

  /** After the branch taken on `cond` is read, the else is still open. */
  lemma {:induction false} YesRead(b: Build, cond: Option<Node>, nested: bool, inside: Build, items: seq<Item>)
    requires Valid(b) && Grew(OpenIf(b, cond, nested), inside, items)
    ensures ElseIsOpen(inside)
    ensures var id := |b.arena.ifs|; var n := |b.arena.blocks|;
            && inside.ifStack == b.ifStack + [id] && inside.forStack == b.forStack
            && id < |inside.arena.ifs| && n + 1 < |inside.arena.blocks|
            && inside.arena.ifs[id] == IfNode(cond, n, n + 1, false, b.current, nested)
            && inside.arena.blocks[n] == items
            && inside.arena.blocks[b.current] == b.arena.blocks[b.current] + [IfItem(id)]
            && AtMost(SizesOf(b.arena), SizesOf(inside.arena))
  {
    var entered := OpenIf(b, cond, nested);
    assert inside.arena.ifs[|b.arena.ifs|] == entered.arena.ifs[|b.arena.ifs|];
    assert inside.arena.blocks[|b.arena.blocks| + 1] == entered.arena.blocks[|b.arena.blocks| + 1];
  }

  /** From `b` to `c` only the else of the innermost if was filled, and new nodes added. */
  predicate ElseGrew(b: Build, c: Build, o: Else) {
    && ElseIsOpen(b) && Valid(c)
    && var id := b.ifStack[|b.ifStack| - 1];
    && var n := b.arena.ifs[id];
    && |b.arena.blocks| <= |c.arena.blocks|
    && b.arena.blocks[n.no := c.arena.blocks[n.no]] <= c.arena.blocks
    && b.arena.ifs[id := n.(hasElse := !o.NoElse?)] <= c.arena.ifs
    && b.arena.fors <= c.arena.fors
    && c.forStack == b.forStack
    && PopNested(c.arena.ifs, c.ifStack) == PopNested(c.arena.ifs, b.ifStack)
  }

  lemma {:induction false} RunElse(known: E.Library, toks: seq<Token>, i: nat, b: Build, o: Else, lo: Sizes, end: nat)
    returns (c: Build)
    requires ElseIsOpen(b) && GoodElse(known, o) && R.At(toks, i, PrintElse(known, o))
    requires end == i + |PrintElse(known, o)|
    requires AtMost(lo, SizesOf(b.arena)) && lo.blocks <= b.arena.ifs[b.ifStack[|b.ifStack| - 1]].no
    ensures LeadsTo(known, toks, i, b, end, c)
    ensures ElseGrew(b, c, o)
    ensures ShowsElse(c.arena, c.arena.ifs[b.ifStack[|b.ifStack| - 1]], o, lo)
    decreases o, 1
  {
    match o
    case NoElse => c := b;
    case ElseBlock(_) => c := RunElseBlock(known, toks, i, b, o, lo, end);
    case ElseIf(_, _, _) => c := RunElseIf(known, toks, i, b, o, lo, end);
  }

  lemma {:induction false} RunElseBlock(known: E.Library, toks: seq<Token>, i: nat, b: Build, o: Else, lo: Sizes, end: nat)
    returns (c: Build)
    requires o.ElseBlock? && ElseIsOpen(b) && GoodElse(known, o) && R.At(toks, i, PrintElse(known, o))
    requires end == i + |PrintElse(known, o)|
    requires AtMost(lo, SizesOf(b.arena)) && lo.blocks <= b.arena.ifs[b.ifStack[|b.ifStack| - 1]].no
    ensures LeadsTo(known, toks, i, b, end, c)
    ensures ElseGrew(b, c, o)
    ensures ShowsElse(c.arena, c.arena.ifs[b.ifStack[|b.ifStack| - 1]], o, lo)
    decreases o, 0
  {
    var tag := Tag(Word("else"));
    R.AtSplit(toks, i, tag, PrintStmts(known, o.no));
    TurnElse(known, toks, i, b);
    var items;
    c, items := RunStmts(known, toks, i + |tag|, EnterElse(b), o.no, end);
    LeadsOn(known, toks, i, b, i + |tag|, EnterElse(b), end, c);
    ElseRead(b, c, o.no, items, lo);
  }

  lemma {:induction false} RunElseIf(known: E.Library, toks: seq<Token>, i: nat, b: Build, o: Else, lo: Sizes, end: nat)
    returns (c: Build)
    requires o.ElseIf? && ElseIsOpen(b) && GoodElse(known, o) && R.At(toks, i, PrintElse(known, o))
    requires end == i + |PrintElse(known, o)|
    requires AtMost(lo, SizesOf(b.arena)) && lo.blocks <= b.arena.ifs[b.ifStack[|b.ifStack| - 1]].no
    ensures LeadsTo(known, toks, i, b, end, c)
    ensures ElseGrew(b, c, o)
    ensures ShowsElse(c.arena, c.arena.ifs[b.ifStack[|b.ifStack| - 1]], o, lo)
    decreases o, 0
  {
    var j, k := ElseIfLayout(known, toks, i, o);
    var inside, items := RunNestedYes(known, toks, i, b, o, j, k);
    ElseIfRest(b, inside, o, items, lo);
    c := RunElse(known, toks, k, inside, o.rest, lo, end);
    LeadsOn(known, toks, i, b, k, inside, end, c);
    ElseIfRead(b, inside, c, o, items, lo);
  }

  lemma {:induction false} RunNestedYes(known: E.Library, toks: seq<Token>, i: nat, b: Build, o: Else, j: nat, k: nat)
    returns (inside: Build, items: seq<Item>)
    requires o.ElseIf? && ElseIsOpen(b) && GoodExpr(known, o.cond) && GoodStmts(known, o.yes)
    requires var tag := Tag(Word("else") + Word("if") + R.Print(o.cond)); R.At(toks, i, tag) && j == i + |tag|
    requires R.At(toks, j, PrintStmts(known, o.yes)) && k == j + |PrintStmts(known, o.yes)|
    ensures LeadsTo(known, toks, i, b, k, inside)
    ensures var entered := OpenIf(EnterElse(b), Some(o.cond), true);
            Grew(entered, inside, items) && Shows(inside.arena, items, o.yes, SizesOf(entered.arena))
    decreases o.yes, 2
  {
    var entered := OpenIf(EnterElse(b), Some(o.cond), true);
    OpenIfValid(EnterElse(b), Some(o.cond), true);
    TurnElseIf(known, toks, i, o.cond, b, j);
    inside, items := RunStmts(known, toks, j, entered, o.yes, k);
    LeadsOn(known, toks, i, b, j, entered, k, inside);
  }

  /** The else of the new nested if is the one that `rest` fills. */
  lemma {:induction false} ElseIfRest(b: Build, inside: Build, o: Else, items: seq<Item>, lo: Sizes)
    requires ElseIsOpen(b) && o.ElseIf? && AtMost(lo, SizesOf(b.arena))
    requires Grew(OpenIf(EnterElse(b), Some(o.cond), true), inside, items)
    ensures ElseIsOpen(inside) && AtMost(lo, SizesOf(inside.arena))
    ensures lo.blocks <= inside.arena.ifs[inside.ifStack[|inside.ifStack| - 1]].no
  {
    YesRead(EnterElse(b), Some(o.cond), true, inside, items);
  }

  lemma {:induction false} ElseIfLayout(known: E.Library, toks: seq<Token>, i: nat, o: Else) returns (j: nat, k: nat)
    requires o.ElseIf? && GoodElse(known, o) && R.At(toks, i, PrintElse(known, o))
    ensures var tag := Tag(Word("else") + Word("if") + R.Print(o.cond)); R.At(toks, i, tag) && j == i + |tag|
    ensures R.At(toks, j, PrintStmts(known, o.yes)) && k == j + |PrintStmts(known, o.yes)|
    ensures R.At(toks, k, PrintElse(known, o.rest)) && i + |PrintElse(known, o)| == k + |PrintElse(known, o.rest)|
  {
    var tag := Tag(Word("else") + Word("if") + R.Print(o.cond));
    var body := PrintStmts(known, o.yes);
    R.AtSplit(toks, i, tag + body, PrintElse(known, o.rest));
    R.AtSplit(toks, i, tag, body);
    j, k := i + |tag|, i + |tag| + |body|;
  }

  lemma {:induction false} ElseRead(b: Build, c: Build, no: seq<Stmt>, items: seq<Item>, lo: Sizes)
    requires ElseIsOpen(b)
    requires Grew(EnterElse(b), c, items) && Shows(c.arena, items, no, SizesOf(b.arena))
    requires AtMost(lo, SizesOf(b.arena)) && lo.blocks <= b.arena.ifs[b.ifStack[|b.ifStack| - 1]].no
    ensures ElseGrew(b, c, ElseBlock(no))
    ensures ShowsElse(c.arena, c.arena.ifs[b.ifStack[|b.ifStack| - 1]], ElseBlock(no), lo)
  {
    var id := b.ifStack[|b.ifStack| - 1];
    assert c.arena.ifs[id] == EnterElse(b).arena.ifs[id];
    assert c.arena.blocks[b.arena.ifs[id].no] == items;
    ShowsLower(c.arena, items, no, SizesOf(b.arena), lo);
  }

  /** What stands around an `else if` once its own rest is read. */
  predicate NestedRead(b: Build, inside: Build, c: Build, o: Else, items: seq<Item>) {
    && ElseIsOpen(b) && o.ElseIf?
    && var entered := OpenIf(EnterElse(b), Some(o.cond), true);
    && Grew(entered, inside, items) && Shows(inside.arena, items, o.yes, SizesOf(entered.arena))
    && ElseGrew(inside, c, o.rest)
  }

  lemma {:induction false} ElseIfGrew(b: Build, inside: Build, c: Build, o: Else, items: seq<Item>)
    requires NestedRead(b, inside, c, o, items)
    ensures ElseGrew(b, c, o)
    ensures var n := c.arena.ifs[b.ifStack[|b.ifStack| - 1]];
            n.hasElse && c.arena.blocks[n.no] == [IfItem(|b.arena.ifs|)]
  {
    var id, m := b.ifStack[|b.ifStack| - 1], |b.arena.ifs|;
    var entered := OpenIf(EnterElse(b), Some(o.cond), true);
    YesRead(EnterElse(b), Some(o.cond), true, inside, items);
    assert c.arena.ifs[id] == inside.arena.ifs[id];
    assert inside.arena.ifs[id] == entered.arena.ifs[id];
    assert c.arena.ifs[m].nested;
    assert (b.ifStack + [m])[..|b.ifStack|] == b.ifStack;
    var no := b.arena.ifs[id].no;
    assert c.arena.blocks[no] == inside.arena.blocks[no];
    assert inside.arena.blocks[no] == [IfItem(m)];
  }

  /** The nested if and what its `yes` branch holds are as they were read. */
  lemma {:induction false} ElseIfYes(b: Build, inside: Build, c: Build, o: Else, items: seq<Item>, lo: Sizes)
    requires NestedRead(b, inside, c, o, items) && AtMost(lo, SizesOf(b.arena))
    ensures |b.arena.ifs| < |c.arena.ifs|
    ensures var m := c.arena.ifs[|b.arena.ifs|];
            && m.cond == Some(o.cond) && m.nested
            && lo.blocks <= m.yes < |c.arena.blocks| && Shows(c.arena, c.arena.blocks[m.yes], o.yes, lo)
  {
    var entered := OpenIf(EnterElse(b), Some(o.cond), true);
    YesRead(EnterElse(b), Some(o.cond), true, inside, items);
    assert Keeps(inside.arena, c.arena, SizesOf(entered.arena));
    ShowsKept(inside.arena, c.arena, items, o.yes, SizesOf(entered.arena));
    ShowsLower(c.arena, items, o.yes, SizesOf(entered.arena), lo);
  }

  lemma {:induction false} ElseIfRead(b: Build, inside: Build, c: Build, o: Else, items: seq<Item>, lo: Sizes)
    requires NestedRead(b, inside, c, o, items)
    requires AtMost(lo, SizesOf(b.arena)) && lo.blocks <= b.arena.ifs[b.ifStack[|b.ifStack| - 1]].no
    requires ShowsElse(c.arena, c.arena.ifs[inside.ifStack[|inside.ifStack| - 1]], o.rest, lo)
    ensures ElseGrew(b, c, o)
    ensures ShowsElse(c.arena, c.arena.ifs[b.ifStack[|b.ifStack| - 1]], o, lo)
  {
    ElseIfGrew(b, inside, c, o, items);
    ElseIfYes(b, inside, c, o, items, lo);
  }

  lemma {:induction false} ClosesToParent(b: Build, s: Stmt, inside: Build, ended: Build, items: seq<Item>)
    requires Valid(b) && s.If?
    requires var entered := OpenIf(b, Some(s.cond), false);
             Grew(entered, inside, items) && Shows(inside.arena, items, s.yes, SizesOf(entered.arena))
    requires ElseGrew(inside, ended, s.otherwise)
    requires ShowsElse(ended.arena, ended.arena.ifs[inside.ifStack[|inside.ifStack| - 1]], s.otherwise, SizesOf(b.arena))
    ensures ended.ifStack != [] && CloseIf(ended).Ok?
    ensures Grew(b, CloseIf(ended).value, [IfItem(|b.arena.ifs|)])
    ensures ShowsItem(ended.arena, IfItem(|b.arena.ifs|), s, SizesOf(b.arena))
  {
    var id := |b.arena.ifs|;
    var entered := OpenIf(b, Some(s.cond), false);
    YesRead(b, Some(s.cond), false, inside, items);
    assert !ended.arena.ifs[id].nested;
    assert PopNested(ended.arena.ifs, b.ifStack + [id]) == b.ifStack + [id];
    CloseIfValid(ended);
    assert Keeps(inside.arena, ended.arena, SizesOf(entered.arena));
    ShowsKept(inside.arena, ended.arena, items, s.yes, SizesOf(entered.arena));
    ShowsLower(ended.arena, items, s.yes, SizesOf(entered.arena), SizesOf(b.arena));
  }

  // -------------------------------------------------------------------- the theorems

  lemma {:induction false} LeadsToTheEnd(known: E.Library, toks: seq<Token>, b: Build)
    requires LeadsTo(known, toks, 0, START, |toks|, b) && Valid(b) && Finish(b) == Ok(b)
    ensures ParseTemplate(known, toks) == Ok(b)
  {
    assert Ends(known, toks, |toks|, b, Ok(b));
  }

  const WHOLE := Sizes(0, 0, 0)

  /** Parsing what was printed gives back that template, with every if and for closed. */
  lemma {:induction false} TemplateRoundTrip(known: E.Library, t: seq<Stmt>) returns (b: Build)
    requires GoodStmts(known, t)
    ensures ParseTemplate(known, PrintStmts(known, t)) == Ok(b)
    ensures Valid(b) && b.current == 0 && b.ifStack == [] && b.forStack == []
    ensures Shows(b.arena, b.arena.blocks[0], t, WHOLE)
  {
    var toks := PrintStmts(known, t);
    var items;
    b, items := RunStmts(known, toks, 0, START, t, |toks|);
    LeadsToTheEnd(known, toks, b);
    assert b.arena.blocks[0] == items;
    ShowsLower(b.arena, items, t, SizesOf(START.arena), WHOLE);
  }

  /** Two templates that print alike are the same. */
  lemma {:induction false} TemplatesPrintApart(known: E.Library, s: seq<Stmt>, t: seq<Stmt>)
    requires GoodStmts(known, s) && GoodStmts(known, t) && PrintStmts(known, s) == PrintStmts(known, t)
    ensures s == t
  {
    var b := TemplateRoundTrip(known, s);
    var c := TemplateRoundTrip(known, t);
    ShowsUnique(b.arena, b.arena.blocks[0], s, t, WHOLE);
  }

  // -------------------------------------------------------- the loop at `endif`

  /** The if opened first of those still open is not an `else if`. */
  predicate Grounded(b: Build) {
    Valid(b) && (b.ifStack != [] ==> !b.arena.ifs[b.ifStack[0]].nested)
  }

  lemma {:induction false} PopNestedStops(ifs: seq<IfNode>, stack: seq<nat>)
    requires stack != [] && (forall i | 0 <= i < |stack| :: stack[i] < |ifs|) && !ifs[stack[0]].nested
    ensures PopNested(ifs, stack) != [] && PopNested(ifs, stack) <= stack
    decreases |stack|
  {
    if ifs[stack[|stack| - 1]].nested {
      PopNestedStops(ifs, stack[..|stack| - 1]);
    }
  }

  lemma {:induction false} CloseIfGrounded(b: Build)
    requires Grounded(b) && b.ifStack != []
    ensures CloseIf(b).Ok? && Grounded(CloseIf(b).value)
  {
    PopNestedStops(b.arena.ifs, b.ifStack);
    CloseIfValid(b);
  }

  lemma {:induction false} OpenIfGrounded(b: Build, cond: Option<Node>, nested: bool)
    requires Grounded(b) && (nested ==> b.ifStack != [])
    ensures Grounded(OpenIf(b, cond, nested))
  {
    OpenIfValid(b, cond, nested);
  }

  predicate StaysGrounded(p: Progress) {
    if p.At? then Grounded(p.b) else p.error != EmptyStackInspected
  }

  lemma {:induction false} IfGrounded(known: E.Library, toks: seq<Token>, i: nat, b: Build, closing: Token, nested: bool)
    requires i <= |toks| && Grounded(b) && (nested ==> b.ifStack != [])
    ensures StaysGrounded(IfStatement(known, toks, i, b, closing, nested))
  {
    var e := ClosedExpression(known, toks, i, closing);
    if e.Found? {
      OpenIfGrounded(b, e.node, nested);
    }
  }

  lemma {:induction false} ElseGrounded(known: E.Library, toks: seq<Token>, i: nat, b: Build, closing: Token)
    requires i < |toks| && Grounded(b)
    ensures StaysGrounded(ElseStatement(known, toks, i, b, closing))
  {
    if b.ifStack != [] {
      assert Grounded(EnterElse(b));
      if IsWord(E.Tok(toks, i + 1), "if") {
        IfGrounded(known, toks, i + 2, EnterElse(b), closing, true);
      }
    }
  }

  lemma {:induction false} ForGrounded(known: E.Library, toks: seq<Token>, i: nat, b: Build, closing: Token)
    requires i < |toks| && Grounded(b)
    ensures StaysGrounded(ForStatement(known, toks, i, b, closing))
  {
    ForStatementFine(known, toks, i, b, closing);
  }

  lemma {:induction false} SetGrounded(known: E.Library, toks: seq<Token>, i: nat, b: Build, closing: Token)
    requires i < |toks| && Grounded(b)
    ensures StaysGrounded(SetStatement(known, toks, i, b, closing))
  {
  }

  lemma {:induction false} StatementGrounded(known: E.Library, toks: seq<Token>, i: nat, b: Build, closing: Token)
    requires i <= |toks| && Grounded(b)
    ensures StaysGrounded(Statement(known, toks, i, b, closing))
  {
    var t := E.Tok(toks, i);
    if IsWord(t, "if") {
      IfGrounded(known, toks, i + 1, b, closing, false);
    } else if IsWord(t, "else") {
      ElseGrounded(known, toks, i, b, closing);
    } else if IsWord(t, "endif") {
      if b.ifStack != [] {
        CloseIfGrounded(b);
      }
    } else if IsWord(t, "for") {
      ForGrounded(known, toks, i, b, closing);
    } else if IsWord(t, "set") {
      SetGrounded(known, toks, i, b, closing);
    }
  }

  lemma {:induction false} TurnGrounded(known: E.Library, toks: seq<Token>, i: nat, b: Build)
    requires i <= |toks| && Grounded(b) && !AtEnd(toks, i)
    ensures StaysGrounded(Turn(known, toks, i, b))
  {
    TurnValid(known, toks, i, b);
    var t := toks[i];
    if t.StatementOpen? {
      StatementGrounded(known, toks, i + 1, b, E.StatementClose);
    } else if t.LineStatementOpen? {
      StatementGrounded(known, toks, i + 1, b, E.LineStatementClose);
    }
  }

  lemma {:induction false} RunGrounded(known: E.Library, toks: seq<Token>, i: nat, b: Build)
    requires i <= |toks| && Grounded(b)
    ensures Run(known, toks, i, b) != Err(EmptyStackInspected)
    decreases |toks| - i
  {
    if !AtEnd(toks, i) {
      TurnGrounded(known, toks, i, b);
      TurnValid(known, toks, i, b);
      var p := Turn(known, toks, i, b);
      if p.At? {
        RunGrounded(known, toks, p.next, p.b);
      }
    }
  }

  /** On no token sequence at all does `endif` look below the last open if. */
  lemma {:induction false} EndifNeverInspectsAnEmptyStack(known: E.Library, toks: seq<Token>)
    ensures ParseTemplate(known, toks) != Err(EmptyStackInspected)
  {
    RunGrounded(known, toks, 0, START);
  }

  // ------------------------------------------------------- crossed if and for

  /** An if that is closed inside the loop it holds, and text after both. */
  function Crossed(cond: Node, loop: Stmt, text: string): seq<Token>
    requires loop.For? && R.Proper(cond) && R.Proper(loop.over)
  {
    Tag(Word("if") + R.Print(cond)) + ForTag(loop) + Tag(Word("endif")) + Tag(Word("endfor")) + [E.Text(text)]
  }

  /**
  Nothing checks that if and for statements are nested: the crossed pair is
  accepted, and the text after it becomes part of the if instead of the template.
  */
  lemma {:induction false} CrossedIsAccepted(known: E.Library, cond: Node, loop: Stmt, text: string)
    returns (b: Build)
    requires loop.For? && GoodExpr(known, cond) && GoodExpr(known, loop.over)
    ensures ParseTemplate(known, Crossed(cond, loop, text)) == Ok(b)
    ensures b.arena.blocks == [[IfItem(0)], [ForItem(0), TextItem(text)], [], []]
    ensures |b.arena.ifs| == 1 && b.arena.ifs[0].yes == 1
    ensures |b.arena.fors| == 1 && b.arena.fors[0].body == 3
  {
    var b1, b2, b3, b4;
    b1, b2, b3, b4, b := CrossedStates(cond, loop, text);
    CrossedRun(known, cond, loop, text, b1, b2, b3, b4, b);
  }

  lemma {:induction false} CrossedRun(
    known: E.Library, cond: Node, loop: Stmt, text: string, b1: Build, b2: Build, b3: Build, b4: Build, b: Build)
    requires loop.For? && GoodExpr(known, cond) && GoodExpr(known, loop.over)
    requires b1 == OpenIf(START, Some(cond), false) && Valid(b1)
    requires b2 == OpenFor(b1, loop.key, loop.value, Some(loop.over)) && Valid(b2) && b2.ifStack != []
    requires CloseIf(b2) == Ok(b3) && Valid(b3) && b3.forStack != []
    requires b4 == CloseFor(b3) && Valid(b4)
    requires b == AddItem(b4, TextItem(text)) && Valid(b) && Finish(b) == Ok(b)
    ensures ParseTemplate(known, Crossed(cond, loop, text)) == Ok(b)
  {
    var toks := Crossed(cond, loop, text);
    var i, j, k, l := CrossedLayout(toks, cond, loop, text);
    TurnIf(known, toks, 0, cond, START, i);
    TurnFor(known, toks, i, loop, b1, j);
    LeadsOn(known, toks, 0, START, i, b1, j, b2);
    CrossedClosers(known, toks, j, k, l, text, b2, b3, b4, b);
    LeadsOn(known, toks, 0, START, j, b2, l + 1, b);
    LeadsToTheEnd(known, toks, b);
  }

  lemma {:induction false} CrossedClosers(
    known: E.Library, toks: seq<Token>, j: nat, k: nat, l: nat, text: string, b2: Build, b3: Build, b4: Build, b: Build)
    requires R.At(toks, j, Tag(Word("endif"))) && k == j + |Tag(Word("endif"))|
    requires R.At(toks, k, Tag(Word("endfor"))) && l == k + |Tag(Word("endfor"))|
    requires l < |toks| && toks[l] == E.Text(text)
    requires Valid(b2) && b2.ifStack != [] && CloseIf(b2) == Ok(b3)
    requires Valid(b3) && b3.forStack != [] && b4 == CloseFor(b3)
    requires Valid(b4) && b == AddItem(b4, TextItem(text))
    ensures LeadsTo(known, toks, j, b2, l + 1, b)
  {
    TurnEndif(known, toks, j, b2);
    TurnEndfor(known, toks, k, b3);
    LeadsOn(known, toks, j, b2, k, b3, l, b4);
    TurnText(known, toks, l, text, b4);
    LeadsOn(known, toks, j, b2, l, b4, l + 1, b);
  }

  lemma {:induction false} CrossedStates(cond: Node, loop: Stmt, text: string)
    returns (b1: Build, b2: Build, b3: Build, b4: Build, b: Build)
    requires loop.For?
    ensures b1 == OpenIf(START, Some(cond), false) && Valid(b1)
    ensures b2 == OpenFor(b1, loop.key, loop.value, Some(loop.over)) && Valid(b2) && b2.ifStack != []
    ensures CloseIf(b2) == Ok(b3) && Valid(b3) && b3.forStack != []
    ensures b4 == CloseFor(b3) && Valid(b4)
    ensures b == AddItem(b4, TextItem(text)) && Valid(b) && Finish(b) == Ok(b)
    ensures b.arena.blocks == [[IfItem(0)], [ForItem(0), TextItem(text)], [], []]
    ensures |b.arena.ifs| == 1 && b.arena.ifs[0].yes == 1
    ensures |b.arena.fors| == 1 && b.arena.fors[0].body == 3
  {
    b1 := CrossedIf(cond);
    b2 := CrossedFor(cond, loop, b1);
    b3 := CrossedEndif(b2);
    b4 := b3.(current := 1, forStack := []);
    b := CrossedText(b4, text);
  }

  lemma {:induction false} CrossedEndif(b: Build) returns (c: Build)
    requires Valid(b) && b.ifStack == [0] && b.arena.ifs != [] && !b.arena.ifs[0].nested && b.arena.ifs[0].parent == 0
    ensures c == b.(current := 0, ifStack := []) && CloseIf(b) == Ok(c) && Valid(c)
  {
    assert PopNested(b.arena.ifs, b.ifStack) == [0];
    c := b.(current := 0, ifStack := []);
  }

  lemma {:induction false} CrossedText(b: Build, text: string) returns (c: Build)
    requires Valid(b) && b.current == 1 && b.arena.blocks == [[IfItem(0)], [ForItem(0)], [], []]
    ensures c == AddItem(b, TextItem(text)) && Valid(c)
    ensures c.arena.blocks == [[IfItem(0)], [ForItem(0), TextItem(text)], [], []]
    ensures c.arena.ifs == b.arena.ifs && c.arena.fors == b.arena.fors
  {
    c := AddItem(b, TextItem(text));
    assert b.arena.blocks[1] + [TextItem(text)] == [ForItem(0), TextItem(text)];
  }

  lemma {:induction false} CrossedIf(cond: Node) returns (b: Build)
    ensures b == OpenIf(START, Some(cond), false) && Valid(b)
    ensures b == Build(Arena([[IfItem(0)], [], []], [IfNode(Some(cond), 1, 2, false, 0, false)], []), 1, [0], [])
  {
    b := OpenIf(START, Some(cond), false);
    assert START.arena.blocks[0] + [IfItem(0)] == [IfItem(0)];
    assert b.arena.blocks == [[IfItem(0)], [], []];
  }

  lemma {:induction false} CrossedFor(cond: Node, loop: Stmt, b: Build) returns (c: Build)
    requires loop.For?
    requires b == Build(Arena([[IfItem(0)], [], []], [IfNode(Some(cond), 1, 2, false, 0, false)], []), 1, [0], [])
    ensures c == OpenFor(b, loop.key, loop.value, Some(loop.over)) && Valid(c)
    ensures c == Build(Arena([[IfItem(0)], [ForItem(0)], [], []], b.arena.ifs,
                             [ForNode(loop.key, loop.value, Some(loop.over), 3, 1)]), 3, [0], [0])
  {
    c := OpenFor(b, loop.key, loop.value, Some(loop.over));
    assert b.arena.blocks[1] + [ForItem(0)] == [ForItem(0)];
    assert c.arena.blocks == [[IfItem(0)], [ForItem(0)], [], []];
  }

  lemma {:induction false} CrossedLayout(toks: seq<Token>, cond: Node, loop: Stmt, text: string)
    returns (i: nat, j: nat, k: nat, l: nat)
    requires loop.For? && R.Proper(cond) && R.Proper(loop.over) && toks == Crossed(cond, loop, text)
    ensures var tag := Tag(Word("if") + R.Print(cond)); R.At(toks, 0, tag) && i == |tag|
    ensures R.At(toks, i, ForTag(loop)) && j == i + |ForTag(loop)|
    ensures R.At(toks, j, Tag(Word("endif"))) && k == j + |Tag(Word("endif"))|
    ensures R.At(toks, k, Tag(Word("endfor"))) && l == k + |Tag(Word("endfor"))|
    ensures |toks| == l + 1 && toks[l] == E.Text(text)
  {
    var a, b, c, d := Tag(Word("if") + R.Print(cond)), ForTag(loop), Tag(Word("endif")), Tag(Word("endfor"));
    FourParts(toks, a, b, c, d, E.Text(text));
    i, j, k, l := |a|, |a| + |b|, |a| + |b| + |c|, |a| + |b| + |c| + |d|;
  }

  lemma {:induction false} FourParts(
    toks: seq<Token>, a: seq<Token>, b: seq<Token>, c: seq<Token>, d: seq<Token>, last: Token)
    requires toks == a + b + c + d + [last]
    ensures R.At(toks, 0, a) && R.At(toks, |a|, b) && R.At(toks, |a| + |b|, c) && R.At(toks, |a| + |b| + |c|, d)
    ensures |toks| == |a| + |b| + |c| + |d| + 1 && toks[|toks| - 1] == last
  {
    assert toks[0..|toks|] == a + b + c + d + [last];
    R.AtSplit(toks, 0, a + b + c + d, [last]);
    R.AtSplit(toks, 0, a + b + c, d);
    R.AtSplit(toks, 0, a + b, c);
    R.AtSplit(toks, 0, a, b);
  }
}
