/** The statement parser as an object that updates its stacks, its current block and its position in place. */
module InjaStatementParser {
  import opened Wrappers
  import opened InjaStatements
  import E = InjaExpression
  import EP = InjaExpressionParser

  class TemplateParser {
    const known: E.Library
    const toks: seq<Token>
    var pos: nat
    var arena: Arena
    var current: nat
    var ifStack: seq<nat>
    var forStack: seq<nat>

    ghost function Model(): Build
      reads this
    {
      Build(arena, current, ifStack, forStack)
    }

    ghost predicate Ready()
      reads this
    {
      pos <= |toks| && Valid(Model())
    }

    /** What a step of the model says happened to this object. */
    ghost predicate Follows(p: Progress, err: Option<Error>)
      reads this
    {
      if p.Stopped? then err == Some(p.error) else err == None && Model() == p.b && pos == p.next
    }

    constructor (known: E.Library, toks: seq<Token>)
      ensures this.known == known && this.toks == toks && pos == 0 && Model() == START && Ready()
    {
      this.known, this.toks, pos := known, toks, 0;
      arena, current, ifStack, forStack := Arena([[]], [], []), 0, [], [];
    }

    method Add(item: Item)
      requires Ready()
      modifies this`arena
      ensures Model() == AddItem(old(Model()), item)
    {
      arena := arena.(blocks := arena.blocks[current := arena.blocks[current] + [item]]);
    }

    /** endif: leave the `else if` statements on top, then the if they belong to. */
    method CloseOpenIf() returns (err: Option<Error>)
      requires Ready() && ifStack != []
      modifies this`current, this`ifStack
      ensures err == match CloseIf(old(Model())) case Err(e) => Some(e) case Ok(_) => None
      ensures err.None? ==> Ok(Model()) == CloseIf(old(Model()))
    {
      while ifStack != [] && arena.ifs[ifStack[|ifStack| - 1]].nested
        invariant PopNested(arena.ifs, old(ifStack)) == PopNested(arena.ifs, ifStack)
        invariant ifStack <= old(ifStack) && current == old(current)
        decreases |ifStack|
      {
        ifStack := ifStack[..|ifStack| - 1];
      }
      if ifStack == [] {
        return Some(EmptyStackInspected);
      }
      current := arena.ifs[ifStack[|ifStack| - 1]].parent;
      ifStack := ifStack[..|ifStack| - 1];
      err := None;
    }

    /** An expression that must end in `closing`; on success `pos` stands on that token. */
    method ReadExpression(closing: Token) returns (root: Option<Node>, err: Option<Error>)
      requires Ready()
      modifies this`pos
      ensures var e := ClosedExpression(known, toks, old(pos), closing);
              if e.Failed? then err == Some(ExpressionError(known, toks, old(pos), closing))
              else err == None && root == e.node && pos == e.next
    {
      var e := EP.ParseExpression(known, toks, pos);
      root := None;
      if e.Failed? {
        return root, Some(InExpression(e.error));
      }
      if e.next >= |toks| || toks[e.next] != closing {
        return root, Some(WrongEnd(closing));
      }
      root, pos, err := e.node, e.next, None;
    }

    method StartIf(closing: Token, nested: bool) returns (err: Option<Error>)
      requires Ready()
      modifies this
      ensures Follows(IfStatement(known, toks, old(pos), old(Model()), closing, nested), err)
    {
      var root, e := ReadExpression(closing);
      if e.Some? {
        return e;
      }
      var parent, id, n := current, |arena.ifs|, |arena.blocks|;
      Add(IfItem(id));
      arena := Arena(arena.blocks + [[], []], arena.ifs + [IfNode(root, n, n + 1, false, parent, nested)], arena.fors);
      ifStack, current, err := ifStack + [id], n, None;
    }

    method StartElse(closing: Token) returns (err: Option<Error>)
      requires Ready() && pos < |toks|
      modifies this
      ensures Follows(ElseStatement(known, toks, old(pos), old(Model()), closing), err)
    {
      if ifStack == [] {
        return Some(ElseWithoutIf);
      }
      var id := ifStack[|ifStack| - 1];
      arena := arena.(ifs := arena.ifs[id := arena.ifs[id].(hasElse := true)]);
      current, pos, err := arena.ifs[id].no, pos + 1, None;
      if IsWord(E.Tok(toks, pos), "if") {
        pos := pos + 1;
        err := StartIf(closing, true);
      }
    }

    method StartFor(closing: Token) returns (err: Option<Error>)
      requires Ready() && pos < |toks|
      modifies this
      ensures Follows(ForStatement(known, toks, old(pos), old(Model()), closing), err)
    {
      if !E.Tok(toks, pos + 1).Id? {
        return Some(ExpectedId);
      }
      var key, value := None, toks[pos + 1].text;
      pos := pos + 2;
      if E.Tok(toks, pos).Comma? {
        if !E.Tok(toks, pos + 1).Id? {
          return Some(ExpectedId);
        }
        key, value := Some(value), toks[pos + 1].text;
        pos := pos + 2;
      }
      if !IsWord(E.Tok(toks, pos), "in") {
        return Some(ExpectedIn);
      }
      pos := pos + 1;
      var root, e := ReadExpression(closing);
      if e.Some? {
        return e;
      }
      EnterFor(key, value, root);
      err := None;
    }

    method EnterFor(key: Option<string>, value: string, root: Option<Node>)
      requires Ready()
      modifies this`arena, this`current, this`forStack
      ensures Model() == OpenFor(old(Model()), key, value, root)
    {
      var parent, id, n := current, |arena.fors|, |arena.blocks|;
      Add(ForItem(id));
      arena := Arena(arena.blocks + [[]], arena.ifs, arena.fors + [ForNode(key, value, root, n, parent)]);
      forStack, current := forStack + [id], n;
    }

    method DoSet(closing: Token) returns (err: Option<Error>)
      requires Ready() && pos < |toks|
      modifies this
      ensures Follows(SetStatement(known, toks, old(pos), old(Model()), closing), err)
    {
      if !E.Tok(toks, pos + 1).Id? {
        return Some(ExpectedId);
      }
      var key := toks[pos + 1].text;
      if !E.Tok(toks, pos + 2).Assign? {
        return Some(ExpectedAssign);
      }
      pos := pos + 3;
      var root, e := ReadExpression(closing);
      if e.Some? {
        return e;
      }
      Add(SetItem(key, root));
      err := None;
    }

    method ParseStatement(closing: Token) returns (err: Option<Error>)
      requires Ready()
      modifies this
      ensures Follows(Statement(known, toks, old(pos), old(Model()), closing), err)
    {
      var t := E.Tok(toks, pos);
      if IsWord(t, "if") {
        pos := pos + 1;
        err := StartIf(closing, false);
      } else if IsWord(t, "else") {
        err := StartElse(closing);
      } else if IsWord(t, "endif") {
        if ifStack == [] {
          return Some(EndifWithoutIf);
        }
        err := CloseOpenIf();
        pos := pos + 1;
      } else if IsWord(t, "for") {
        err := StartFor(closing);
      } else if IsWord(t, "endfor") {
        if forStack == [] {
          return Some(EndforWithoutFor);
        }
        current := arena.fors[forStack[|forStack| - 1]].parent;
        forStack, pos, err := forStack[..|forStack| - 1], pos + 1, None;
      } else if IsWord(t, "set") {
        err := DoSet(closing);
      } else {
        err := Some(ExpectedStatement);
      }
    }

    /** One token of the template, with everything that belongs to it. */
    method ParseTurn() returns (err: Option<Error>)
      requires Ready() && !AtEnd(toks, pos)
      modifies this
      ensures Follows(Turn(known, toks, old(pos), old(Model())), err)
    {
      var t := toks[pos];
      pos := pos + 1;
      err := None;
      if t.Text? {
        Add(TextItem(t.text));
      } else if t.StatementOpen? || t.LineStatementOpen? {
        var closing := if t.StatementOpen? then E.StatementClose else E.LineStatementClose;
        err := ParseStatement(closing);
        if err.Some? {
          return;
        }
        if E.Tok(toks, pos) == closing {
          pos := pos + 1;
        } else if !(t.LineStatementOpen? && AtEnd(toks, pos)) {
          err := Some(ExpectedClose);
        }
      } else if t.ExpressionOpen? {
        var root, e := ReadExpression(E.ExpressionClose);
        if e.Some? {
          return e;
        }
        Add(OutputItem(root));
        pos := pos + 1;
      } else if t.CommentOpen? {
        if !E.Tok(toks, pos).CommentClose? {
          return Some(ExpectedClose);
        }
        pos := pos + 1;
      } else {
        err := Some(UnexpectedToken);
      }
    }

    method ParseInto() returns (err: Option<Error>)
      requires Ready() && pos == 0 && Model() == START
      modifies this
      ensures match ParseTemplate(known, toks)
              case Err(e) => err == Some(e)
              case Ok(b) => err == None && Model() == b
    {
      while !AtEnd(toks, pos)
        invariant Ready() && Run(known, toks, pos, Model()) == ParseTemplate(known, toks)
        decreases |toks| - pos
      {
        TurnValid(known, toks, pos, Model());
        err := ParseTurn();
        if err.Some? {
          return;
        }
      }
      if ifStack != [] {
        return Some(UnmatchedIf);
      }
      if forStack != [] {
        return Some(UnmatchedFor);
      }
      err := None;
    }
  }
}
