/** The same parser as the code runs it: one loop over the tokens, with the stacks updated in place. */
module InjaExpressionParser {
  import opened Wrappers
  import opened InjaExpression

  method CloseOperators(s: Stacks, next: Option<Op>) returns (r: Result<Stacks, Error>)
    ensures r == Reduce(s, next)
  {
    var now := s;
    while now.ops != [] && Pops(now.ops[|now.ops| - 1], next)
      invariant Reduce(s, next) == Reduce(now, next)
      decreases |now.ops|
    {
      var added := AddOperator(now);
      if added.Err? {
        return added;
      }
      now := added.value;
    }
    r := Ok(now);
  }

  method ParseArguments(known: Library, toks: seq<Token>, start: nat, given: seq<Node>) returns (r: Arguments)
    requires start <= |toks|
    ensures r == CallArguments(known, toks, start, given)
    decreases |toks| - start, 2
  {
    var i, args := start, given;
    var e := ParseExpression(known, toks, i);
    while e.Found? && e.node.Some? && Tok(toks, e.next).Comma?
      invariant start <= i <= |toks| && e == Parse(known, toks, i)
      invariant CallArguments(known, toks, start, given) == CallArguments(known, toks, i, args)
      decreases |toks| - i
    {
      i, args := e.next + 1, args + [e.node.value];
      e := ParseExpression(known, toks, i);
    }
    if e.Failed? {
      return Refused(e.error);
    }
    if !Tok(toks, e.next).RightParen? {
      return Refused(ExpectedRightParen);
    }
    r := Arguments(args + (if e.node.Some? then [e.node.value] else []), e.next);
  }

  method ParseCompound(known: Library, toks: seq<Token>, i: nat, s: Stacks) returns (r: Operand)
    requires i < |toks| && IsCompound(toks, i)
    ensures r == Compound(known, toks, i, s)
    decreases |toks| - i, 0
  {
    if toks[i].LeftParen? {
      var e := ParseExpression(known, toks, i + 1);
      if e.Failed? {
        return Rejected(e.error);
      }
      if !Tok(toks, e.next).RightParen? {
        return Rejected(ExpectedRightParen);
      }
      if e.node.None? {
        return Rejected(EmptyParentheses);
      }
      return Operand(Push(s, e.node.value), e.next + 1);
    }
    var name, a, rest := "", Arguments([], i), s;
    if toks[i].Id? {
      name := toks[i].text;
      a := ParseArguments(known, toks, i + 2, []);
    } else {
      if !Tok(toks, i + 1).Id? {
        return Rejected(ExpectedFunctionName);
      }
      if s.args == [] {
        return Rejected(NoPipeOperand);
      }
      name := toks[i + 1].text;
      a := Arguments([s.args[|s.args| - 1]], i + 1);
      rest := s.(args := s.args[..|s.args| - 1]);
      if Tok(toks, i + 2).LeftParen? {
        a := ParseArguments(known, toks, i + 3, a.args);
      }
    }
    r := PushCall(known, rest, name, a);
  }

  method ParseExpression(known: Library, toks: seq<Token>, start: nat) returns (r: Parsed)
    requires start <= |toks|
    ensures r == Parse(known, toks, start)
    decreases |toks| - start, 1
  {
    var i, s, l := start, Stacks([], []), FLAT;
    while i < |toks| && !toks[i].Eof?
      invariant start <= i <= |toks| && l.start <= i
      invariant Parse(known, toks, start) == Loop(known, toks, i, s, l)
      decreases |toks| - i
    {
      var t := toks[i];
      if t.StringLit? || t.NumberLit? || (t.Id? && IsConstant(t.text)) {
        if Flat(l) {
          s := Push(s, Literal([t]));
        }
        i := i + 1;
      } else if t.LeftBracket? || t.LeftBrace? {
        l := Opened(l, i, t.LeftBracket?);
        i := i + 1;
      } else if t.RightBracket? && l.bracket == 0 {
        return Failed(UnexpectedBracket);
      } else if t.RightBrace? && l.brace == 0 {
        return Failed(UnexpectedBrace);
      } else if t.RightBracket? || t.RightBrace? {
        var from := l.start;
        l := Closed(l, t.RightBracket?);
        if Flat(l) {
          s, l := Push(s, Literal(toks[from..i + 1])), FLAT;
        }
        i := i + 1;
      } else if OperatorOf(t).Some? {
        var closed := CloseOperators(s, OperatorOf(t));
        if closed.Err? {
          return Failed(closed.error);
        }
        s := closed.value.(ops := closed.value.ops + [OperatorOf(t).value]);
        i := i + 1;
      } else if IsCompound(toks, i) {
        var c := ParseCompound(known, toks, i, s);
        if c.Rejected? {
          return Failed(c.error);
        }
        s, i := c.s, c.next;
      } else if t.Id? {
        s, i := Push(s, Data(t.text)), i + 1;
      } else if (t.Comma? || t.Colon?) && !Flat(l) {
        i := i + 1;
      } else if t.Colon? {
        return Failed(UnexpectedColon);
      } else {
        break;
      }
    }
    r := ConcludeExpression(s, i);
  }

  /** After the loop: close all operators; one operand, or none, must be left. */
  method ConcludeExpression(s: Stacks, i: nat) returns (r: Parsed)
    ensures r == Conclude(s, i)
  {
    var closed := CloseOperators(s, None);
    if closed.Err? {
      return Failed(closed.error);
    }
    if |closed.value.args| == 0 {
      return Found(None, i);
    }
    if |closed.value.args| == 1 {
      return Found(Some(closed.value.args[0]), i);
    }
    r := Failed(MalformedExpression);
  }
}
