/** What every parsed expression is like, whatever the tokens were. */
module InjaExpressionShape {
  import opened Wrappers
  import opened InjaExpression

  /** Operators have their number of operands, functions exist, and no keyword is taken for a variable. */
  predicate Sound(known: Library, n: Node) {
    match n
    case Literal(tokens) => tokens != []
    case Data(name) => !IsKeyword(name)
    case Apply(op, args) => |args| == Arity(op) && forall i | 0 <= i < |args| :: Sound(known, args[i])
    case Call(name, args) => known(name, |args|) && forall i | 0 <= i < |args| :: Sound(known, args[i])
  }

  predicate AllSound(known: Library, ns: seq<Node>) {
    forall i | 0 <= i < |ns| :: Sound(known, ns[i])
  }

  lemma {:induction false} AddOperatorSound(known: Library, s: Stacks)
    requires s.ops != [] && AllSound(known, s.args)
    ensures AddOperator(s).Ok? ==> AllSound(known, AddOperator(s).value.args)
  {
  }

  lemma {:induction false} ReduceSound(known: Library, s: Stacks, next: Option<Op>)
    requires AllSound(known, s.args)
    ensures Reduce(s, next).Ok? ==> AllSound(known, Reduce(s, next).value.args)
    decreases |s.ops|
  {
    if s.ops != [] && Pops(s.ops[|s.ops| - 1], next) && AddOperator(s).Ok? {
      AddOperatorSound(known, s);
      ReduceSound(known, AddOperator(s).value, next);
    }
  }

  predicate SoundParse(known: Library, r: Parsed) {
    r.Found? && r.node.Some? ==> Sound(known, r.node.value)
  }

  predicate SoundOperand(known: Library, r: Operand) {
    r.Operand? ==> AllSound(known, r.s.args)
  }

  predicate SoundArguments(known: Library, r: Arguments) {
    r.Arguments? ==> AllSound(known, r.args)
  }

  lemma {:induction false} ConcludeSound(known: Library, s: Stacks, i: nat)
    requires AllSound(known, s.args)
    ensures SoundParse(known, Conclude(s, i))
  {
    ReduceSound(known, s, None);
  }

  lemma {:induction false} PushSound(known: Library, s: Stacks, n: Node)
    requires AllSound(known, s.args) && Sound(known, n)
    ensures AllSound(known, Push(s, n).args)
  {
  }

  lemma {:induction false} PushCallSound(known: Library, s: Stacks, name: string, a: Arguments)
    requires AllSound(known, s.args) && SoundArguments(known, a)
    ensures SoundOperand(known, PushCall(known, s, name, a))
  {
    if a.Arguments? && known(name, |a.args|) {
      PushSound(known, s, Call(name, a.args));
    }
  }

  lemma {:induction false} CompoundSound(known: Library, toks: seq<Token>, i: nat, s: Stacks)
    requires i < |toks| && IsCompound(toks, i) && AllSound(known, s.args)
    ensures SoundOperand(known, Compound(known, toks, i, s))
    decreases |toks| - i, 0
  {
    if toks[i].LeftParen? {
      var e := Loop(known, toks, i + 1, Stacks([], []), FLAT);
      LoopSound(known, toks, i + 1, Stacks([], []), FLAT);
      if e.Found? && e.node.Some? {
        PushSound(known, s, e.node.value);
      }
    } else if toks[i].Id? {
      ArgumentsSound(known, toks, i + 2, []);
      PushCallSound(known, s, toks[i].text, CallArguments(known, toks, i + 2, []));
    } else if Tok(toks, i + 1).Id? && s.args != [] {
      PipeSound(known, toks, i, s);
    }
  }

  lemma {:induction false} PipeSound(known: Library, toks: seq<Token>, i: nat, s: Stacks)
    requires i < |toks| && toks[i].Pipe? && AllSound(known, s.args)
    requires Tok(toks, i + 1).Id? && s.args != []
    ensures SoundOperand(known, Compound(known, toks, i, s))
    decreases |toks| - i - 1, 3
  {
    var k := |s.args| - 1;
    var first := s.args[k];
    var rest := s.(args := s.args[..k]);
    if Tok(toks, i + 2).LeftParen? {
      ArgumentsSound(known, toks, i + 3, [first]);
      PushCallSound(known, rest, toks[i + 1].text, CallArguments(known, toks, i + 3, [first]));
    } else {
      PushCallSound(known, rest, toks[i + 1].text, Arguments([first], i + 1));
    }
  }

  lemma {:induction false} ArgumentsSound(known: Library, toks: seq<Token>, i: nat, args: seq<Node>)
    requires i <= |toks| && AllSound(known, args)
    ensures SoundArguments(known, CallArguments(known, toks, i, args))
    decreases |toks| - i, 2
  {
    var e := Loop(known, toks, i, Stacks([], []), FLAT);
    LoopSound(known, toks, i, Stacks([], []), FLAT);
    if e.Found? && e.node.Some? && Tok(toks, e.next).Comma? {
      ArgumentsSound(known, toks, e.next + 1, args + [e.node.value]);
    }
  }

  lemma {:induction false} LoopSound(known: Library, toks: seq<Token>, i: nat, s: Stacks, l: Levels)
    requires i <= |toks| && l.start <= i && AllSound(known, s.args) && (Flat(l) || l.start < i)
    ensures SoundParse(known, Loop(known, toks, i, s, l))
    decreases |toks| - i, 1
  {
    if i == |toks| || toks[i].Eof? {
      ConcludeSound(known, s, i);
    } else {
      var t := toks[i];
      if t.StringLit? || t.NumberLit? || (t.Id? && IsConstant(t.text)) {
        PushSound(known, s, Literal([t]));
        LoopSound(known, toks, i + 1, if Flat(l) then Push(s, Literal([t])) else s, l);
      } else if t.LeftBracket? || t.LeftBrace? || t.RightBracket? || t.RightBrace? {
        BracketSound(known, toks, i, s, l);
      } else if OperatorOf(t).Some? {
        var r := Reduce(s, OperatorOf(t));
        ReduceSound(known, s, OperatorOf(t));
        if r.Ok? {
          LoopSound(known, toks, i + 1, r.value.(ops := r.value.ops + [OperatorOf(t).value]), l);
        }
      } else if IsCompound(toks, i) {
        var c := Compound(known, toks, i, s);
        CompoundSound(known, toks, i, s);
        if c.Operand? {
          LoopSound(known, toks, c.next, c.s, l);
        }
      } else if t.Id? {
        PushSound(known, s, Data(t.text));
        LoopSound(known, toks, i + 1, Push(s, Data(t.text)), l);
      } else if (t.Comma? || t.Colon?) && !Flat(l) {
        LoopSound(known, toks, i + 1, s, l);
      } else if !t.Colon? {
        ConcludeSound(known, s, i);
      }
    }
  }

  lemma {:induction false} BracketSound(known: Library, toks: seq<Token>, i: nat, s: Stacks, l: Levels)
    requires i < |toks| && l.start <= i && AllSound(known, s.args) && (Flat(l) || l.start < i)
    requires var t := toks[i]; t.LeftBracket? || t.LeftBrace? || t.RightBracket? || t.RightBrace?
    ensures SoundParse(known, Loop(known, toks, i, s, l))
    decreases |toks| - i, 0
  {
    var t := toks[i];
    if t.LeftBracket? || t.LeftBrace? {
      LoopSound(known, toks, i + 1, s, Opened(l, i, t.LeftBracket?));
    } else if (t.RightBracket? && l.bracket > 0) || (t.RightBrace? && l.brace > 0) {
      var m := Closed(l, t.RightBracket?);
      PushSound(known, s, Literal(toks[l.start..i + 1]));
      if Flat(m) {
        LoopSound(known, toks, i + 1, Push(s, Literal(toks[l.start..i + 1])), FLAT);
      } else {
        LoopSound(known, toks, i + 1, s, m);
      }
    }
  }

  /** Whatever the tokens, an expression that is returned is sound. */
  lemma {:induction false} ParsedIsSound(known: Library, toks: seq<Token>, i: nat)
    requires i <= |toks| && Parse(known, toks, i).Found? && Parse(known, toks, i).node.Some?
    ensures Sound(known, Parse(known, toks, i).node.value)
  {
    LoopSound(known, toks, i, Stacks([], []), FLAT);
  }
}
