/**
Which templates the statement parser takes, said without its stacks: only the sequence
of tags counts. The if tags and the for tags must each balance on their own; that they
also nest in each other is never asked.
*/
module InjaStatementTags {
  import opened Wrappers
  import opened InjaStatements
  import E = InjaExpression
  import S = InjaStatementRoundTrip

  /** What a turn of the parser reads, as far as nesting is concerned. */
  datatype Tag = Plain | IfTag | ElseTag | ElseIfTag | EndifTag | ForTag | EndforTag

  datatype Reading = Read(tag: Tag, next: nat) | Unreadable

  function ReadExpression(known: E.Library, toks: seq<Token>, i: nat, closing: Token, tag: Tag): Reading
    requires i <= |toks|
  {
    var e := ClosedExpression(known, toks, i, closing);
    if e.Found? then Read(tag, e.next) else Unreadable
  }

  function ReadFor(known: E.Library, toks: seq<Token>, i: nat, closing: Token): Reading
    requires i < |toks|
  {
    var j := if E.Tok(toks, i + 2).Comma? then i + 4 else i + 2;
    if !E.Tok(toks, i + 1).Id? || !E.Tok(toks, j - 1).Id? || !IsWord(E.Tok(toks, j), "in") then Unreadable
    else ReadExpression(known, toks, j + 1, closing, ForTag)
  }

  function ReadStatement(known: E.Library, toks: seq<Token>, i: nat, closing: Token): Reading
    requires i <= |toks|
  {
    var t := E.Tok(toks, i);
    if IsWord(t, "if") then ReadExpression(known, toks, i + 1, closing, IfTag)
    else if IsWord(t, "else") then
      if IsWord(E.Tok(toks, i + 1), "if") then
        ReadExpression(known, toks, i + 2, closing, ElseIfTag)
      else Read(ElseTag, i + 1)
    else if IsWord(t, "endif") then Read(EndifTag, i + 1)
    else if IsWord(t, "for") then ReadFor(known, toks, i, closing)
    else if IsWord(t, "endfor") then Read(EndforTag, i + 1)
    else if IsWord(t, "set") && E.Tok(toks, i + 1).Id? && E.Tok(toks, i + 2).Assign? then
      ReadExpression(known, toks, i + 3, closing, Plain)
    else Unreadable
  }

  /** The tag at token `i`, and where the next one starts. */
  function TagAt(known: E.Library, toks: seq<Token>, i: nat): (r: Reading)
    requires i <= |toks| && !AtEnd(toks, i)
    ensures r.Read? ==> i < r.next <= |toks|
  {
    var t := toks[i];
    if t.Text? then Read(Plain, i + 1)
    else if t.StatementOpen? || t.LineStatementOpen? then
      var closing := if t.StatementOpen? then E.StatementClose else E.LineStatementClose;
      var r := ReadStatement(known, toks, i + 1, closing);
      if r.Unreadable? then r
      else if E.Tok(toks, r.next) == closing then Read(r.tag, r.next + 1)
      else if t.LineStatementOpen? && AtEnd(toks, r.next) then r
      else Unreadable
    else if t.ExpressionOpen? then
      var e := ClosedExpression(known, toks, i + 1, E.ExpressionClose);
      if e.Found? then Read(Plain, e.next + 1) else Unreadable
    else if t.CommentOpen? && E.Tok(toks, i + 1).CommentClose? then Read(Plain, i + 2)
    else Unreadable
  }

  /** All tags from token `i` on, if every one can be read. */
  function TagsFrom(known: E.Library, toks: seq<Token>, i: nat): Option<seq<Tag>>
    requires i <= |toks|
    decreases |toks| - i
  {
    if AtEnd(toks, i) then Some([])
    else
      var r := TagAt(known, toks, i);
      if r.Unreadable? then None
      else
        var rest := TagsFrom(known, toks, r.next);
        if rest.None? then None else Some([r.tag] + rest.value)
  }

  // ---------------------------------------------------------------------- balance

  predicate NeedsIf(t: Tag) {
    t.ElseTag? || t.ElseIfTag? || t.EndifTag?
  }

  /** Every else and endif has an if open, and none is open at the end; for tags do not matter. */
  predicate IfsBalanced(tags: seq<Tag>, depth: nat) {
    if tags == [] then depth == 0
    else
      && (NeedsIf(tags[0]) ==> depth > 0)
      && IfsBalanced(tags[1..], if tags[0].IfTag? then depth + 1
                                else if tags[0].EndifTag? && depth > 0 then depth - 1 else depth)
  }

  /** The same for the for tags; if tags do not matter. */
  predicate ForsBalanced(tags: seq<Tag>, depth: nat) {
    if tags == [] then depth == 0
    else
      && (tags[0].EndforTag? ==> depth > 0)
      && ForsBalanced(tags[1..], if tags[0].ForTag? then depth + 1
                                 else if tags[0].EndforTag? && depth > 0 then depth - 1 else depth)
  }

  // -------------------------------------------------------------------- the stacks

  /** The ifs open that are no `else if`. */
  function OpenIfs(ifs: seq<IfNode>, stack: seq<nat>): nat {
    if stack == [] then 0
    else
      var top := stack[|stack| - 1];
      OpenIfs(ifs, stack[..|stack| - 1]) + if top < |ifs| && !ifs[top].nested then 1 else 0
  }

  lemma {:induction false} OpenIfsSame(ifs: seq<IfNode>, more: seq<IfNode>, stack: seq<nat>)
    requires |ifs| <= |more| && forall i | 0 <= i < |ifs| :: more[i].nested == ifs[i].nested
    requires forall i | 0 <= i < |stack| :: stack[i] < |ifs|
    ensures OpenIfs(more, stack) == OpenIfs(ifs, stack)
    decreases |stack|
  {
    if stack != [] {
      OpenIfsSame(ifs, more, stack[..|stack| - 1]);
    }
  }

  lemma {:induction false} SomeIfOpen(ifs: seq<IfNode>, stack: seq<nat>)
    requires stack != [] && stack[0] < |ifs| && !ifs[stack[0]].nested
    ensures OpenIfs(ifs, stack) > 0
    decreases |stack|
  {
    if |stack| > 1 {
      SomeIfOpen(ifs, stack[..|stack| - 1]);
    } else {
      assert stack[..0] == [];
    }
  }

  lemma {:induction false} OpenIfsPop(ifs: seq<IfNode>, stack: seq<nat>)
    requires stack != [] && (forall i | 0 <= i < |stack| :: stack[i] < |ifs|) && !ifs[stack[0]].nested
    ensures var p := PopNested(ifs, stack); p != [] && OpenIfs(ifs, p[..|p| - 1]) + 1 == OpenIfs(ifs, stack)
    decreases |stack|
  {
    if ifs[stack[|stack| - 1]].nested {
      OpenIfsPop(ifs, stack[..|stack| - 1]);
    }
  }

  datatype Depth = Depth(ifs: nat, fors: nat)

  function DepthOf(b: Build): Depth {
    Depth(OpenIfs(b.arena.ifs, b.ifStack), |b.forStack|)
  }

  predicate Fits(t: Tag, d: Depth) {
    (NeedsIf(t) ==> d.ifs > 0) && (t.EndforTag? ==> d.fors > 0)
  }

  function Deeper(t: Tag, d: Depth): Depth {
    match t
    case IfTag => d.(ifs := d.ifs + 1)
    case EndifTag => if d.ifs > 0 then d.(ifs := d.ifs - 1) else d
    case ForTag => d.(fors := d.fors + 1)
    case EndforTag => if d.fors > 0 then d.(fors := d.fors - 1) else d
    case _ => d
  }

  lemma {:induction false} GroundedDepth(b: Build)
    requires S.Grounded(b)
    ensures b.ifStack != [] <==> DepthOf(b).ifs > 0
  {
    if b.ifStack != [] {
      SomeIfOpen(b.arena.ifs, b.ifStack);
    }
  }

  lemma {:induction false} OpenIfDepth(b: Build, cond: Option<Node>, nested: bool)
    requires Valid(b)
    ensures DepthOf(OpenIf(b, cond, nested)) == if nested then DepthOf(b) else Deeper(IfTag, DepthOf(b))
  {
    var c := OpenIf(b, cond, nested);
    OpenIfsSame(b.arena.ifs, c.arena.ifs, b.ifStack);
    assert c.ifStack[..|b.ifStack|] == b.ifStack;
  }

  lemma {:induction false} EnterElseDepth(b: Build)
    requires Valid(b) && b.ifStack != []
    ensures DepthOf(EnterElse(b)) == DepthOf(b)
  {
    OpenIfsSame(b.arena.ifs, EnterElse(b).arena.ifs, b.ifStack);
  }

  lemma {:induction false} CloseIfDepth(b: Build)
    requires S.Grounded(b) && b.ifStack != []
    ensures CloseIf(b).Ok? && DepthOf(CloseIf(b).value) == Deeper(EndifTag, DepthOf(b))
  {
    S.CloseIfGrounded(b);
    OpenIfsPop(b.arena.ifs, b.ifStack);
  }

  // ------------------------------------------------------------------- turn by turn

  /** The complaint about a tag that does not fit. */
  function Misfit(t: Tag): Error {
    if t.EndforTag? then EndforWithoutFor else if t.EndifTag? then EndifWithoutIf else ElseWithoutIf
  }

  /** A step follows what was read: it goes on there and counts the tag, or stops if the tag does not fit. */
  predicate Follows(p: Progress, r: Reading, d: Depth) {
    if r.Unreadable? then p.Stopped?
    else if !Fits(r.tag, d) then p == Stopped(Misfit(r.tag))
    else p.At? && p.next == r.next && DepthOf(p.b) == Deeper(r.tag, d)
  }

  lemma {:induction false} IfFollows(known: E.Library, toks: seq<Token>, i: nat, b: Build, closing: Token)
    requires i <= |toks| && Valid(b)
    ensures Follows(IfStatement(known, toks, i, b, closing, false),
                    ReadExpression(known, toks, i, closing, IfTag), DepthOf(b))
  {
    var e := ClosedExpression(known, toks, i, closing);
    if e.Found? {
      OpenIfDepth(b, e.node, false);
    }
  }

  lemma {:induction false} ElseIfFollows(known: E.Library, toks: seq<Token>, i: nat, b: Build, closing: Token)
    requires i <= |toks| && S.Grounded(b) && b.ifStack != []
    ensures Follows(IfStatement(known, toks, i, EnterElse(b), closing, true),
                    ReadExpression(known, toks, i, closing, ElseIfTag), DepthOf(b))
  {
    GroundedDepth(b);
    EnterElseValid(b);
    EnterElseDepth(b);
    var e := ClosedExpression(known, toks, i, closing);
    if e.Found? {
      OpenIfDepth(EnterElse(b), e.node, true);
    }
  }

  lemma {:induction false} ElseFollows(known: E.Library, toks: seq<Token>, i: nat, b: Build, closing: Token)
    requires i < |toks| && S.Grounded(b) && IsWord(toks[i], "else")
    ensures Follows(ElseStatement(known, toks, i, b, closing), ReadStatement(known, toks, i, closing), DepthOf(b))
  {
    GroundedDepth(b);
    if b.ifStack != [] {
      EnterElseDepth(b);
      EnterElseValid(b);
      if IsWord(E.Tok(toks, i + 1), "if") {
        ElseIfFollows(known, toks, i + 2, b, closing);
      }
    }
  }

  lemma {:induction false} ForFollows(known: E.Library, toks: seq<Token>, i: nat, b: Build, closing: Token)
    requires i < |toks| && Valid(b)
    ensures Follows(ForStatement(known, toks, i, b, closing), ReadFor(known, toks, i, closing), DepthOf(b))
  {
  }

  lemma {:induction false} SetFollows(known: E.Library, toks: seq<Token>, i: nat, b: Build, closing: Token)
    requires i < |toks| && Valid(b) && IsWord(toks[i], "set")
    ensures Follows(SetStatement(known, toks, i, b, closing), ReadStatement(known, toks, i, closing), DepthOf(b))
  {
  }

  lemma {:induction false} StatementFollows(known: E.Library, toks: seq<Token>, i: nat, b: Build, closing: Token)
    requires i <= |toks| && S.Grounded(b)
    ensures Follows(Statement(known, toks, i, b, closing), ReadStatement(known, toks, i, closing), DepthOf(b))
  {
    var t := E.Tok(toks, i);
    GroundedDepth(b);
    if IsWord(t, "if") {
      IfFollows(known, toks, i + 1, b, closing);
    } else if IsWord(t, "else") {
      ElseFollows(known, toks, i, b, closing);
    } else if IsWord(t, "endif") {
      if b.ifStack != [] {
        CloseIfDepth(b);
      }
    } else if IsWord(t, "for") {
      ForFollows(known, toks, i, b, closing);
    } else if IsWord(t, "set") {
      SetFollows(known, toks, i, b, closing);
    }
  }

  lemma {:induction false} TurnFollows(known: E.Library, toks: seq<Token>, i: nat, b: Build)
    requires i <= |toks| && S.Grounded(b) && !AtEnd(toks, i)
    ensures Follows(Turn(known, toks, i, b), TagAt(known, toks, i), DepthOf(b))
  {
    var t := toks[i];
    if t.StatementOpen? {
      StatementFollows(known, toks, i + 1, b, E.StatementClose);
    } else if t.LineStatementOpen? {
      StatementFollows(known, toks, i + 1, b, E.LineStatementClose);
    }
  }

  /** From any point of the loop, what is still to be read decides whether the parse succeeds. */
  lemma {:induction false} RunIffBalanced(known: E.Library, toks: seq<Token>, i: nat, b: Build)
    requires i <= |toks| && S.Grounded(b)
    ensures var tags := TagsFrom(known, toks, i);
            Run(known, toks, i, b).Ok? <==>
              tags.Some? && IfsBalanced(tags.value, DepthOf(b).ifs) && ForsBalanced(tags.value, DepthOf(b).fors)
    decreases |toks| - i
  {
    GroundedDepth(b);
    if !AtEnd(toks, i) {
      var p, r := Turn(known, toks, i, b), TagAt(known, toks, i);
      TurnFollows(known, toks, i, b);
      TurnValid(known, toks, i, b);
      S.TurnGrounded(known, toks, i, b);
      if p.At? {
        RunIffBalanced(known, toks, p.next, p.b);
        var rest := TagsFrom(known, toks, r.next);
        if rest.Some? {
          BalancedNext(r.tag, rest.value, DepthOf(b));
        }
      } else if r.Read? {
        NotFitting(r.tag, TagsFrom(known, toks, r.next), DepthOf(b));
      }
    }
  }

  lemma {:induction false} BalancedNext(t: Tag, rest: seq<Tag>, d: Depth)
    requires Fits(t, d)
    ensures IfsBalanced([t] + rest, d.ifs) <==> IfsBalanced(rest, Deeper(t, d).ifs)
    ensures ForsBalanced([t] + rest, d.fors) <==> ForsBalanced(rest, Deeper(t, d).fors)
  {
    assert ([t] + rest)[1..] == rest;
  }

  lemma {:induction false} NotFitting(t: Tag, rest: Option<seq<Tag>>, d: Depth)
    requires !Fits(t, d)
    ensures rest.Some? ==> !(IfsBalanced([t] + rest.value, d.ifs) && ForsBalanced([t] + rest.value, d.fors))
  {
  }

  /**
  A template is accepted if and only if every tag in it can be read, its if tags balance
  and its for tags balance, each without regard to the other.
  */
  lemma {:induction false} AcceptedIffBalanced(known: E.Library, toks: seq<Token>)
    ensures var tags := TagsFrom(known, toks, 0);
            ParseTemplate(known, toks).Ok? <==>
              tags.Some? && IfsBalanced(tags.value, 0) && ForsBalanced(tags.value, 0)
  {
    RunIffBalanced(known, toks, 0, START);
  }

  /** What is wrong with a sequence of tags: the first that does not fit, else an opener left at the end. */
  function Complaint(tags: seq<Tag>, d: Depth): Option<Error>
    decreases |tags|
  {
    if tags == [] then
      if d.ifs > 0 then Some(UnmatchedIf) else if d.fors > 0 then Some(UnmatchedFor) else None
    else if !Fits(tags[0], d) then Some(Misfit(tags[0]))
    else Complaint(tags[1..], Deeper(tags[0], d))
  }

  lemma {:induction false} RunComplains(known: E.Library, toks: seq<Token>, i: nat, b: Build)
    requires i <= |toks| && S.Grounded(b) && TagsFrom(known, toks, i).Some?
    ensures var run, wrong := Run(known, toks, i, b), Complaint(TagsFrom(known, toks, i).value, DepthOf(b));
            if wrong.None? then run.Ok? else run == Err(wrong.value)
    decreases |toks| - i
  {
    GroundedDepth(b);
    if !AtEnd(toks, i) {
      var p, r := Turn(known, toks, i, b), TagAt(known, toks, i);
      TurnFollows(known, toks, i, b);
      TurnValid(known, toks, i, b);
      S.TurnGrounded(known, toks, i, b);
      if p.At? {
        RunComplains(known, toks, p.next, p.b);
      }
    }
  }

  /** If every tag can be read, the error reported is the one the tags give rise to. */
  lemma {:induction false} ErrorIsTheComplaint(known: E.Library, toks: seq<Token>)
    requires TagsFrom(known, toks, 0).Some?
    ensures var result, wrong := ParseTemplate(known, toks), Complaint(TagsFrom(known, toks, 0).value, Depth(0, 0));
            if wrong.None? then result.Ok? else result == Err(wrong.value)
  {
    RunComplains(known, toks, 0, START);
  }

  // ------------------------------------------------------------------------- nesting

  datatype Opener = AnIf | AFor

  /** The tags nest: every else, endif and endfor meets its own opener on top. */
  predicate Nested(tags: seq<Tag>, open: seq<Opener>) {
    if tags == [] then open == []
    else
      var t, rest := tags[0], tags[1..];
      match t
      case Plain => Nested(rest, open)
      case IfTag => Nested(rest, open + [AnIf])
      case ForTag => Nested(rest, open + [AFor])
      case EndforTag => open != [] && open[|open| - 1] == AFor && Nested(rest, open[..|open| - 1])
      case EndifTag => open != [] && open[|open| - 1] == AnIf && Nested(rest, open[..|open| - 1])
      case _ => open != [] && open[|open| - 1] == AnIf && Nested(rest, open)
  }

  /** Some else, endif or endfor passes an opener of the other kind. */
  predicate Crosses(tags: seq<Tag>, open: seq<Opener>) {
    tags != [] &&
    var t, rest := tags[0], tags[1..];
    match t
    case Plain => Crosses(rest, open)
    case IfTag => Crosses(rest, open + [AnIf])
    case ForTag => Crosses(rest, open + [AFor])
    case EndforTag => open != [] && (open[|open| - 1] == AnIf || Crosses(rest, open[..|open| - 1]))
    case EndifTag => open != [] && (open[|open| - 1] == AFor || Crosses(rest, open[..|open| - 1]))
    case _ => open != [] && (open[|open| - 1] == AFor || Crosses(rest, open))
  }

  function Count(open: seq<Opener>, o: Opener): nat {
    if open == [] then 0
    else Count(open[..|open| - 1], o) + if open[|open| - 1] == o then 1 else 0
  }

  lemma {:induction false} CountPush(open: seq<Opener>, o: Opener, p: Opener)
    ensures Count(open + [p], o) == Count(open, o) + if p == o then 1 else 0
  {
    assert (open + [p])[..|open|] == open;
  }

  /** Tags nest if and only if both kinds balance and none crosses the other. */
  lemma {:induction false} NestedIffNoneCrosses(tags: seq<Tag>, open: seq<Opener>)
    ensures Nested(tags, open) <==>
              && IfsBalanced(tags, Count(open, AnIf)) && ForsBalanced(tags, Count(open, AFor))
              && !Crosses(tags, open)
    decreases |tags|
  {
    if tags == [] {
      if open != [] {
        assert Count(open, AnIf) > 0 || Count(open, AFor) > 0;
      }
    } else {
      CountPush(open, AnIf, AnIf);
      CountPush(open, AFor, AnIf);
      CountPush(open, AnIf, AFor);
      CountPush(open, AFor, AFor);
      var rest := tags[1..];
      match tags[0]
      case IfTag => NestedIffNoneCrosses(rest, open + [AnIf]);
      case ForTag => NestedIffNoneCrosses(rest, open + [AFor]);
      case EndifTag =>
        if open != [] {
          NestedIffNoneCrosses(rest, open[..|open| - 1]);
        }
      case EndforTag =>
        if open != [] {
          NestedIffNoneCrosses(rest, open[..|open| - 1]);
        }
      case _ => NestedIffNoneCrosses(rest, open);
    }
  }

  /** So the parser takes more than what nests: exactly the templates whose balanced tags cross. */
  lemma {:induction false} AcceptedBeyondNesting(known: E.Library, toks: seq<Token>)
    ensures var tags := TagsFrom(known, toks, 0);
            ParseTemplate(known, toks).Ok? && !(tags.Some? && Nested(tags.value, [])) <==>
              && tags.Some? && IfsBalanced(tags.value, 0) && ForsBalanced(tags.value, 0)
              && Crosses(tags.value, [])
  {
    AcceptedIffBalanced(known, toks);
    var tags := TagsFrom(known, toks, 0);
    if tags.Some? {
      NestedIffNoneCrosses(tags.value, []);
    }
  }
}
