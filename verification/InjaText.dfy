/** From characters to the tree: the lexer's tokens as the parser takes them, and both joined. */
module InjaText {
  import opened Wrappers
  import opened InjaExpression
  import opened InjaGrammar
  import R = InjaExpressionRoundTrip
  import L = InjaLexer
  import W = InjaLexerWords

  /** What the parser makes of a token; the lexer knows a lone "=" only as unknown. */
  function TokenOf(t: L.Token): Token {
    match t.kind
    case Text => Token.Text(t.text)
    case ExpressionOpen => Token.ExpressionOpen case ExpressionClose => Token.ExpressionClose
    case LineStatementOpen => Token.LineStatementOpen case LineStatementClose => Token.LineStatementClose
    case StatementOpen => Token.StatementOpen case StatementClose => Token.StatementClose
    case CommentOpen => Token.CommentOpen case CommentClose => Token.CommentClose
    case Id => Token.Id(t.text) case Number => NumberLit(t.text) case String => StringLit(t.text)
    case Plus => Symbol(Add) case Minus => Symbol(Subtract) case Times => Symbol(Multiplication)
    case Slash => Symbol(Division) case Percent => Symbol(Modulo) case Power => Symbol(Op.Power)
    case Dot => Symbol(AtId)
    case Equal => Symbol(Op.Equal) case NotEqual => Symbol(Op.NotEqual)
    case GreaterThan => Symbol(Greater) case GreaterEqual => Symbol(Op.GreaterEqual)
    case LessThan => Symbol(Less) case LessEqual => Symbol(Op.LessEqual)
    case Comma => Token.Comma case Colon => Token.Colon case Pipe => Token.Pipe
    case LeftParen => Token.LeftParen case RightParen => Token.RightParen
    case LeftBracket => Token.LeftBracket case RightBracket => Token.RightBracket
    case LeftBrace => Token.LeftBrace case RightBrace => Token.RightBrace
    case Unknown => if t.text == "=" then Assign else Token.Unknown
    case Eof => Token.Eof
  }

  function TokensOf(ts: seq<L.Token>): (toks: seq<Token>)
    ensures |toks| == |ts| && forall i | 0 <= i < |ts| :: toks[i] == TokenOf(ts[i])
  {
    seq(|ts|, i requires 0 <= i < |ts| => TokenOf(ts[i]))
  }

  /** The words of a text are those that the derivation `d` derives. */
  predicate SpellsOut(words: seq<W.Word>, d: Derivation) {
    TokensOf(W.Tokens(words)) == Words(d)
  }

  /**
  An expression region whose words spell out a derivation: scanned and then parsed, its
  characters give the tree of that derivation and the parser stops at the closing token.
  */
  lemma {:induction false} TextToTree(
    known: Library, c: L.Config, s: string, p: nat, operand: bool, words: seq<W.Word>, pad: string, q: nat, d: Derivation)
    returns (tokens: seq<L.Token>, done: L.Mode)
    requires L.GoodDelimiters(c) && W.RegionAt(c, W.Expression, s, p, operand, words, pad, q)
    requires Derives(0, d) && Exist(known, d) && SpellsOut(words, d)
    ensures W.ScansTo(c, s, L.Mode(L.InText, operand, p), tokens, done)
    ensures done.state.InText? && W.ClosesTo(c, W.Expression, s, q, done.pos)
    ensures tokens != [] && TokenOf(tokens[|tokens| - 1]).ExpressionClose?
    ensures Parse(known, TokensOf(tokens), 1) == Found(Some(Tree(d)), |tokens| - 1)
  {
    done := W.RegionIsScanned(c, W.Expression, s, p, operand, words, pad, q);
    tokens := W.RegionTokens(c, W.Expression, s, words, q);
    BetweenDelimiters(known, tokens[0], W.Tokens(words), tokens[|tokens| - 1], d);
  }

  lemma {:induction false} BetweenDelimiters(known: Library, open: L.Token, inner: seq<L.Token>, close: L.Token, d: Derivation)
    requires Derives(0, d) && Exist(known, d) && TokensOf(inner) == Words(d) && close.kind.ExpressionClose?
    ensures Parse(known, TokensOf([open] + (inner + [close])), 1) == Found(Some(Tree(d)), 1 + |inner|)
  {
    var toks, end := TokensOf([open] + (inner + [close])), 1 + |inner|;
    assert toks[1..end] == Words(d);
    assert toks[end] == Token.ExpressionClose;
    ReadWhole(known, toks, 1, d, end);
  }
}
