/**
What the tokens of a region are: the words it was written with, between the opening
and the closing token of its delimiters, and the blanks that trimming drops around it.
*/
module InjaLexerWords {
  import opened Wrappers
  import opened InjaLexer
  import opened InjaLexerTiling

  // --------------------------------------------------------------------- spellings

  /** How a token that is always written alike is written; a lone "=" is the unknown token of {% set %}. */
  function FixedSpelling(k: Kind): string {
    match k
    case Plus => "+" case Minus => "-" case Times => "*" case Slash => "/" case Percent => "%"
    case Power => "^" case Comma => "," case Dot => "." case Colon => ":" case Pipe => "|"
    case LeftParen => "(" case RightParen => ")" case LeftBracket => "[" case RightBracket => "]"
    case LeftBrace => "{" case RightBrace => "}"
    case Equal => "==" case NotEqual => "!=" case GreaterThan => ">" case GreaterEqual => ">="
    case LessThan => "<" case LessEqual => "<=" case Unknown => "="
    case _ => ""
  }

  predicate IsName(w: string) {
    && w != "" && (IsAlpha(w[0]) || w[0] == '_' || w[0] == '@' || w[0] == '$')
    && forall i | 0 < i < |w| :: InId(w[i])
  }

  /** A digit, or a minus where none can be an operator, and what can follow it in a number. */
  predicate IsNumber(w: string, operand: bool) {
    && w != "" && (IsDigit(w[0]) || (w[0] == '-' && !operand))
    && forall i | 0 < i < |w| :: InNumber(w, i)
  }

  /** An odd number of backslashes stands before `i`. */
  predicate Escaped(w: string, i: nat)
    requires i <= |w|
  {
    i > 1 && w[i - 1] == '\\' && !Escaped(w, i - 1)
  }

  predicate ClosingQuote(w: string, i: nat)
    requires i < |w|
  {
    w[i] == '\"' && !Escaped(w, i)
  }

  predicate IsQuoted(w: string) {
    && |w| >= 2 && w[0] == '\"' && ClosingQuote(w, |w| - 1)
    && forall i | 0 < i < |w| - 1 :: !ClosingQuote(w, i)
  }

  /** `w` is how a token of this kind can be written; `operand` says that a minus would be an operator. */
  predicate Spelt(k: Kind, w: string, operand: bool) {
    if k.Id? then IsName(w)
    else if k.Number? then IsNumber(w, operand)
    else if k.String? then IsQuoted(w)
    else w != "" && w == FixedSpelling(k) && (k.Minus? ==> operand)
  }

  /** What stands at `p` cannot belong to the word of this kind before it. */
  predicate EndsWord(k: Kind, s: string, p: nat) {
    p < |s| ==>
      match k
      case Id => !InId(s[p])
      case Number => !InNumber(s, p)
      case GreaterThan => s[p] != '='
      case LessThan => s[p] != '='
      case Unknown => s[p] != '='
      case _ => true
  }

  /** A minus after this word is an operator. */
  predicate IsOperand(k: Kind, w: string) {
    || k.Id? || k.RightParen? || k.RightBracket? || k.RightBrace?
    || (k.Number? && w != "" && w[0] != '-')
  }

  lemma {:induction false} CharAt(s: string, p: nat, w: string, i: nat)
    requires StartsWith(s, p, w) && i < |w|
    ensures s[p + i] == w[i]
  {
    assert s[p..p + |w|][i] == s[p + i];
  }

  lemma {:induction false} NameEnds(s: string, p: nat, w: string, i: nat)
    requires StartsWith(s, p, w) && IsName(w) && 0 < i <= |w| && EndsWord(Id, s, p + |w|)
    ensures IdEnd(s, p + i) == p + |w|
    decreases |w| - i
  {
    if i < |w| {
      CharAt(s, p, w, i);
      NameEnds(s, p, w, i + 1);
    }
  }

  lemma {:induction false} NumberEnds(s: string, p: nat, w: string, operand: bool, i: nat)
    requires StartsWith(s, p, w) && IsNumber(w, operand) && 0 < i <= |w| && EndsWord(Number, s, p + |w|)
    ensures NumberEnd(s, p + i) == p + |w|
    decreases |w| - i
  {
    if i < |w| {
      CharAt(s, p, w, i);
      CharAt(s, p, w, i - 1);
      assert InNumber(w, i);
      NumberEnds(s, p, w, operand, i + 1);
    }
  }

  lemma {:induction false} QuotedEnds(s: string, p: nat, w: string, i: nat)
    requires StartsWith(s, p, w) && IsQuoted(w) && 0 < i < |w|
    ensures StringEnd(s, p + i, Escaped(w, i), '\"') == p + |w|
    decreases |w| - i
  {
    CharAt(s, p, w, i);
    if i < |w| - 1 {
      assert !ClosingQuote(w, i);
      QuotedEnds(s, p, w, i + 1);
    } else {
      assert ClosingQuote(w, i);
    }
  }

  /** A word is scanned as the token it spells, to its end. */
  lemma {:induction false} WordIsScanned(s: string, p: nat, k: Kind, w: string, operand: bool)
    requires StartsWith(s, p, w) && Spelt(k, w, operand) && EndsWord(k, s, p + |w|)
    ensures Lexeme(s, p, operand) == Lexed(k, p + |w|, IsOperand(k, w))
  {
    CharAt(s, p, w, 0);
    if k.Id? {
      NameEnds(s, p, w, 1);
    } else if k.Number? {
      NumberEnds(s, p, w, operand, 1);
    } else if k.String? {
      QuotedEnds(s, p, w, 1);
    } else {
      FixedIsScanned(s, p, k, w, operand);
    }
  }

  lemma {:induction false} FixedIsScanned(s: string, p: nat, k: Kind, w: string, operand: bool)
    requires StartsWith(s, p, w) && w != "" && w == FixedSpelling(k) && (k.Minus? ==> operand)
    requires EndsWord(k, s, p + |w|)
    ensures Lexeme(s, p, operand) == Lexed(k, p + |w|, IsOperand(k, w))
  {
    CharAt(s, p, w, 0);
    if |w| == 2 {
      CharAt(s, p, w, 1);
    }
  }

  // ----------------------------------------------------------------------- regions

  datatype Region = Expression | Statement | Line

  function OpenWord(c: Config, r: Region): string {
    match r
    case Expression => c.expressionOpen
    case Statement => c.statementOpen
    case Line => c.lineStatement
  }

  function CloseWord(c: Config, r: Region): string {
    match r
    case Expression => c.expressionClose
    case Statement => c.statementClose
    case Line => "\n"
  }

  /** The closing that also drops the blanks after it; a line has none. */
  function TrimWord(c: Config, r: Region): string {
    match r
    case Expression => c.expressionCloseForceRstrip
    case Statement => c.statementCloseForceRstrip
    case Line => ""
  }

  function Inside(r: Region): State {
    match r
    case Expression => ExpressionBody
    case Statement => StatementBody
    case Line => LineBody
  }

  function OpenKind(r: Region): Kind {
    match r
    case Expression => ExpressionOpen
    case Statement => StatementOpen
    case Line => LineStatementOpen
  }

  function EndKind(r: Region): Kind {
    match r
    case Expression => ExpressionClose
    case Statement => StatementClose
    case Line => LineStatementClose
  }

  predicate TrimsAt(c: Config, r: Region, s: string, p: nat) {
    TrimWord(c, r) != "" && StartsWith(s, p, TrimWord(c, r))
  }

  /** No closing of the region stands at `p`. */
  predicate NoClose(c: Config, r: Region, s: string, p: nat) {
    !StartsWith(s, p, CloseWord(c, r)) && !TrimsAt(c, r, s, p)
  }

  /** A word of a region, and the blanks before it. */
  datatype Word = Word(pad: string, kind: Kind, text: string)

  predicate IsPad(pad: string) {
    forall i | 0 <= i < |pad| :: pad[i] == ' ' || pad[i] == '\t' || pad[i] == '\r'
  }

  /** At `p`, `s` holds blanks and this word, and nothing that the word could go on with. */
  predicate WordAt(c: Config, r: Region, s: string, p: nat, operand: bool, w: Word) {
    var start := p + |w.pad|;
    && IsPad(w.pad) && StartsWith(s, p, w.pad) && StartsWith(s, start, w.text) && NoClose(c, r, s, start)
    && Spelt(w.kind, w.text, operand) && EndsWord(w.kind, s, start + |w.text|)
  }

  /** From `p` on, `s` holds these words, blanks between them where they would run together. */
  predicate Written(c: Config, r: Region, s: string, p: nat, operand: bool, words: seq<Word>)
    decreases |words|
  {
    words == [] ||
    var w := words[0];
    WordAt(c, r, s, p, operand, w)
    && Written(c, r, s, p + |w.pad| + |w.text|, IsOperand(w.kind, w.text), words[1..])
  }

  /** Where the words end. */
  function WordsEnd(p: nat, words: seq<Word>): nat
    decreases |words|
  {
    if words == [] then p else WordsEnd(p + |words[0].pad| + |words[0].text|, words[1..])
  }

  function LastOperand(operand: bool, words: seq<Word>): bool
    decreases |words|
  {
    if words == [] then operand
    else LastOperand(IsOperand(words[0].kind, words[0].text), words[1..])
  }

  function Tokens(words: seq<Word>): seq<Token> {
    if words == [] then [] else [Token(words[0].kind, words[0].text)] + Tokens(words[1..])
  }

  /** Blanks before a closing or a word are skipped. */
  lemma {:induction false} PadIsSkipped(c: Config, r: Region, s: string, p: nat, pad: string, i: nat)
    requires IsPad(pad) && StartsWith(s, p, pad) && i <= |pad| && p + |pad| < |s|
    requires !NoClose(c, r, s, p + |pad|) || !IsBlank(s[p + |pad|])
    requires var ch := s[p + |pad|]; ch != ' ' && ch != '\t' && ch != '\r'
    ensures BodyStart(ClosingOf(c, Inside(r)), s, p + i) == p + |pad|
    decreases |pad| - i
  {
    if i < |pad| {
      CharAt(s, p, pad, i);
      PadIsSkipped(c, r, s, p, pad, i + 1);
    }
  }

  lemma {:induction false} NoBlankFirst(k: Kind, w: string, operand: bool)
    requires Spelt(k, w, operand)
    ensures w != "" && !IsBlank(w[0])
  {
  }

  /** A token inside a body, when it is clear where it starts. */
  lemma {:induction false} BodyScan(c: Config, r: Region, s: string, p: nat, start: nat, operand: bool)
    requires p <= start < |s| && BodyStart(ClosingOf(c, Inside(r)), s, p) == start && NoClose(c, r, s, start)
    ensures var l := Lexeme(s, start, operand);
            Scan(c, s, Mode(Inside(r), operand, p))
            == Scanned(Mode(Inside(r), l.operand, l.end), Token(l.kind, s[start..l.end]))
  {
    assert Scan(c, s, Mode(Inside(r), operand, p)) == BodyToken(c, s, Mode(Inside(r), operand, p));
  }

  lemma {:induction false} WordToken(c: Config, r: Region, s: string, p: nat, operand: bool, w: Word, end: nat)
    requires WordAt(c, r, s, p, operand, w) && end == p + |w.pad| + |w.text|
    ensures p < |s| && end <= |s|
    ensures Scan(c, s, Mode(Inside(r), operand, p))
            == Scanned(Mode(Inside(r), IsOperand(w.kind, w.text), end), Token(w.kind, w.text))
  {
    var start := p + |w.pad|;
    NoBlankFirst(w.kind, w.text, operand);
    CharAt(s, start, w.text, 0);
    PadIsSkipped(c, r, s, p, w.pad, 0);
    WordIsScanned(s, start, w.kind, w.text, operand);
    BodyScan(c, r, s, p, start, operand);
  }

  /** Scanning from `m` gives these tokens one after the other and leads to `done`. */
  predicate ScansTo(c: Config, s: string, m: Mode, tokens: seq<Token>, done: Mode)
    decreases |tokens|
  {
    && ValidMode(c, s, m)
    && if tokens == [] then m == done
       else Scan(c, s, m).token == tokens[0] && ScansTo(c, s, Scan(c, s, m).after, tokens[1..], done)
  }

  /** One scan and then the others. */
  lemma {:induction false} ScanFirst(c: Config, s: string, m: Mode, one: Scanned, tokens: seq<Token>, done: Mode)
    requires ValidMode(c, s, m) && Scan(c, s, m) == one && ScansTo(c, s, one.after, tokens, done)
    ensures ScansTo(c, s, m, [one.token] + tokens, done)
  {
    assert ([one.token] + tokens)[1..] == tokens;
  }

  lemma {:induction false} WordThenOthers(
    c: Config, r: Region, s: string, p: nat, operand: bool, w: Word, end: nat, tokens: seq<Token>, done: Mode)
    requires WordAt(c, r, s, p, operand, w) && end == p + |w.pad| + |w.text|
    requires ScansTo(c, s, Mode(Inside(r), IsOperand(w.kind, w.text), end), tokens, done)
    ensures end <= |s| && ScansTo(c, s, Mode(Inside(r), operand, p), [Token(w.kind, w.text)] + tokens, done)
  {
    WordToken(c, r, s, p, operand, w, end);
    var after := Mode(Inside(r), IsOperand(w.kind, w.text), end);
    ScanFirst(c, s, Mode(Inside(r), operand, p), Scanned(after, Token(w.kind, w.text)), tokens, done);
  }

  lemma {:induction false} WordInside(c: Config, r: Region, s: string, p: nat, operand: bool, w: Word)
    requires WordAt(c, r, s, p, operand, w)
    ensures p + |w.pad| + |w.text| <= |s|
  {
  }

  lemma {:induction false} ScanNothing(c: Config, r: Region, s: string, p: nat, operand: bool)
    requires p <= |s|
    ensures ScansTo(c, s, Mode(Inside(r), operand, p), [], Mode(Inside(r), operand, p))
  {
  }

  /** The words of a region are scanned one by one, each as the token it spells. */
  lemma {:induction false} WordsAreScanned(
    c: Config, r: Region, s: string, p: nat, operand: bool, words: seq<Word>, done: Mode)
    requires p <= |s| && Written(c, r, s, p, operand, words)
    requires done == Mode(Inside(r), LastOperand(operand, words), WordsEnd(p, words))
    ensures done.pos <= |s| && ScansTo(c, s, Mode(Inside(r), operand, p), Tokens(words), done)
    decreases |words|
  {
    if words == [] {
      ScanNothing(c, r, s, p, operand);
    } else {
      var w, rest := words[0], words[1..];
      var end := p + |w.pad| + |w.text|;
      WordInside(c, r, s, p, operand, w);
      WordsAreScanned(c, r, s, end, IsOperand(w.kind, w.text), rest, done);
      WordThenOthers(c, r, s, p, operand, w, end, Tokens(rest), done);
    }
  }

  // ------------------------------------------------------------ openings and closings

  /** The plain opening of a region stands at `p`, and no other opening does. */
  predicate OpensPlainly(c: Config, r: Region, s: string, p: nat) {
    && p <= |s| && StartsWith(s, p, OpenWord(c, r))
    && match r
       case Expression => !StartsWith(s, p, c.expressionOpenForceLstrip)
       case Statement =>
         && !StartsWith(s, p, c.expressionOpen)
         && !StartsWith(s, p, c.statementOpenNoLstrip) && !StartsWith(s, p, c.statementOpenForceLstrip)
       case Line =>
         && (p == 0 || s[p - 1] == '\n')
         && !StartsWith(s, p, c.expressionOpen) && !StartsWith(s, p, c.statementOpen) && !StartsWith(s, p, c.commentOpen)
  }

  /** The delimiter that opens a region at `p`, the token it is, and where it leads; the longer variant wins. */
  datatype Opening = Opening(word: string, kind: Kind, body: State)

  function OpensWith(c: Config, s: string, p: nat): Option<Opening>
    requires p <= |s|
  {
    if StartsWith(s, p, c.expressionOpen) then
      Some(Opening(if StartsWith(s, p, c.expressionOpenForceLstrip) then c.expressionOpenForceLstrip else c.expressionOpen,
                   ExpressionOpen, ExpressionBody))
    else if StartsWith(s, p, c.statementOpen) then
      Some(Opening(if StartsWith(s, p, c.statementOpenNoLstrip) then c.statementOpenNoLstrip
                   else if StartsWith(s, p, c.statementOpenForceLstrip) then c.statementOpenForceLstrip
                   else c.statementOpen,
                   StatementOpen, StatementBody))
    else if StartsWith(s, p, c.commentOpen) then
      Some(Opening(if StartsWith(s, p, c.commentOpenForceLstrip) then c.commentOpenForceLstrip else c.commentOpen,
                   CommentOpen, CommentBody))
    else if (p == 0 || s[p - 1] == '\n') && StartsWith(s, p, c.lineStatement) then
      Some(Opening(c.lineStatement, LineStatementOpen, LineBody))
    else None
  }

  lemma {:induction false} OpeningIs(c: Config, s: string, p: nat)
    requires p <= |s|
    ensures OpensWith(c, s, p).Some? <==> OpenAt(c, s, p).Some?
    ensures OpensWith(c, s, p).Some? ==>
              var o, st := OpensWith(c, s, p).value, OpenAt(c, s, p).value;
              IsStart(st) && StartsWith(s, p, o.word) && o.word == Delimiter(c, st) && BodyOf(st) == (o.body, o.kind)
  {
  }

  /** An opening is its own token, directly or after the text before it. */
  lemma {:induction false} OpeningIsScanned(c: Config, s: string, p: nat, operand: bool, o: Opening)
    requires GoodDelimiters(c) && p <= |s| && OpensWith(c, s, p) == Some(o)
    ensures OpenAt(c, s, p).Some? && p < p + |o.word| <= |s|
    ensures var st := OpenAt(c, s, p).value;
            && ValidMode(c, s, Mode(st, operand, p))
            && Scan(c, s, Mode(InText, operand, p)) == Scan(c, s, Mode(st, operand, p))
               == Scanned(Mode(o.body, operand, p + |o.word|), Token(o.kind, o.word))
  {
    OpeningIs(c, s, p);
    DelimiterNotEmpty(c, OpenAt(c, s, p).value);
    assert FirstOpen(c, s, p) == p && s[p..p] == "";
    assert ClearFinalLine("") == "";
  }

  /** A comment is one token up to its first close, and drops the rest of its line if asked to. */
  lemma {:induction false} CommentIsScanned(c: Config, s: string, p: nat, e: nat, operand: bool)
    requires GoodDelimiters(c) && 0 < p <= e && StartsWith(s, e, c.commentClose)
    requires forall q | p <= q < e :: !StartsWith(s, q, c.commentClose)
    ensures var one, end := Scan(c, s, Mode(CommentBody, operand, p)), e + |c.commentClose|;
            && one.token == Token(CommentClose, s[p..end]) && one.after.state.InText?
            && if c.trimBlocks || StartsWith(s, e - 1, c.commentCloseForceRstrip) then DropsLine(s, end, one.after.pos)
               else one.after.pos == end
  {
    FoundFirst(s, p, e, c.commentClose);
    LineIsDropped(s, e + |c.commentClose|);
    CommentScan(c, s, p, e, e + |c.commentClose|, operand);
  }

  lemma {:induction false} CommentScan(c: Config, s: string, p: nat, e: nat, end: nat, operand: bool)
    requires GoodDelimiters(c) && 0 < p <= e && end == e + |c.commentClose| <= |s| && Find(s, p, c.commentClose) == Some(e)
    ensures Scan(c, s, Mode(CommentBody, operand, p))
            == Scanned(Mode(InText, operand, if StartsWith(s, e - 1, c.commentCloseForceRstrip) || c.trimBlocks
                                             then SkipLine(s, end) else end),
                       Token(CommentClose, s[p..end]))
  {
    var m := Mode(CommentBody, operand, p);
    assert Scan(c, s, m) == CommentToken(c, s, m);
  }

  lemma {:induction false} FoundFirst(s: string, p: nat, e: nat, needle: string)
    requires p <= e <= |s| && StartsWith(s, e, needle) && forall q | p <= q < e :: !StartsWith(s, q, needle)
    ensures Find(s, p, needle) == Some(e)
    decreases e - p
  {
    if p < e {
      FoundFirst(s, p + 1, e, needle);
    }
  }

  /** What a closing at `q` drops behind it: nothing, a line end, or all blanks; `to` is where the text goes on. */
  ghost predicate ClosesTo(c: Config, r: Region, s: string, q: nat, to: nat) {
    if TrimsAt(c, r, s, q) then DropsBlanks(s, q + |TrimWord(c, r)|, to)
    else if r.Statement? && c.trimBlocks then DropsLine(s, q + |c.statementClose|, to)
    else to == q + |CloseWord(c, r)|
  }

  predicate DropsBlanks(s: string, from: nat, to: nat) {
    from <= to <= |s| && Blank(s, from, to) && (to < |s| ==> !IsBlank(s[to]))
  }

  predicate IsSpace(ch: char) {
    ch == ' ' || ch == '\t'
  }

  predicate Spaces(s: string, from: nat, to: nat)
    requires to <= |s|
  {
    forall i | from <= i < to :: IsSpace(s[i])
  }

  /** All spaces and tabs, and one line end if it follows. */
  ghost predicate DropsLine(s: string, from: nat, to: nat) {
    exists k | from <= k <= |s| ::
      && Spaces(s, from, k) && (k < |s| ==> !IsSpace(s[k]))
      && to == k + LineEnd(s, k)
  }

  function LineEnd(s: string, k: nat): nat {
    if StartsWith(s, k, "\r\n") then 2 else if k < |s| && (s[k] == '\n' || s[k] == '\r') then 1 else 0
  }

  lemma {:induction false} AllBlanksDropped(s: string, p: nat)
    requires p <= |s|
    ensures DropsBlanks(s, p, SkipBlank(s, p))
    decreases |s| - p
  {
    if p < |s| && IsBlank(s[p]) {
      AllBlanksDropped(s, p + 1);
    }
  }

  lemma {:induction false} AllSpacesDropped(s: string, p: nat)
    requires p <= |s|
    ensures var k := SkipSpaces(s, p); Spaces(s, p, k) && (k < |s| ==> !IsSpace(s[k]))
    decreases |s| - p
  {
    if p < |s| && IsSpace(s[p]) {
      AllSpacesDropped(s, p + 1);
    }
  }

  lemma {:induction false} LineIsDropped(s: string, p: nat)
    requires p <= |s|
    ensures DropsLine(s, p, SkipLine(s, p))
  {
    AllSpacesDropped(s, p);
    var k := SkipSpaces(s, p);
    assert StartsWith(s, k, "\r\n") <==> k + 1 < |s| && s[k] == '\r' && s[k + 1] == '\n' by {
      if k + 1 < |s| {
        assert s[k..k + 2] == [s[k], s[k + 1]];
      }
    }
  }

  /** A closing of the region stands at `q`, and blanks end there. */
  predicate ClosesHere(c: Config, r: Region, s: string, q: nat) {
    q < |s| && s[q] != ' ' && s[q] != '\t' && s[q] != '\r' && !NoClose(c, r, s, q)
  }

  function CloseText(c: Config, r: Region, s: string, q: nat): string {
    if TrimsAt(c, r, s, q) then TrimWord(c, r) else CloseWord(c, r)
  }

  function SkipAfter(c: Config, r: Region, s: string, q: nat, end: nat): nat
    requires end <= |s|
  {
    if TrimsAt(c, r, s, q) then SkipBlank(s, end)
    else if r.Statement? && c.trimBlocks then SkipLine(s, end) else end
  }

  lemma {:induction false} SkipsWhatIsAsked(c: Config, r: Region, s: string, q: nat, end: nat)
    requires end <= |s| && end == q + |CloseText(c, r, s, q)|
    ensures SkipAfter(c, r, s, q, end) <= |s| && ClosesTo(c, r, s, q, SkipAfter(c, r, s, q, end))
  {
    if TrimsAt(c, r, s, q) {
      AllBlanksDropped(s, end);
    } else if r.Statement? && c.trimBlocks {
      LineIsDropped(s, end);
    }
  }

  lemma {:induction false} ClosingOfRegion(c: Config, r: Region)
    ensures ClosingOf(c, Inside(r)) == Closing(CloseWord(c, r), EndKind(r), TrimWord(c, r), r.Statement? && c.trimBlocks)
  {
  }

  lemma {:induction false} BodyCloses(c: Config, s: string, m: Mode, z: Closing, q: nat, end: nat)
    requires IsBody(m.state) && !m.state.CommentBody? && m.pos <= q < |s| && z == ClosingOf(c, m.state)
    requires BodyStart(z, s, m.pos) == q && ClosesAt(z, s, q)
    requires end == q + if ClosesTrimmed(z, s, q) then |z.closeTrim| else |z.close|
    ensures end <= |s|
    ensures Scan(c, s, m)
            == Scanned(Mode(InText, m.operand, if ClosesTrimmed(z, s, q) then SkipBlank(s, end)
                                               else if z.trim then SkipLine(s, end) else end),
                       Token(z.kind, s[q..end]))
  {
    assert Scan(c, s, m) == BodyToken(c, s, m);
  }

  lemma {:induction false} CloseScan(c: Config, r: Region, s: string, p: nat, q: nat, end: nat, operand: bool)
    requires p <= q < |s| && BodyStart(ClosingOf(c, Inside(r)), s, p) == q && !NoClose(c, r, s, q)
    requires end == q + |CloseText(c, r, s, q)|
    ensures end <= |s| && CloseText(c, r, s, q) == s[q..end]
    ensures Scan(c, s, Mode(Inside(r), operand, p))
            == Scanned(Mode(InText, operand, SkipAfter(c, r, s, q, end)), Token(EndKind(r), s[q..end]))
  {
    ClosingOfRegion(c, r);
    BodyCloses(c, s, Mode(Inside(r), operand, p), ClosingOf(c, Inside(r)), q, end);
  }

  /** A closing after blanks is the region's closing token, and the text goes on behind what it drops. */
  lemma {:induction false} ClosingIsScanned(c: Config, r: Region, s: string, p: nat, pad: string, q: nat, operand: bool)
    requires IsPad(pad) && StartsWith(s, p, pad) && q == p + |pad| && ClosesHere(c, r, s, q)
    ensures var one := Scan(c, s, Mode(Inside(r), operand, p));
            && one.token == Token(EndKind(r), CloseText(c, r, s, q))
            && one.after.state.InText? && one.after.pos <= |s|
            && ClosesTo(c, r, s, q, one.after.pos)
  {
    PadIsSkipped(c, r, s, p, pad, 0);
    var end := q + |CloseText(c, r, s, q)|;
    CloseScan(c, r, s, p, q, end, operand);
    SkipsWhatIsAsked(c, r, s, q, end);
  }

  lemma {:induction false} ScanLast(c: Config, s: string, m: Mode, tokens: seq<Token>, done: Mode, last: Scanned)
    requires GoodDelimiters(c) && ScansTo(c, s, m, tokens, done) && ValidMode(c, s, done) && Scan(c, s, done) == last
    ensures ScansTo(c, s, m, tokens + [last.token], last.after)
    decreases |tokens|
  {
    var one := Scan(c, s, m);
    if tokens == [] {
      ScanProgress(c, s, m);
      ScanFirst(c, s, m, one, [], one.after);
      assert [one.token] + [] == tokens + [last.token];
    } else {
      var rest := tokens[1..];
      ScanLast(c, s, one.after, rest, done, last);
      ScanFirst(c, s, m, one, rest + [last.token], last.after);
      assert [one.token] + (rest + [last.token]) == tokens + [last.token];
    }
  }

  /** At `p` a region opens plainly, holds these words, and after `pad` closes at `q`. */
  predicate RegionAt(c: Config, r: Region, s: string, p: nat, operand: bool, words: seq<Word>, pad: string, q: nat) {
    var from := p + |OpenWord(c, r)|;
    && OpensPlainly(c, r, s, p) && Written(c, r, s, from, operand, words)
    && IsPad(pad) && StartsWith(s, WordsEnd(from, words), pad)
    && q == WordsEnd(from, words) + |pad| && ClosesHere(c, r, s, q)
  }

  /** The tokens of a whole region: its opening, its words and its closing. */
  function RegionTokens(c: Config, r: Region, s: string, words: seq<Word>, q: nat): seq<Token> {
    [Token(OpenKind(r), OpenWord(c, r))] + (Tokens(words) + [Token(EndKind(r), CloseText(c, r, s, q))])
  }

  /** A whole region is scanned as these tokens, and the text goes on behind what its closing drops. */
  lemma {:induction false} RegionIsScanned(
    c: Config, r: Region, s: string, p: nat, operand: bool, words: seq<Word>, pad: string, q: nat) returns (done: Mode)
    requires GoodDelimiters(c) && RegionAt(c, r, s, p, operand, words, pad, q)
    ensures ScansTo(c, s, Mode(InText, operand, p), RegionTokens(c, r, s, words, q), done)
    ensures done.state.InText? && ClosesTo(c, r, s, q, done.pos)
  {
    var from := p + |OpenWord(c, r)|;
    OpeningIsScanned(c, s, p, operand, Opening(OpenWord(c, r), OpenKind(r), Inside(r)));
    var last := BodyIsScanned(c, r, s, from, operand, words, pad, WordsEnd(from, words), q);
    var inside := Scanned(Mode(Inside(r), operand, from), Token(OpenKind(r), OpenWord(c, r)));
    ScanFirst(c, s, Mode(InText, operand, p), inside, Tokens(words) + [last.token], last.after);
    done := last.after;
  }

  lemma {:induction false} BodyIsScanned(
    c: Config, r: Region, s: string, from: nat, operand: bool, words: seq<Word>, pad: string, to: nat, q: nat)
    returns (last: Scanned)
    requires GoodDelimiters(c) && from <= |s| && Written(c, r, s, from, operand, words) && to == WordsEnd(from, words)
    requires IsPad(pad) && StartsWith(s, to, pad) && q == to + |pad| && ClosesHere(c, r, s, q)
    ensures ScansTo(c, s, Mode(Inside(r), operand, from), Tokens(words) + [last.token], last.after)
    ensures last.token == Token(EndKind(r), CloseText(c, r, s, q))
    ensures last.after.state.InText? && ClosesTo(c, r, s, q, last.after.pos)
  {
    var done := Mode(Inside(r), LastOperand(operand, words), to);
    WordsAreScanned(c, r, s, from, operand, words, done);
    ClosingIsScanned(c, r, s, to, pad, q, done.operand);
    last := Scan(c, s, done);
    ScanLast(c, s, Mode(Inside(r), operand, from), Tokens(words), done, last);
  }

  /** After a negative number or a string a minus is never the operator: it starts a number. */
  lemma {:induction false} NoMinusAfter(c: Config, r: Region, s: string, p: nat, operand: bool, w: Word, end: nat)
    requires WordAt(c, r, s, p, operand, w) && end == p + |w.pad| + |w.text|
    requires end < |s| && s[end] == '-' && NoClose(c, r, s, end)
    requires w.kind.String? || (w.kind.Number? && w.text[0] == '-')
    ensures Scan(c, s, Mode(Inside(r), operand, p)).token == Token(w.kind, w.text)
    ensures Scan(c, s, Scan(c, s, Mode(Inside(r), operand, p)).after).token.kind.Number?
  {
    WordToken(c, r, s, p, operand, w, end);
    BodyScan(c, r, s, end, end, false);
  }

  // -------------------------------------------------------------- the text before a region

  /** The opening at `p` asks for the blanks before it to be dropped. */
  predicate AsksToStrip(c: Config, s: string, p: nat) {
    if StartsWith(s, p, c.expressionOpen) then StartsWith(s, p, c.expressionOpenForceLstrip)
    else if StartsWith(s, p, c.statementOpen) then
      !StartsWith(s, p, c.statementOpenNoLstrip) && (c.lstripBlocks || StartsWith(s, p, c.statementOpenForceLstrip))
    else StartsWith(s, p, c.commentOpen) && (c.lstripBlocks || StartsWith(s, p, c.commentOpenForceLstrip))
  }

  /** `k` starts the last line before `p`, or the text itself, and only spaces and tabs follow. */
  predicate BlankLine(s: string, from: nat, k: nat, p: nat) {
    from <= k <= p <= |s| && (k == from || s[k - 1] == '\n' || s[k - 1] == '\r') && Spaces(s, k, p)
  }

  lemma {:induction false} BlankFromIs(text: string, k: nat)
    requires k <= |text|
    ensures var j := BlankFrom(text, k); Spaces(text, j, k) && (j > 0 ==> !IsSpace(text[j - 1]))
  {
    if k > 0 && IsSpace(text[k - 1]) {
      BlankFromIs(text, k - 1);
    }
  }

  lemma {:induction false} ClearsTheLine(text: string, k: nat)
    requires BlankLine(text, 0, k, |text|)
    ensures ClearFinalLine(text) == text[..k]
  {
    BlankFromIs(text, |text|);
  }

  lemma {:induction false} ClearsNothing(text: string)
    requires forall k | 0 <= k <= |text| :: !BlankLine(text, 0, k, |text|)
    ensures ClearFinalLine(text) == text
  {
    BlankFromIs(text, |text|);
    assert !BlankLine(text, 0, BlankFrom(text, |text|), |text|);
  }

  lemma {:induction false} BlankLineWithin(s: string, from: nat, k: nat, p: nat)
    requires from <= k <= p <= |s|
    ensures BlankLine(s, from, k, p) <==> BlankLine(s[from..p], 0, k - from, p - from)
  {
    var text := s[from..p];
    assert forall i | from <= i < p :: s[i] == text[i - from];
    assert forall i | 0 <= i < p - from :: text[i] == s[i + from];
  }

  /**
  The text before the leftmost opening is reported whole, unless the opening asks for
  it to be stripped and its last line is blank: then exactly without that line's blanks.
  */
  lemma {:induction false} TextBeforeOpening(c: Config, s: string, m: Mode, p: nat, k: nat)
    requires GoodDelimiters(c) && m.state.InText? && m.pos < p < |s|
    requires (forall q | m.pos <= q < p :: OpenAt(c, s, q).None?) && OpenAt(c, s, p).Some?
    requires if AsksToStrip(c, s, p) && exists j | m.pos <= j <= p :: BlankLine(s, m.pos, j, p)
             then BlankLine(s, m.pos, k, p) else k == p
    ensures var one := Scan(c, s, m);
            if k > m.pos then one.token == Token(Text, s[m.pos..k]) && one.after.pos == p
            else !one.token.kind.Text? && one.after.pos == p + |Delimiter(c, OpenAt(c, s, p).value)|
  {
    FirstOpenIs(c, s, m.pos, p);
    OpeningIs(c, s, p);
    StrippedText(c, s, m.pos, p, k);
    StripsWhenAsked(c, s, p);
  }

  /** What is left of the text before an opening. */
  lemma {:induction false} StrippedText(c: Config, s: string, from: nat, p: nat, k: nat)
    requires from <= p <= |s|
    requires if AsksToStrip(c, s, p) && exists j | from <= j <= p :: BlankLine(s, from, j, p)
             then BlankLine(s, from, k, p) else k == p
    ensures from <= k <= p
    ensures (if AsksToStrip(c, s, p) then ClearFinalLine(s[from..p]) else s[from..p]) == s[from..k]
  {
    var text := s[from..p];
    if AsksToStrip(c, s, p) {
      if j :| from <= j <= p && BlankLine(s, from, j, p) {
        BlankLineWithin(s, from, k, p);
        ClearsTheLine(text, k - from);
        assert text[..k - from] == s[from..k];
      } else {
        forall j | 0 <= j <= |text|
          ensures !BlankLine(text, 0, j, |text|)
        {
          BlankLineWithin(s, from, from + j, p);
        }
        ClearsNothing(text);
      }
    }
  }

  lemma {:induction false} FirstOpenIs(c: Config, s: string, from: nat, p: nat)
    requires from <= p <= |s| && (forall q | from <= q < p :: OpenAt(c, s, q).None?) && OpenAt(c, s, p).Some?
    ensures FirstOpen(c, s, from) == p
    decreases p - from
  {
    if from < p {
      FirstOpenIs(c, s, from + 1, p);
    }
  }

  lemma {:induction false} StripsWhenAsked(c: Config, s: string, p: nat)
    requires p <= |s| && OpenAt(c, s, p).Some?
    ensures StripsLeft(c, OpenAt(c, s, p).value) <==> AsksToStrip(c, s, p)
  {
  }
}
