/**
What the lexer of the template engine computes, said the simple way: the text up
to the leftmost opening delimiter is found by trying every position.
*/
module InjaLexer {
  import opened Wrappers

  /** The delimiters, the characters the fast search looks for, and whether to trim. */
  datatype Config = Config(
    statementOpen: string, statementOpenNoLstrip: string, statementOpenForceLstrip: string,
    statementClose: string, statementCloseForceRstrip: string,
    lineStatement: string,
    expressionOpen: string, expressionOpenForceLstrip: string,
    expressionClose: string, expressionCloseForceRstrip: string,
    commentOpen: string, commentOpenForceLstrip: string,
    commentClose: string, commentCloseForceRstrip: string,
    openChars: string,
    trimBlocks: bool, lstripBlocks: bool)

  datatype Kind =
    | Text
    | ExpressionOpen | ExpressionClose | LineStatementOpen | LineStatementClose
    | StatementOpen | StatementClose | CommentOpen | CommentClose
    | Id | Number | String
    | Plus | Minus | Times | Slash | Percent | Power | Comma | Dot | Colon
    | LeftParen | RightParen | LeftBracket | RightBracket | LeftBrace | RightBrace
    | Equal | NotEqual | GreaterThan | GreaterEqual | LessThan | LessEqual
    | Pipe | Unknown | Eof

  datatype Token = Token(kind: Kind, text: string)

  datatype State =
    | InText
    | ExpressionStart | ExpressionStartForceLstrip | ExpressionBody
    | LineStart | LineBody
    | StatementStart | StatementStartNoLstrip | StatementStartForceLstrip | StatementBody
    | CommentStart | CommentStartForceLstrip | CommentBody

  /** Where the lexer stands; `operand` says that a minus now would be an operator. */
  datatype Mode = Mode(state: State, operand: bool, pos: nat)

  /** A scanned token and where the lexer stands after it. */
  datatype Scanned = Scanned(after: Mode, token: Token)

  predicate StartsWith(s: string, p: nat, prefix: string) {
    p + |prefix| <= |s| && s[p..p + |prefix|] == prefix
  }

  /** The delimiters are not empty, as the code takes for granted. */
  predicate GoodDelimiters(c: Config) {
    && c.statementOpen != "" && c.statementOpenNoLstrip != "" && c.statementOpenForceLstrip != ""
    && c.statementClose != "" && c.lineStatement != ""
    && c.expressionOpen != "" && c.expressionOpenForceLstrip != "" && c.expressionClose != ""
    && c.commentOpen != "" && c.commentOpenForceLstrip != "" && c.commentClose != ""
  }

  // ------------------------------------------------------------------- opening characters

  function AddChar(chars: string, delimiter: string): string
    requires delimiter != ""
  {
    if delimiter[0] in chars then chars else chars + [delimiter[0]]
  }

  /** update_open_chars() */
  function OpenChars(c: Config): string
    requires GoodDelimiters(c)
  {
    AddChar(AddChar(AddChar(AddChar(AddChar(AddChar(AddChar(AddChar("",
      c.lineStatement), c.statementOpen), c.statementOpenNoLstrip), c.statementOpenForceLstrip),
      c.expressionOpen), c.expressionOpenForceLstrip), c.commentOpen), c.commentOpenForceLstrip)
  }

  /** Every opening delimiter starts with a character the fast search stops at. */
  predicate Covers(c: Config) {
    && GoodDelimiters(c)
    && c.lineStatement[0] in c.openChars && c.statementOpen[0] in c.openChars
    && c.expressionOpen[0] in c.openChars && c.commentOpen[0] in c.openChars
  }

  lemma OpenCharsCover(c: Config)
    requires GoodDelimiters(c)
    ensures Covers(c.(openChars := OpenChars(c)))
    ensures forall i, j | 0 <= i < j < |OpenChars(c)| :: OpenChars(c)[i] != OpenChars(c)[j]
  {
    assert Distinct("");
    AddDistinct("", c.lineStatement);
    var s1 := AddChar("", c.lineStatement);
    AddDistinct(s1, c.statementOpen);
    var s2 := AddChar(s1, c.statementOpen);
    AddDistinct(s2, c.statementOpenNoLstrip);
    var s3 := AddChar(s2, c.statementOpenNoLstrip);
    AddDistinct(s3, c.statementOpenForceLstrip);
    var s4 := AddChar(s3, c.statementOpenForceLstrip);
    AddDistinct(s4, c.expressionOpen);
    var s5 := AddChar(s4, c.expressionOpen);
    AddDistinct(s5, c.expressionOpenForceLstrip);
    var s6 := AddChar(s5, c.expressionOpenForceLstrip);
    AddDistinct(s6, c.commentOpen);
    AddDistinct(AddChar(s6, c.commentOpen), c.commentOpenForceLstrip);
  }

  predicate Distinct(s: string) {
    forall i, j | 0 <= i < j < |s| :: s[i] != s[j]
  }

  lemma {:induction false} AddDistinct(s: string, delimiter: string)
    requires Distinct(s) && delimiter != ""
    ensures Distinct(AddChar(s, delimiter)) && delimiter[0] in AddChar(s, delimiter)
    ensures forall c | c in s :: c in AddChar(s, delimiter)
  {
  }

  // ---------------------------------------------------------------------- opening

  /** The state that an opening delimiter at `p` leads to. */
  function OpenAt(c: Config, s: string, p: nat): Option<State>
    requires p <= |s|
  {
    if StartsWith(s, p, c.expressionOpen) then
      Some(if StartsWith(s, p, c.expressionOpenForceLstrip) then ExpressionStartForceLstrip else ExpressionStart)
    else if StartsWith(s, p, c.statementOpen) then
      Some(if StartsWith(s, p, c.statementOpenNoLstrip) then StatementStartNoLstrip
           else if StartsWith(s, p, c.statementOpenForceLstrip) then StatementStartForceLstrip
           else StatementStart)
    else if StartsWith(s, p, c.commentOpen) then
      Some(if StartsWith(s, p, c.commentOpenForceLstrip) then CommentStartForceLstrip else CommentStart)
    else if (p == 0 || s[p - 1] == '\n') && StartsWith(s, p, c.lineStatement) then Some(LineStart)
    else None
  }

  /** The leftmost opening delimiter from `p` on; the end of the input if there is none. */
  function FirstOpen(c: Config, s: string, p: nat): (q: nat)
    requires p <= |s|
    ensures p <= q <= |s|
    decreases |s| - p
  {
    if p == |s| || OpenAt(c, s, p).Some? then p else FirstOpen(c, s, p + 1)
  }

  predicate StripsLeft(c: Config, st: State) {
    || st.ExpressionStartForceLstrip? || st.StatementStartForceLstrip? || st.CommentStartForceLstrip?
    || (c.lstripBlocks && (st.StatementStart? || st.CommentStart?))
  }

  /** clear_final_line_if_whitespace(): `text` without the blanks after its last newline. */
  function ClearFinalLine(text: string): string {
    var k := BlankFrom(text, |text|);
    if k == 0 || text[k - 1] == '\n' || text[k - 1] == '\r' then text[..k] else text
  }

  /** Where the blanks that end the first `k` characters start. */
  function BlankFrom(text: string, k: nat): (j: nat)
    requires k <= |text|
    ensures j <= k
  {
    if k > 0 && (text[k - 1] == ' ' || text[k - 1] == '\t') then BlankFrom(text, k - 1) else k
  }

  function Delimiter(c: Config, st: State): string {
    match st
    case ExpressionStart => c.expressionOpen
    case ExpressionStartForceLstrip => c.expressionOpenForceLstrip
    case LineStart => c.lineStatement
    case StatementStart => c.statementOpen
    case StatementStartNoLstrip => c.statementOpenNoLstrip
    case StatementStartForceLstrip => c.statementOpenForceLstrip
    case CommentStart => c.commentOpen
    case CommentStartForceLstrip => c.commentOpenForceLstrip
    case _ => ""
  }

  predicate IsStart(st: State) {
    !st.InText? && !IsBody(st)
  }

  predicate IsBody(st: State) {
    st.ExpressionBody? || st.LineBody? || st.StatementBody? || st.CommentBody?
  }

  function BodyOf(st: State): (State, Kind)
    requires IsStart(st)
  {
    if st.ExpressionStart? || st.ExpressionStartForceLstrip? then (ExpressionBody, ExpressionOpen)
    else if st.LineStart? then (LineBody, LineStatementOpen)
    else if st.CommentStart? || st.CommentStartForceLstrip? then (CommentBody, CommentOpen)
    else (StatementBody, StatementOpen)
  }

  /** The token of an opening delimiter at `m.pos`; `from` is where its text starts. */
  function OpenToken(c: Config, s: string, from: nat, m: Mode): Scanned
    requires IsStart(m.state) && from <= m.pos && StartsWith(s, m.pos, Delimiter(c, m.state))
  {
    var end := m.pos + |Delimiter(c, m.state)|;
    Scanned(Mode(BodyOf(m.state).0, m.operand, end), Token(BodyOf(m.state).1, s[from..end]))
  }

  function TextToken(c: Config, s: string, m: Mode): Scanned
    requires m.state.InText? && m.pos < |s|
  {
    var p := FirstOpen(c, s, m.pos);
    if p == |s| then Scanned(m.(pos := p), Token(Text, s[m.pos..]))
    else
      OpensHere(c, s, m.pos);
      var st := OpenAt(c, s, p).value;
      var text := if StripsLeft(c, st) then ClearFinalLine(s[m.pos..p]) else s[m.pos..p];
      if text == "" then OpenToken(c, s, m.pos, Mode(st, m.operand, p))
      else Scanned(Mode(st, m.operand, p), Token(Text, text))
  }

  lemma {:induction false} OpensHere(c: Config, s: string, p: nat)
    requires p <= |s|
    ensures var q := FirstOpen(c, s, p);
            && (q < |s| ==> OpenAt(c, s, q).Some?)
            && (OpenAt(c, s, q).Some? ==> StartsWith(s, q, Delimiter(c, OpenAt(c, s, q).value)) && IsStart(OpenAt(c, s, q).value))
            && (forall r | p <= r < q :: OpenAt(c, s, r).None?)
    decreases |s| - p
  {
    if p < |s| && OpenAt(c, s, p).None? {
      OpensHere(c, s, p + 1);
    }
  }

  // ------------------------------------------------------------------- bodies

  predicate IsAlpha(c: char) {
    'a' <= c <= 'z' || 'A' <= c <= 'Z'
  }

  predicate IsDigit(c: char) {
    '0' <= c <= '9'
  }

  predicate InId(c: char) {
    IsAlpha(c) || IsDigit(c) || c == '.' || c == '/' || c == '_' || c == '-'
  }

  predicate InNumber(s: string, p: nat)
    requires p < |s|
  {
    || IsDigit(s[p]) || s[p] == '.' || s[p] == 'e' || s[p] == 'E'
    || ((s[p] == '+' || s[p] == '-') && (p == 0 || s[p - 1] == 'e' || s[p - 1] == 'E'))
  }

  function IdEnd(s: string, p: nat): (q: nat)
    requires p <= |s|
    ensures p <= q <= |s|
    decreases |s| - p
  {
    if p < |s| && InId(s[p]) then IdEnd(s, p + 1) else p
  }

  function NumberEnd(s: string, p: nat): (q: nat)
    requires p <= |s|
    ensures p <= q <= |s|
    decreases |s| - p
  {
    if p < |s| && InNumber(s, p) then NumberEnd(s, p + 1) else p
  }

  function StringEnd(s: string, p: nat, escape: bool, quote: char): (q: nat)
    requires p <= |s|
    ensures p <= q <= |s|
    decreases |s| - p
  {
    if p == |s| then p
    else if s[p] == '\\' then StringEnd(s, p + 1, !escape, quote)
    else if !escape && s[p] == quote then p + 1
    else StringEnd(s, p + 1, false, quote)
  }

  predicate IsBlank(c: char) {
    c == ' ' || c == '\t' || c == '\n' || c == '\r'
  }

  function SkipBlank(s: string, p: nat): (q: nat)
    requires p <= |s|
    ensures p <= q <= |s|
    decreases |s| - p
  {
    if p < |s| && IsBlank(s[p]) then SkipBlank(s, p + 1) else p
  }

  function SkipSpaces(s: string, p: nat): (q: nat)
    requires p <= |s|
    ensures p <= q <= |s|
    decreases |s| - p
  {
    if p < |s| && (s[p] == ' ' || s[p] == '\t') then SkipSpaces(s, p + 1) else p
  }

  /** skip_whitespaces_and_first_newline() */
  function SkipLine(s: string, p: nat): (q: nat)
    requires p <= |s|
    ensures p <= q <= |s|
  {
    var k := SkipSpaces(s, p);
    if k < |s| && s[k] == '\n' then k + 1
    else if k < |s| && s[k] == '\r' then if k + 1 < |s| && s[k + 1] == '\n' then k + 2 else k + 1
    else k
  }

  /** How a body ends. */
  datatype Closing = Closing(close: string, kind: Kind, closeTrim: string, trim: bool)

  function ClosingOf(c: Config, st: State): Closing
    requires IsBody(st) && !st.CommentBody?
  {
    if st.ExpressionBody? then Closing(c.expressionClose, ExpressionClose, c.expressionCloseForceRstrip, false)
    else if st.LineBody? then Closing("\n", LineStatementClose, "", false)
    else Closing(c.statementClose, StatementClose, c.statementCloseForceRstrip, c.trimBlocks)
  }

  predicate ClosesTrimmed(z: Closing, s: string, p: nat) {
    z.closeTrim != "" && StartsWith(s, p, z.closeTrim)
  }

  predicate ClosesAt(z: Closing, s: string, p: nat) {
    ClosesTrimmed(z, s, p) || StartsWith(s, p, z.close)
  }

  /** The first character of the next token of a body. */
  function BodyStart(z: Closing, s: string, p: nat): (q: nat)
    requires p <= |s|
    ensures p <= q <= |s|
    decreases |s| - p
  {
    if p == |s| then p
    else if s[p] == ' ' || s[p] == '\t' || s[p] == '\r' then BodyStart(z, s, p + 1)
    else if ClosesAt(z, s, p) then p
    else if s[p] == '\n' then BodyStart(z, s, p + 1)
    else p
  }

  /** A token inside a body: its kind, its end, and whether a minus after it is an operator. */
  datatype Lexed = Lexed(kind: Kind, end: nat, operand: bool)

  function OneOrTwo(s: string, p: nat, one: Kind, two: Kind): (r: Lexed)
    requires p < |s|
    ensures p < r.end <= |s|
  {
    if p + 1 < |s| && s[p + 1] == '=' then Lexed(two, p + 2, false) else Lexed(one, p + 1, false)
  }

  function Lexeme(s: string, p: nat, operand: bool): (r: Lexed)
    requires p < |s|
    ensures p < r.end <= |s|
  {
    var ch := s[p];
    if IsAlpha(ch) || ch == '_' || ch == '@' || ch == '$' then Lexed(Id, IdEnd(s, p + 1), true)
    else if IsDigit(ch) then Lexed(Number, NumberEnd(s, p + 1), true)
    else if ch == '-' then
      if operand then Lexed(Minus, p + 1, false) else Lexed(Number, NumberEnd(s, p + 1), false)
    else if ch == '\"' then Lexed(String, StringEnd(s, p + 1, false, ch), false)
    else if ch == '>' then OneOrTwo(s, p, GreaterThan, GreaterEqual)
    else if ch == '<' then OneOrTwo(s, p, LessThan, LessEqual)
    else if ch == '=' then OneOrTwo(s, p, Unknown, Equal)
    else if ch == '!' then OneOrTwo(s, p, Unknown, NotEqual)
    else Lexed(Punctuation(ch), p + 1, ch == ')' || ch == ']' || ch == '}')
  }

  function Punctuation(ch: char): Kind {
    match ch
    case '+' => Plus case '*' => Times case '/' => Slash case '^' => Power case '%' => Percent
    case '.' => Dot case ',' => Comma case ':' => Colon case '|' => Pipe
    case '(' => LeftParen case ')' => RightParen case '[' => LeftBracket case ']' => RightBracket
    case '{' => LeftBrace case '}' => RightBrace
    case _ => Unknown
  }

  function BodyToken(c: Config, s: string, m: Mode): Scanned
    requires IsBody(m.state) && !m.state.CommentBody? && m.pos <= |s|
  {
    var z := ClosingOf(c, m.state);
    var p := BodyStart(z, s, m.pos);
    if p == |s| then Scanned(m, Token(Eof, ""))
    else if ClosesTrimmed(z, s, p) then
      var end := p + |z.closeTrim|;
      Scanned(Mode(InText, m.operand, SkipBlank(s, end)), Token(z.kind, s[p..end]))
    else if StartsWith(s, p, z.close) then
      var end := p + |z.close|;
      Scanned(Mode(InText, m.operand, if z.trim then SkipLine(s, end) else end), Token(z.kind, s[p..end]))
    else
      var l := Lexeme(s, p, m.operand);
      Scanned(Mode(m.state, l.operand, l.end), Token(l.kind, s[p..l.end]))
  }

  /** The leftmost place from `p` on where `needle` stands. */
  function Find(s: string, p: nat, needle: string): (r: Option<nat>)
    requires p <= |s|
    ensures r.Some? ==> p <= r.value <= |s| && StartsWith(s, r.value, needle)
    decreases |s| - p
  {
    if StartsWith(s, p, needle) then Some(p) else if p == |s| then None else Find(s, p + 1, needle)
  }

  function CommentToken(c: Config, s: string, m: Mode): Scanned
    requires m.state.CommentBody? && 0 < m.pos <= |s|
  {
    var e := Find(s, m.pos, c.commentClose);
    if e.None? then Scanned(m.(pos := |s|), Token(Eof, s[m.pos..]))
    else
      var end := e.value + |c.commentClose|;
      var trim := StartsWith(s, e.value - 1, c.commentCloseForceRstrip) || c.trimBlocks;
      Scanned(Mode(InText, m.operand, if trim then SkipLine(s, end) else end), Token(CommentClose, s[m.pos..end]))
  }

  /** The lexer stands inside the input, and in a start state at its delimiter. */
  predicate ValidMode(c: Config, s: string, m: Mode) {
    && m.pos <= |s|
    && (IsStart(m.state) ==> StartsWith(s, m.pos, Delimiter(c, m.state)))
    && (m.state.CommentBody? ==> m.pos > 0)
  }

  /** scan() */
  function Scan(c: Config, s: string, m: Mode): Scanned
    requires ValidMode(c, s, m)
  {
    if m.pos == |s| then Scanned(m, Token(Eof, ""))
    else if m.state.InText? then TextToken(c, s, m)
    else if IsStart(m.state) then OpenToken(c, s, m.pos, m)
    else if m.state.CommentBody? then CommentToken(c, s, m)
    else BodyToken(c, s, m)
  }
}
