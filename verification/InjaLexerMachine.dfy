/**
The lexer object: it jumps from one possible opening character to the next instead
of trying every position, and keeps its place in fields.
*/
module InjaLexerMachine {
  import opened Wrappers
  import opened InjaLexer
  import T = InjaLexerTiling

  const BYTE_ORDER_MARK := "\U{EF}\U{BB}\U{BF}"

  /** find_first_of(): the first character from `p` on that is one of `chars`. */
  method FindFirstOf(s: string, p: nat, chars: string) returns (q: nat)
    requires p <= |s|
    ensures p <= q <= |s| && (q < |s| ==> s[q] in chars)
    ensures forall r | p <= r < q :: s[r] !in chars
  {
    q := p;
    while q < |s| && s[q] !in chars
      invariant p <= q <= |s|
      invariant forall r | p <= r < q :: s[r] !in chars
    {
      q := q + 1;
    }
  }

  /** Where no opening character stands, no opening delimiter does. */
  lemma {:induction false} SkipsNoOpening(c: Config, s: string, p: nat)
    requires Covers(c) && p < |s| && s[p] !in c.openChars
    ensures OpenAt(c, s, p).None?
  {
  }

  lemma {:induction false} FirstOpenSkips(c: Config, s: string, p: nat, q: nat)
    requires Covers(c) && p <= q <= |s| && forall r | p <= r < q :: s[r] !in c.openChars
    ensures FirstOpen(c, s, p) == FirstOpen(c, s, q)
    decreases q - p
  {
    if p < q {
      SkipsNoOpening(c, s, p);
      FirstOpenSkips(c, s, p + 1, q);
    }
  }

  class Lexer {
    const config: Config
    var input: string
    var state: State
    var operand: bool // minus_state == MinusState::Operator
    var tokStart: nat
    var pos: nat

    ghost function Now(): Mode
      reads this
    {
      Mode(state, operand, pos)
    }

    ghost predicate Valid()
      reads this
    {
      Covers(config) && ValidMode(config, input, Now())
    }

    constructor (config: Config)
      ensures this.config == config && input == "" && Now() == T.START
    {
      this.config := config;
      input, state, operand, tokStart, pos := "", InText, false, 0, 0;
    }

    /** start(): from the beginning of a template, after a byte order mark. */
    method Start(template: string)
      modifies this
      ensures Now() == T.START
      ensures StartsWith(template, 0, BYTE_ORDER_MARK) ==> BYTE_ORDER_MARK + input == template
      ensures !StartsWith(template, 0, BYTE_ORDER_MARK) ==> input == template
    {
      input, state, operand, tokStart, pos := template, InText, false, 0, 0;
      if StartsWith(template, 0, BYTE_ORDER_MARK) {
        input := template[3..];
      }
    }

    method ScanId() returns (token: Token)
      requires tokStart <= pos <= |input|
      modifies this`pos
      ensures pos == IdEnd(input, old(pos)) && token == Token(Id, input[tokStart..pos])
    {
      while pos < |input| && InId(input[pos])
        invariant tokStart <= pos <= |input| && IdEnd(input, pos) == IdEnd(input, old(pos))
      {
        pos := pos + 1;
      }
      token := Token(Id, input[tokStart..pos]);
    }

    method ScanNumber() returns (token: Token)
      requires tokStart <= pos <= |input|
      modifies this`pos
      ensures pos == NumberEnd(input, old(pos)) && token == Token(Number, input[tokStart..pos])
    {
      while pos < |input| && InNumber(input, pos)
        invariant tokStart <= pos <= |input| && NumberEnd(input, pos) == NumberEnd(input, old(pos))
      {
        pos := pos + 1;
      }
      token := Token(Number, input[tokStart..pos]);
    }

    method ScanString() returns (token: Token)
      requires tokStart < pos <= |input|
      modifies this`pos
      ensures pos == StringEnd(input, old(pos), false, input[tokStart])
      ensures token == Token(String, input[tokStart..pos])
    {
      var escape := false;
      while pos < |input|
        invariant tokStart < pos <= |input|
        invariant StringEnd(input, pos, escape, input[tokStart]) == StringEnd(input, old(pos), false, input[tokStart])
        decreases |input| - pos
      {
        var ch := input[pos];
        pos := pos + 1;
        if ch == '\\' {
          escape := !escape;
        } else if !escape && ch == input[tokStart] {
          break;
        } else {
          escape := false;
        }
      }
      token := Token(String, input[tokStart..pos]);
    }

    method SkipWhitespacesAndNewlines()
      requires pos <= |input|
      modifies this`pos
      ensures pos == SkipBlank(input, old(pos))
    {
      while pos < |input| && IsBlank(input[pos])
        invariant pos <= |input| && SkipBlank(input, pos) == SkipBlank(input, old(pos))
      {
        pos := pos + 1;
      }
    }

    method SkipWhitespacesAndFirstNewline()
      requires pos <= |input|
      modifies this`pos
      ensures pos == SkipLine(input, old(pos))
    {
      while pos < |input| && (input[pos] == ' ' || input[pos] == '\t')
        invariant pos <= |input| && SkipSpaces(input, pos) == SkipSpaces(input, old(pos))
      {
        pos := pos + 1;
      }
      if pos < |input| {
        var ch := input[pos];
        if ch == '\n' {
          pos := pos + 1;
        } else if ch == '\r' {
          pos := pos + 1;
          if pos < |input| && input[pos] == '\n' {
            pos := pos + 1;
          }
        }
      }
    }

    method ScanLexeme() returns (token: Token)
      requires tokStart < |input|
      modifies this`pos, this`operand
      ensures var l := Lexeme(input, tokStart, old(operand));
              pos == l.end && operand == l.operand && token == Token(l.kind, input[tokStart..l.end])
    {
      var ch := input[tokStart];
      pos := tokStart + 1;
      if IsAlpha(ch) || ch == '_' || ch == '@' || ch == '$' {
        operand := true;
        token := ScanId();
        return;
      }
      var minusIsOperator := operand;
      operand := false;
      if IsDigit(ch) {
        operand := true;
        token := ScanNumber();
      } else if ch == '-' && !minusIsOperator {
        token := ScanNumber();
      } else if ch == '\"' {
        token := ScanString();
      } else if ch == '>' || ch == '<' || ch == '=' || ch == '!' {
        var twice := pos < |input| && input[pos] == '=';
        if twice {
          pos := pos + 1;
        }
        var kind := if ch == '>' then if twice then GreaterEqual else GreaterThan
                    else if ch == '<' then if twice then LessEqual else LessThan
                    else if !twice then Unknown
                    else if ch == '=' then Equal else NotEqual;
        token := Token(kind, input[tokStart..pos]);
      } else {
        operand := ch == ')' || ch == ']' || ch == '}';
        token := Token(if ch == '-' then Minus else Punctuation(ch), input[tokStart..pos]);
      }
    }

    /** Skips blanks, but not a newline that closes the body. */
    method SkipToToken(z: Closing)
      requires tokStart == pos <= |input|
      modifies this`tokStart
      ensures tokStart == BodyStart(z, input, pos)
    {
      while tokStart < |input| && IsBlank(input[tokStart])
            && (input[tokStart] == '\n' ==> !ClosesAt(z, input, tokStart))
        invariant pos <= tokStart <= |input|
        invariant BodyStart(z, input, tokStart) == BodyStart(z, input, pos)
        decreases |input| - tokStart
      {
        tokStart := tokStart + 1;
      }
    }

    method ScanBody(z: Closing) returns (token: Token)
      requires tokStart == pos <= |input| && IsBody(state) && !state.CommentBody? && z == ClosingOf(config, state)
      modifies this
      ensures input == old(input)
      ensures Scanned(Now(), token) == BodyToken(config, input, old(Now()))
    {
      SkipToToken(z);
      if tokStart == |input| {
        return Token(Eof, "");
      }
      if ClosesAt(z, input, tokStart) {
        token := CloseBody(z);
      } else {
        token := ScanLexeme();
      }
    }

    method CloseBody(z: Closing) returns (token: Token)
      requires tokStart < |input| && ClosesAt(z, input, tokStart)
      modifies this`state, this`pos
      ensures state == InText
      ensures if ClosesTrimmed(z, input, tokStart) then
                var end := tokStart + |z.closeTrim|;
                pos == SkipBlank(input, end) && token == Token(z.kind, input[tokStart..end])
              else
                var end := tokStart + |z.close|;
                pos == (if z.trim then SkipLine(input, end) else end) && token == Token(z.kind, input[tokStart..end])
    {
      state := InText;
      if ClosesTrimmed(z, input, tokStart) {
        pos := tokStart + |z.closeTrim|;
        token := Token(z.kind, input[tokStart..pos]);
        SkipWhitespacesAndNewlines();
      } else {
        pos := tokStart + |z.close|;
        token := Token(z.kind, input[tokStart..pos]);
        if z.trim {
          SkipWhitespacesAndFirstNewline();
        }
      }
    }

    /** The fast search: from opening character to opening character. */
    method FindOpening()
      requires Valid() && state.InText? && pos < |input|
      modifies this`pos
      ensures pos == FirstOpen(config, input, old(pos))
    {
      pos := FindFirstOf(input, pos, config.openChars);
      FirstOpenSkips(config, input, old(pos), pos);
      while pos < |input| && OpenAt(config, input, pos).None?
        invariant old(pos) <= pos <= |input|
        invariant FirstOpen(config, input, pos) == FirstOpen(config, input, old(pos))
        decreases |input| - pos
      {
        ghost var after := pos + 1;
        pos := FindFirstOf(input, pos + 1, config.openChars);
        FirstOpenSkips(config, input, after, pos);
      }
    }

    method ClearFinalLineIfWhitespace(text: string) returns (r: string)
      ensures r == ClearFinalLine(text)
    {
      r := text;
      while r != "" && (r[|r| - 1] == ' ' || r[|r| - 1] == '\t')
        invariant r <= text && BlankFrom(text, |text|) == BlankFrom(text, |r|)
        decreases |r|
      {
        r := r[..|r| - 1];
      }
      if r != "" && r[|r| - 1] != '\n' && r[|r| - 1] != '\r' {
        r := text;
      }
    }

    method ScanOpen() returns (token: Token)
      requires tokStart <= pos && IsStart(state) && StartsWith(input, pos, Delimiter(config, state))
      modifies this`pos, this`state
      ensures Scanned(Now(), token) == OpenToken(config, input, tokStart, old(Now()))
    {
      pos := pos + |Delimiter(config, state)|;
      token := Token(BodyOf(state).1, input[tokStart..pos]);
      state := BodyOf(state).0;
    }

    method ScanText() returns (token: Token)
      requires Valid() && tokStart == pos < |input| && state.InText?
      modifies this
      ensures input == old(input)
      ensures Scanned(Now(), token) == TextToken(config, input, old(Now()))
    {
      FindOpening();
      OpensHere(config, input, tokStart);
      if pos == |input| {
        return Token(Text, input[tokStart..pos]);
      }
      state := OpenAt(config, input, pos).value;
      var text := input[tokStart..pos];
      if StripsLeft(config, state) {
        text := ClearFinalLineIfWhitespace(text);
      }
      if text == "" {
        token := ScanOpen();
      } else {
        token := Token(Text, text);
      }
    }

    method ScanComment() returns (token: Token)
      requires tokStart == pos && 0 < pos <= |input| && state.CommentBody?
      modifies this
      ensures input == old(input)
      ensures Scanned(Now(), token) == CommentToken(config, input, old(Now()))
    {
      var end := Find(input, pos, config.commentClose);
      if end.None? {
        pos := |input|;
        return Token(Eof, input[tokStart..pos]);
      }
      var mustRstrip := StartsWith(input, end.value - 1, config.commentCloseForceRstrip);
      state := InText;
      pos := end.value + |config.commentClose|;
      token := Token(CommentClose, input[tokStart..pos]);
      if mustRstrip || config.trimBlocks {
        SkipWhitespacesAndFirstNewline();
      }
    }

    /** scan(): the next token, as if every position had been tried for an opening. */
    method ScanToken() returns (token: Token)
      requires Valid()
      modifies this
      ensures Valid() && input == old(input)
      ensures Scanned(Now(), token) == Scan(config, input, old(Now()))
      ensures !token.kind.Eof? ==> old(pos) < pos <= |input|
    {
      T.ScanProgress(config, input, Now());
      tokStart := pos;
      if tokStart >= |input| {
        return Token(Eof, "");
      }
      if state.InText? {
        token := ScanText();
      } else if IsStart(state) {
        token := ScanOpen();
      } else if state.CommentBody? {
        token := ScanComment();
      } else {
        token := ScanBody(ClosingOf(config, state));
      }
    }
  }
}
