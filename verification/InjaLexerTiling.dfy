/**
Every scan moves forward, and the tokens of a template cover it without gap or
overlap: text between the openings, and regions from an opening to its close.
*/
module InjaLexerTiling {
  import opened Wrappers
  import opened InjaLexer

  const START := Mode(InText, false, 0)

  lemma {:induction false} OpenAtHas(c: Config, s: string, p: nat)
    requires p <= |s| && OpenAt(c, s, p).Some?
    ensures var st := OpenAt(c, s, p).value; IsStart(st) && StartsWith(s, p, Delimiter(c, st))
  {
  }

  lemma {:induction false} DelimiterNotEmpty(c: Config, st: State)
    requires GoodDelimiters(c) && IsStart(st)
    ensures Delimiter(c, st) != ""
  {
  }

  /** A scan that does not report the end moves on, and stays inside the input. */
  lemma {:induction false} ScanProgress(c: Config, s: string, m: Mode)
    requires GoodDelimiters(c) && ValidMode(c, s, m)
    ensures var r := Scan(c, s, m);
            && ValidMode(c, s, r.after) && m.pos <= r.after.pos
            && (!r.token.kind.Eof? ==> m.pos < r.after.pos)
  {
    if m.pos < |s| {
      if m.state.InText? {
        TextProgress(c, s, m);
      } else if IsStart(m.state) {
        DelimiterNotEmpty(c, m.state);
      }
    }
  }

  lemma {:induction false} TextProgress(c: Config, s: string, m: Mode)
    requires GoodDelimiters(c) && m.state.InText? && m.pos < |s|
    ensures var r := TextToken(c, s, m);
            ValidMode(c, s, r.after) && m.pos < r.after.pos && !r.token.kind.Eof?
  {
    OpensHere(c, s, m.pos);
    var p := FirstOpen(c, s, m.pos);
    if p < |s| {
      var st := OpenAt(c, s, p).value;
      OpenAtHas(c, s, p);
      DelimiterNotEmpty(c, st);
      if p == m.pos {
        assert s[m.pos..p] == "";
        assert ClearFinalLine("") == "";
      }
    }
  }

  // -------------------------------------------------------------------- all tokens

  /** Scanning from `m` until the end is reported. */
  function Lex(c: Config, s: string, m: Mode): seq<Scanned>
    requires GoodDelimiters(c) && ValidMode(c, s, m)
    decreases |s| - m.pos
  {
    var r := Scan(c, s, m);
    ScanProgress(c, s, m);
    if r.token.kind.Eof? then [] else [r] + Lex(c, s, r.after)
  }

  /** The texts of the text tokens, and for the others the input they were scanned from. */
  function Spelled(s: string, from: nat, ts: seq<Scanned>): string
    decreases |ts|
  {
    if ts == [] then ""
    else
      var to := ts[0].after.pos;
      (if ts[0].token.kind.Text? then ts[0].token.text else if from <= to <= |s| then s[from..to] else "")
      + Spelled(s, to, ts[1..])
  }

  function LastMode(m: Mode, ts: seq<Scanned>): Mode {
    if ts == [] then m else ts[|ts| - 1].after
  }

  // --------------------------------------------------------------- without trimming

  predicate Absent(s: string, delimiter: string) {
    forall p | 0 <= p <= |s| :: !StartsWith(s, p, delimiter)
  }

  /** Nothing asks the lexer to drop blanks around a region. */
  predicate Untrimmed(c: Config, s: string) {
    && !c.trimBlocks && !c.lstripBlocks
    && Absent(s, c.expressionOpenForceLstrip) && Absent(s, c.statementOpenForceLstrip)
    && Absent(s, c.commentOpenForceLstrip)
    && (c.expressionCloseForceRstrip == "" || Absent(s, c.expressionCloseForceRstrip))
    && (c.statementCloseForceRstrip == "" || Absent(s, c.statementCloseForceRstrip))
    && Absent(s, c.commentCloseForceRstrip)
  }

  predicate EndsWith(s: string, p: nat, suffix: string) {
    |suffix| <= p <= |s| && s[p - |suffix|..p] == suffix
  }

  function CloseOf(c: Config, st: State): string
    requires IsBody(st)
  {
    if st.CommentBody? then c.commentClose else ClosingOf(c, st).close
  }

  function CloseKind(st: State): Kind
    requires IsBody(st)
  {
    match st
    case ExpressionBody => ExpressionClose
    case LineBody => LineStatementClose
    case StatementBody => StatementClose
    case _ => CommentClose
  }

  /**
  One token without trimming. Text has no opening in it and ends at one or at the
  end; an opening is its delimiter; a body is left exactly after its close.
  */
  predicate Tile(c: Config, s: string, m: Mode, r: Scanned)
    requires ValidMode(c, s, m) && r.after.pos <= |s|
  {
    var kind, to := r.token.kind, r.after.pos;
    if kind.Text? then
      && m.state.InText? && m.pos < to && r.token.text == s[m.pos..to]
      && (forall q | m.pos <= q < to :: OpenAt(c, s, q).None?)
      && (if to < |s| then OpenAt(c, s, to) == Some(r.after.state) else r.after.state.InText?)
    else if !IsBody(m.state) then
      && var st := if m.state.InText? then OpenAt(c, s, m.pos) else Some(m.state);
      && st.Some? && IsStart(st.value) && BodyOf(st.value) == (r.after.state, kind)
      && m.pos <= to && s[m.pos..to] == r.token.text == Delimiter(c, st.value)
    else if kind == CloseKind(m.state) then
      r.after.state.InText? && m.pos < to && EndsWith(s, to, CloseOf(c, m.state))
    else m.pos < to && r.after.state == m.state
  }

  lemma {:induction false} ScanTiles(c: Config, s: string, m: Mode)
    requires GoodDelimiters(c) && Untrimmed(c, s) && ValidMode(c, s, m)
    requires !Scan(c, s, m).token.kind.Eof?
    ensures Scan(c, s, m).after.pos <= |s| && Tile(c, s, m, Scan(c, s, m))
  {
    ScanProgress(c, s, m);
    if m.state.InText? {
      TextTiles(c, s, m);
    } else if m.state.CommentBody? {
      CommentTiles(c, s, m);
    } else if IsBody(m.state) {
      BodyTiles(c, s, m);
    }
  }

  lemma {:induction false} TextTiles(c: Config, s: string, m: Mode)
    requires GoodDelimiters(c) && Untrimmed(c, s) && m.state.InText? && m.pos < |s|
    ensures TextToken(c, s, m).after.pos <= |s| && Tile(c, s, m, TextToken(c, s, m))
  {
    OpensHere(c, s, m.pos);
    var p := FirstOpen(c, s, m.pos);
    if p < |s| {
      var st := OpenAt(c, s, p).value;
      OpenAtHas(c, s, p);
      assert !StripsLeft(c, st);
      if p > m.pos {
        assert |s[m.pos..p]| == p - m.pos;
      }
    }
  }

  lemma {:induction false} CommentTiles(c: Config, s: string, m: Mode)
    requires GoodDelimiters(c) && Untrimmed(c, s) && ValidMode(c, s, m) && m.state.CommentBody? && m.pos < |s|
    requires !CommentToken(c, s, m).token.kind.Eof?
    ensures CommentToken(c, s, m).after.pos <= |s| && Tile(c, s, m, CommentToken(c, s, m))
  {
    var e := Find(s, m.pos, c.commentClose).value;
    assert !StartsWith(s, e - 1, c.commentCloseForceRstrip);
  }

  lemma {:induction false} BodyTiles(c: Config, s: string, m: Mode)
    requires GoodDelimiters(c) && Untrimmed(c, s) && ValidMode(c, s, m)
    requires IsBody(m.state) && !m.state.CommentBody? && m.pos < |s|
    requires !BodyToken(c, s, m).token.kind.Eof?
    ensures BodyToken(c, s, m).after.pos <= |s| && Tile(c, s, m, BodyToken(c, s, m))
  {
    var z := ClosingOf(c, m.state);
    var p := BodyStart(z, s, m.pos);
    assert !ClosesTrimmed(z, s, p);
    LexemeIsNoDelimiter(s, p, m.operand);
  }

  lemma {:induction false} LexemeIsNoDelimiter(s: string, p: nat, operand: bool)
    requires p < |s|
    ensures var k := Lexeme(s, p, operand).kind;
            && !k.Text? && !k.ExpressionClose? && !k.LineStatementClose? && !k.StatementClose? && !k.CommentClose?
  {
  }

  /** The tokens follow each other, every one a tile, and the last is followed by the end. */
  ghost predicate Tiled(c: Config, s: string, m: Mode, ts: seq<Scanned>)
    decreases |ts|
  {
    && ValidMode(c, s, m)
    && if ts == [] then !IsBody(m.state) ==> m.pos == |s|
       else
         var to := ts[0].after;
         m.pos < to.pos <= |s| && Tile(c, s, m, ts[0]) && Tiled(c, s, to, ts[1..])
  }

  /** Without trimming, what is scanned is nothing but tiles. */
  lemma {:induction false} TokensAreTiles(c: Config, s: string, m: Mode)
    requires GoodDelimiters(c) && Untrimmed(c, s) && ValidMode(c, s, m)
    ensures Tiled(c, s, m, Lex(c, s, m))
    decreases |s| - m.pos
  {
    var r := Scan(c, s, m);
    ScanProgress(c, s, m);
    if r.token.kind.Eof? {
      OnlyBodiesEndEarly(c, s, m);
    } else {
      ScanTiles(c, s, m);
      TokensAreTiles(c, s, r.after);
      AddTile(c, s, m, r, Lex(c, s, r.after));
    }
  }

  lemma {:induction false} AddTile(c: Config, s: string, m: Mode, r: Scanned, rest: seq<Scanned>)
    requires ValidMode(c, s, m) && m.pos < r.after.pos <= |s|
    requires Tile(c, s, m, r) && Tiled(c, s, r.after, rest)
    ensures Tiled(c, s, m, [r] + rest)
  {
    assert ([r] + rest)[1..] == rest;
  }

  /** Tiles put side by side are the input between their ends. */
  lemma {:induction false} TilesSpell(c: Config, s: string, m: Mode, ts: seq<Scanned>)
    requires Tiled(c, s, m, ts)
    ensures var end := LastMode(m, ts);
            && m.pos <= end.pos <= |s|
            && Spelled(s, m.pos, ts) == s[m.pos..end.pos]
            && (!IsBody(end.state) ==> end.pos == |s|)
    decreases |ts|
  {
    if ts != [] {
      var to := ts[0].after;
      TilesSpell(c, s, to, ts[1..]);
      var end := LastMode(to, ts[1..]);
      assert LastMode(m, ts) == end;
      assert s[m.pos..to.pos] + s[to.pos..end.pos] == s[m.pos..end.pos];
    }
  }

  /** The tokens of a template, put side by side, are the template. */
  lemma {:induction false} TokensTileTheInput(c: Config, s: string)
    requires GoodDelimiters(c) && Untrimmed(c, s)
    ensures var ts := Lex(c, s, START); var end := LastMode(START, ts);
            && Tiled(c, s, START, ts) && end.pos <= |s|
            && Spelled(s, 0, ts) == s[..end.pos]
            && (!IsBody(end.state) ==> Spelled(s, 0, ts) == s)
  {
    TokensAreTiles(c, s, START);
    TilesSpell(c, s, START, Lex(c, s, START));
  }

  lemma {:induction false} OnlyBodiesEndEarly(c: Config, s: string, m: Mode)
    requires GoodDelimiters(c) && ValidMode(c, s, m) && Scan(c, s, m).token.kind.Eof?
    ensures !IsBody(m.state) ==> m.pos == |s|
  {
    if m.pos < |s| && m.state.InText? {
      TextProgress(c, s, m);
    }
  }

  // ------------------------------------------------------------------ with trimming

  predicate Blank(s: string, p: nat, q: nat) {
    forall i | p <= i < q && i < |s| :: IsBlank(s[i])
  }

  lemma {:induction false} SkippedIsBlank(s: string, p: nat)
    requires p <= |s|
    ensures Blank(s, p, SkipBlank(s, p)) && Blank(s, p, SkipSpaces(s, p))
    decreases |s| - p
  {
    if p < |s| {
      SkippedIsBlank(s, p + 1);
    }
  }

  lemma {:induction false} LineIsBlank(s: string, p: nat)
    requires p <= |s|
    ensures Blank(s, p, SkipLine(s, p))
  {
    SkippedIsBlank(s, p);
  }

  lemma {:induction false} ClearedIsBlank(text: string, k: nat)
    requires k <= |text|
    ensures Blank(text, BlankFrom(text, k), k)
  {
    if k > 0 && (text[k - 1] == ' ' || text[k - 1] == '\t') {
      ClearedIsBlank(text, k - 1);
    }
  }

  /**
  Whatever trimming is asked for, it drops blanks only: a text token is the text up
  to some `k`, a closing token ends at some `k`, and from there to where the next
  scan starts there are only blanks.
  */
  lemma {:induction false} TrimmingDropsOnlyBlanks(c: Config, s: string, m: Mode) returns (k: nat)
    requires GoodDelimiters(c) && ValidMode(c, s, m) && m.pos < |s|
    ensures var r := Scan(c, s, m);
            && (r.token.kind.Text? ==> m.pos < k <= r.after.pos <= |s| && r.token.text == s[m.pos..k]
                                       && Blank(s, k, r.after.pos))
            && (IsBody(m.state) && r.after.state.InText? ==>
                  m.pos < k <= r.after.pos <= |s| && EndsWith(s, k, r.token.text) && Blank(s, k, r.after.pos))
  {
    k := 0;
    if m.state.InText? {
      k := TextTrim(c, s, m);
    } else if m.state.CommentBody? {
      k := CommentTrim(c, s, m);
    } else if IsBody(m.state) {
      k := BodyTrim(c, s, m);
    }
  }

  lemma {:induction false} TextTrim(c: Config, s: string, m: Mode) returns (k: nat)
    requires GoodDelimiters(c) && m.state.InText? && m.pos < |s|
    ensures var r := TextToken(c, s, m);
            r.token.kind.Text? ==>
              m.pos < k <= r.after.pos <= |s| && r.token.text == s[m.pos..k] && Blank(s, k, r.after.pos)
  {
    var p := FirstOpen(c, s, m.pos);
    OpensHere(c, s, m.pos);
    k := p;
    if p < |s| && StripsLeft(c, OpenAt(c, s, p).value) {
      k := m.pos + |ClearFinalLine(s[m.pos..p])|;
      ClearedWithin(s, m.pos, p);
    }
  }

  lemma {:induction false} ClearedWithin(s: string, from: nat, p: nat)
    requires from <= p <= |s|
    ensures var k := from + |ClearFinalLine(s[from..p])|;
            k <= p && ClearFinalLine(s[from..p]) == s[from..k] && Blank(s, k, p)
  {
    var text := s[from..p];
    ClearedIsBlank(text, |text|);
    var k := from + |ClearFinalLine(text)|;
    forall i | k <= i < p
      ensures IsBlank(s[i])
    {
      assert IsBlank(text[i - from]);
    }
  }

  lemma {:induction false} CommentTrim(c: Config, s: string, m: Mode) returns (k: nat)
    requires GoodDelimiters(c) && ValidMode(c, s, m) && m.state.CommentBody?
    ensures var r := CommentToken(c, s, m);
            r.after.state.InText? ==>
              m.pos < k <= r.after.pos <= |s| && EndsWith(s, k, r.token.text) && Blank(s, k, r.after.pos)
  {
    var e := Find(s, m.pos, c.commentClose);
    k := 0;
    if e.Some? {
      k := e.value + |c.commentClose|;
      LineIsBlank(s, k);
    }
  }

  lemma {:induction false} BodyTrim(c: Config, s: string, m: Mode) returns (k: nat)
    requires GoodDelimiters(c) && ValidMode(c, s, m) && IsBody(m.state) && !m.state.CommentBody?
    ensures var r := BodyToken(c, s, m);
            r.after.state.InText? ==>
              m.pos < k <= r.after.pos <= |s| && EndsWith(s, k, r.token.text) && Blank(s, k, r.after.pos)
  {
    var z := ClosingOf(c, m.state);
    var p := BodyStart(z, s, m.pos);
    k := 0;
    if p < |s| && ClosesAt(z, s, p) {
      k := CloseTrim(c, s, m, p);
    } else {
      assert BodyToken(c, s, m).after.state == m.state;
    }
  }

  lemma {:induction false} CloseTrim(c: Config, s: string, m: Mode, p: nat) returns (k: nat)
    requires GoodDelimiters(c) && IsBody(m.state) && !m.state.CommentBody? && m.pos < |s|
    requires p == BodyStart(ClosingOf(c, m.state), s, m.pos) < |s| && ClosesAt(ClosingOf(c, m.state), s, p)
    ensures var r := BodyToken(c, s, m);
            m.pos < k <= r.after.pos <= |s| && EndsWith(s, k, r.token.text) && Blank(s, k, r.after.pos)
  {
    var z := ClosingOf(c, m.state);
    k := p + if ClosesTrimmed(z, s, p) then |z.closeTrim| else |z.close|;
    LineIsBlank(s, k);
    SkippedIsBlank(s, k);
  }
}
