/**
 * The scanner of scanner.ts. `ScanOne` and `LexFrom` are the reference definition of
 * what one `scanToken` call and the whole `scanTokens` loop produce; the class
 * `Scanner` is the cursor-based implementation, proved to produce exactly that.
 */
module Scanning {
  import opened Common
  import opened Tokens
  import opened Diagnostics

  /** Lower-case letters and underscore only: upper-case letters are not letters here. */
  predicate IsAlpha(c: char) { 'a' <= c <= 'z' || c == '_' }

  predicate IsAlphaNumeric(c: char) { IsAlpha(c) || IsDigit(c) }

  /** A reserved-word table: the (word, kind) pairs a keyword map is built from. */
  type KeywordTable = seq<(string, TokenType)>

  /** The scanner's reserved words. */
  const Keywords: KeywordTable := [
    ("and", AND), ("class", CLASS), ("else", ELSE), ("false", FALSE),
    ("for", FOR), ("fun", FUN), ("if", IF), ("nil", NIL),
    ("or", OR), ("print", PRINT), ("return", RETURN), ("super", SUPER),
    ("this", THIS), ("true", TRUE), ("var", VAR), ("while", WHILE)]

  /** Map lookup in a table built from pairs: the kind paired with `text`, if any. */
  function FindKeyword(keywords: KeywordTable, text: string): (k: Option<TokenType>)
    ensures k.Some? ==> exists i :: 0 <= i < |keywords| && keywords[i] == (text, k.value)
    ensures k.None? ==> forall i :: 0 <= i < |keywords| ==> keywords[i].0 != text
    decreases |keywords|
  {
    if keywords == [] then None
    else if keywords[0].0 == text then Some(keywords[0].1)
    else FindKeyword(keywords[1..], text)
  }

  /** The kind of a scanned word: its keyword kind, or IDENTIFIER. */
  function WordKind(keywords: KeywordTable, text: string): TokenType
  {
    var k := FindKeyword(keywords, text);
    if k.Some? then k.value else IDENTIFIER
  }

  /** End of the maximal run of digits starting at `i`. */
  function DigitsEnd(src: string, i: nat): (j: nat)
    requires i <= |src|
    ensures i <= j <= |src|
    ensures forall k :: i <= k < j ==> IsDigit(src[k])
    ensures j == |src| || !IsDigit(src[j])
    decreases |src| - i
  {
    if i < |src| && IsDigit(src[i]) then DigitsEnd(src, i + 1) else i
  }

  /** End of the maximal run of letters, digits and underscores starting at `i`. */
  function WordEnd(src: string, i: nat): (j: nat)
    requires i <= |src|
    ensures i <= j <= |src|
    ensures forall k :: i <= k < j ==> IsAlphaNumeric(src[k])
    ensures j == |src| || !IsAlphaNumeric(src[j])
    decreases |src| - i
  {
    if i < |src| && IsAlphaNumeric(src[i]) then WordEnd(src, i + 1) else i
  }

  /** Position of the first double quote at or after `i`, or |src| when there is none. */
  function QuoteEnd(src: string, i: nat): (j: nat)
    requires i <= |src|
    ensures i <= j <= |src|
    ensures forall k :: i <= k < j ==> src[k] != '"'
    ensures j == |src| || src[j] == '"'
    decreases |src| - i
  {
    if i < |src| && src[i] != '"' then QuoteEnd(src, i + 1) else i
  }

  /** End of a number whose first digit is before `i`: digits, then `.` and digits only if a digit follows the dot. */
  function NumberEnd(src: string, i: nat): (j: nat)
    requires i <= |src|
    ensures i <= j <= |src|
    ensures forall k :: i <= k < j ==> IsDigit(src[k]) || src[k] == '.'
  {
    var a := DigitsEnd(src, i);
    if a + 1 < |src| && src[a] == '.' && IsDigit(src[a + 1]) then DigitsEnd(src, a + 1) else a
  }

  /** Index of the first '.' in `s`, or |s|. */
  function DotIndex(s: string): (k: nat)
    ensures k <= |s|
    ensures forall j :: 0 <= j < k ==> s[j] != '.'
    ensures k < |s| ==> s[k] == '.'
    decreases |s|
  {
    if s == [] || s[0] == '.' then 0 else 1 + DotIndex(s[1..])
  }

  function Pow10(n: nat): (r: real)
    ensures r >= 1.0
  {
    if n == 0 then 1.0 else 10.0 * Pow10(n - 1)
  }

  /** The exact decimal value of a number's text (the source uses `parseFloat`). */
  function ParseNumber(text: string): real
  {
    var k := DotIndex(text);
    ParseNat(text[..k]) as real
      + (if k < |text| then ParseNat(text[k + 1..]) as real / Pow10(|text| - k - 1) else 0.0)
  }

  /**
   * The effect of one `scanToken` call at `start`: where the cursor stops, the line
   * count afterwards, the token it adds (if any) and the error it reports (if any).
   */
  datatype Step = Step(next: nat, line: nat, emit: Option<Token>, error: Option<Diagnostic>)

  /**
   * What every step guarantees: it consumes at least one character, advances the line counter
   * by exactly the newlines it consumed, and a token it adds has the consumed text as its
   * lexeme and the updated line; it adds a token or reports an error, never both.
   */
  ghost predicate StepFacts(src: string, start: nat, line: nat, s: Step)
  {
    && start < s.next <= |src|
    && s.line == line + Count(src[start..s.next], '\n')
    && (s.emit.Some? ==> s.emit.value.lexeme == src[start..s.next] && s.emit.value.line == s.line
                         && s.error.None?)
    && (s.error.Some? ==> s.error.value.where == "" && s.error.value.line == s.line
                          && s.error.value.message in {"Unexpected character.", "Unterminated string."})
  }

  /** A token made of the text from `start` to `next`, which holds no newline. */
  function Emit(src: string, start: nat, next: nat, line: nat, kind: TokenType, literal: LitValue): (s: Step)
    requires start < next <= |src|
    requires forall k :: start <= k < next ==> src[k] != '\n'
    ensures StepFacts(src, start, line, s) && s.next == next && s.line == line
    ensures s.emit == Some(Token(kind, src[start..next], literal, line))
  {
    CountAbsent(src[start..next], '\n');
    Step(next, line, Some(Token(kind, src[start..next], literal, line)), None)
  }

  /** Consuming newline-free text: the cursor moves, nothing else happens. */
  function Skip(src: string, start: nat, next: nat, line: nat): (s: Step)
    requires start < next <= |src|
    requires forall k :: start <= k < next ==> src[k] != '\n'
    ensures StepFacts(src, start, line, s)
    ensures s == Step(next, line, None, None)
  {
    CountAbsent(src[start..next], '\n');
    Step(next, line, None, None)
  }

  /** What one `scanToken` call does with the character at `start`. */
  function ScanOne(keywords: KeywordTable, src: string, start: nat, line: nat): (s: Step)
    requires start < |src|
    ensures StepFacts(src, start, line, s)
  {
    var c := src[start];
    if c == '\n' then
      assert src[start..start + 1] == [c];
      Step(start + 1, line + 1, None, None)
    else if c == '"' then StringStep(src, start, line)
    else if IsDigit(c) then NumberStep(src, start, line)
    else if IsAlpha(c) && c != 'o' then WordStep(keywords, src, start, line)
    else SymbolStep(src, start, line)
  }

  /**
   * The rest of a string literal whose opening quote is at `start`: up to and including
   * the closing quote, or to the end of the input when there is none.
   */
  function StringStep(src: string, start: nat, line: nat): (s: Step)
    requires start < |src| && src[start] == '"'
    ensures StepFacts(src, start, line, s)
    ensures s.emit.Some? ==> s.emit.value.kind == STRING
    ensures s.emit.None? ==> s.error == Some(ScanError(s.line, "Unterminated string."))
  {
    var q := QuoteEnd(src, start + 1);
    var l := line + Count(src[start + 1..q], '\n');
    QuoteSpanCount(src, start, q);
    if q == |src| then
      Step(q, l, None, Some(ScanError(l, "Unterminated string.")))
    else
      Step(q + 1, l, Some(Token(STRING, src[start..q + 1], StrLit(src[start + 1..q]), l)), None)
  }

  /** The quotes around a string's text hold no newline. */
  lemma QuoteSpanCount(src: string, start: nat, q: nat)
    requires start < q <= |src| && src[start] == '"'
    requires q == |src| || src[q] == '"'
    ensures Count(src[start..q], '\n') == Count(src[start + 1..q], '\n')
    ensures q < |src| ==> Count(src[start..q + 1], '\n') == Count(src[start + 1..q], '\n')
  {
    CountAppend([src[start]], src[start + 1..q], '\n');
    assert src[start..q] == [src[start]] + src[start + 1..q];
    if q < |src| {
      assert src[start..q + 1] == src[start..q] + [src[q]];
      CountAppend(src[start..q], [src[q]], '\n');
    }
  }

  /** A number: digits, and a fraction only when a digit follows the dot. */
  function NumberStep(src: string, start: nat, line: nat): (s: Step)
    requires start < |src| && IsDigit(src[start])
    ensures StepFacts(src, start, line, s)
  {
    var e := NumberEnd(src, start + 1);
    Emit(src, start, e, line, NUMBER, NumLit(ParseNumber(src[start..e])))
  }

  /** A word: a keyword or an identifier. */
  function WordStep(keywords: KeywordTable, src: string, start: nat, line: nat): (s: Step)
    requires start < |src| && IsAlpha(src[start])
    ensures StepFacts(src, start, line, s)
  {
    var e := WordEnd(src, start + 1);
    Emit(src, start, e, line, WordKind(keywords, src[start..e]), NilLit)
  }

  /** The kind of a one-character token, for the characters that always make one. */
  function SingleKind(c: char): Option<TokenType>
  {
    match c
    case '(' => Some(LEFT_PAREN) case ')' => Some(RIGHT_PAREN)
    case '{' => Some(LEFT_BRACE) case '}' => Some(RIGHT_BRACE)
    case ',' => Some(COMMA) case '.' => Some(DOT) case '-' => Some(MINUS) case '+' => Some(PLUS)
    case ';' => Some(SEMICOLON) case '*' => Some(STAR) case '?' => Some(QUESTION) case ':' => Some(COLON)
    case _ => None
  }

  /** For `!`, `=`, `<` and `>`: the kind of the character alone and the kind with a `=` after it. */
  function EqualKinds(c: char): Option<(TokenType, TokenType)>
  {
    match c
    case '!' => Some((BANG, BANG_EQUAL))
    case '=' => Some((EQUAL, EQUAL_EQUAL))
    case '<' => Some((LESS, LESS_EQUAL))
    case '>' => Some((GREATER, GREATER_EQUAL))
    case _ => None
  }

  /** Punctuation, operators, the `/` and `o` cases, blanks and unexpected characters. */
  function SymbolStep(src: string, start: nat, line: nat): (s: Step)
    requires start < |src| && src[start] != '\n'
    ensures StepFacts(src, start, line, s)
  {
    var c := src[start];
    var p := start + 1;
    if SingleKind(c).Some? then Emit(src, start, p, line, SingleKind(c).value, NilLit)
    else if EqualKinds(c).Some? then
      if p < |src| && src[p] == '=' then Emit(src, start, p + 1, line, EqualKinds(c).value.1, NilLit)
      else Emit(src, start, p, line, EqualKinds(c).value.0, NilLit)
    else if c == '/' then
      // the comment-skipping closure is built but never called: only the two slashes go
      if p < |src| && src[p] == '/' then Skip(src, start, p + 1, line) else Emit(src, start, p, line, SLASH, NilLit)
    else if c == ' ' || c == '\r' || c == '\t' then Skip(src, start, p, line)
    else if c == 'o' then
      // `o` is consumed whatever follows; only `or` yields a token
      if p < |src| && src[p] == 'r' then Emit(src, start, p + 1, line, OR, NilLit) else Skip(src, start, p, line)
    else
      var s := Skip(src, start, p, line);
      Step(p, line, None, Some(ScanError(line, "Unexpected character.")))
  }

  function OptSeq<T>(o: Option<T>): seq<T>
  {
    if o.Some? then [o.value] else []
  }

  /**
   * What the scanning loop has produced so far: the tokens, the errors, where each token's
   * lexeme lies in the source, and the current line.
   */
  datatype Lexed = Lexed(tokens: seq<Token>, errors: seq<Diagnostic>, spans: seq<(nat, nat)>, line: nat)

  /** The scanning loop from `pos` on, extending what `done` holds, until the input is used up. */
  function LexFrom(keywords: KeywordTable, src: string, pos: nat, line: nat, done: Lexed): Lexed
    requires pos <= |src|
    decreases |src| - pos
  {
    if pos == |src| then done.(line := line)
    else
      var s := ScanOne(keywords, src, pos, line);
      LexFrom(keywords, src, s.next, s.line,
              Lexed(done.tokens + OptSeq(s.emit), done.errors + OptSeq(s.error),
                    done.spans + (if s.emit.Some? then [(pos, s.next)] else []), s.line))
  }

  /** `scanTokens` on a fresh scanner: everything scanned from line 1, then one EOF token. */
  function Scan(src: string): (seq<Token>, seq<Diagnostic>)
  {
    var r := LexFrom(Keywords, src, 0, 1, Lexed([], [], [], 1));
    (r.tokens + [Token(EOF, "", NilLit, r.line)], r.errors)
  }

  class Scanner {
    const keywords: KeywordTable
    const src: string
    var tokens: seq<Token>
    var start: nat
    var current: nat
    var line: nat
    var diagnostics: seq<Diagnostic>

    ghost predicate Valid()
      reads this
    {
      start <= current <= |src|
    }

    constructor(src: string)
      ensures Valid() && this.src == src && keywords == Keywords
      ensures tokens == [] && start == 0 && current == 0 && line == 1 && diagnostics == []
    {
      keywords := Keywords;
      this.src := src;
      tokens := [];
      start := 0;
      current := 0;
      line := 1;
      diagnostics := [];
    }

    /** Scans from the cursor to the end, then appends the EOF token; returns the token list. */
    method ScanTokens() returns (r: seq<Token>)
      requires Valid()
      modifies this
      ensures Valid() && current == |src|
      ensures var lx := LexFrom(keywords, src, old(current), old(line), Lexed(old(tokens), old(diagnostics), [], old(line)));
        && tokens == lx.tokens + [Token(EOF, "", NilLit, lx.line)]
        && diagnostics == lx.errors
        && line == lx.line
      ensures r == tokens
    {
      ghost var final := LexFrom(keywords, src, current, line, Lexed(tokens, diagnostics, [], line));
      ghost var spans: seq<(nat, nat)> := [];
      while !IsAtEnd()
        invariant Valid()
        invariant LexFrom(keywords, src, current, line, Lexed(tokens, diagnostics, spans, line)) == final
        decreases |src| - current
      {
        start := current;
        ghost var s := ScanOne(keywords, src, current, line);
        spans := spans + (if s.emit.Some? then [(current, s.next)] else []);
        ScanToken();
      }
      tokens := tokens + [Token(EOF, "", NilLit, line)];
      r := tokens;
    }

    /** Scans one lexeme starting at the cursor. */
    method ScanToken()
      requires Valid() && start == current < |src|
      modifies this`current, this`line, this`tokens, this`diagnostics
      ensures var s := ScanOne(keywords, src, old(current), old(line));
        && Valid() && current == s.next && line == s.line
        && tokens == old(tokens) + OptSeq(s.emit)
        && diagnostics == old(diagnostics) + OptSeq(s.error)
    {
      ghost var s := ScanOne(keywords, src, start, line);
      var c := Advance();
      if c == '\n' {
        assert s == Step(current, line + 1, None, None);
        line := line + 1;
      } else if c == '"' {
        assert s == StringStep(src, start, line);
        ScanString();
      } else if IsDigit(c) {
        assert s == NumberStep(src, start, line);
        ScanNumber();
      } else if IsAlpha(c) && c != 'o' {
        assert s == WordStep(keywords, src, start, line);
        ScanIdentifier();
      } else {
        assert s == SymbolStep(src, start, line);
        ScanSymbol(c);
      }
    }

    /** The cases of `scanToken` decided by the character alone or by one character of lookahead. */
    method ScanSymbol(c: char)
      requires Valid() && current == start + 1 <= |src| && src[start] == c && c != '\n'
      modifies this`current, this`tokens, this`diagnostics
      ensures var s := SymbolStep(src, start, line);
        && Valid() && current == s.next
        && tokens == old(tokens) + OptSeq(s.emit)
        && diagnostics == old(diagnostics) + OptSeq(s.error)
    {
      if SingleKind(c).Some? {
        AddToken(SingleKind(c).value, NilLit);
        return;
      }
      if EqualKinds(c).Some? {
        var two := Match('=');
        AddToken(if two then EqualKinds(c).value.1 else EqualKinds(c).value.0, NilLit);
        return;
      }
      match c
      case '/' =>
        var comment := Match('/');
        if !comment { AddToken(SLASH, NilLit); }
      case ' ' =>
      case '\r' =>
      case '\t' =>
      case 'o' =>
        var r := Match('r');
        if r { AddToken(OR, NilLit); }
      case _ =>
        diagnostics := diagnostics + [ScanError(line, "Unexpected character.")];
    }

    /** Adds a token whose lexeme is the text between `start` and the cursor. */
    method AddToken(kind: TokenType, literal: LitValue)
      requires Valid()
      modifies this`tokens
      ensures tokens == old(tokens) + [Token(kind, src[start..current], literal, line)]
    {
      var text := src[start..current];
      tokens := tokens + [Token(kind, text, literal, line)];
    }

    function IsAtEnd(): bool
      reads this
    {
      current >= |src|
    }

    method Advance() returns (c: char)
      requires Valid() && current < |src|
      modifies this`current
      ensures Valid() && current == old(current) + 1 && c == src[old(current)]
    {
      c := src[current];
      current := current + 1;
    }

    /** The character `dist` places ahead of the cursor, or NUL past the end. */
    function Peek(dist: nat): (c: char)
      reads this
      requires Valid()
      ensures current + dist < |src| ==> c == src[current + dist]
      ensures current + dist >= |src| ==> c == '\0'
    {
      if IsAtEnd() || current + dist >= |src| then '\0' else src[current + dist]
    }

    /** Consumes the next character exactly when it is `expected`. */
    method Match(expected: char) returns (b: bool)
      requires Valid()
      modifies this`current
      ensures Valid()
      ensures b <==> old(current) < |src| && src[old(current)] == expected
      ensures current == if b then old(current) + 1 else old(current)
    {
      if IsAtEnd() || src[current] != expected {
        return false;
      }
      current := current + 1;
      return true;
    }

    method ScanString()
      requires Valid() && start < current == start + 1 <= |src| && src[start] == '"'
      modifies this`current, this`line, this`tokens, this`diagnostics
      ensures var s := StringStep(src, old(start), old(line));
        && Valid() && current == s.next && line == s.line
        && tokens == old(tokens) + OptSeq(s.emit)
        && diagnostics == old(diagnostics) + OptSeq(s.error)
    {
      SkipToQuote();
      ghost var s := StringStep(src, start, old(line));
      assert start == old(start);
      if IsAtEnd() {
        assert s == Step(current, line, None, Some(ScanError(line, "Unterminated string.")));
        diagnostics := diagnostics + [ScanError(line, "Unterminated string.")];
        return;
      }
      var _ := Advance();
      var value := src[start + 1..current - 1];
      assert s == Step(current, line, Some(Token(STRING, src[start..current], StrLit(value), line)), None);
      AddToken(STRING, StrLit(value));
    }

    /** Advances the cursor to the next double quote (or the end), counting the newlines passed. */
    method SkipToQuote()
      requires Valid()
      modifies this`current, this`line
      ensures Valid() && current == QuoteEnd(src, old(current))
      ensures line == old(line) + Count(src[old(current)..current], '\n')
    {
      ghost var q := QuoteEnd(src, current);
      while Peek(0) != '"' && !IsAtEnd()
        invariant Valid() && old(current) <= current <= q
        invariant QuoteEnd(src, current) == q
        invariant line == old(line) + Count(src[old(current)..current], '\n')
        decreases |src| - current
      {
        CountSliceStep(src, old(current), current, '\n');
        if Peek(0) == '\n' {
          line := line + 1;
        }
        var _ := Advance();
      }
    }

    method ScanNumber()
      requires Valid() && current == start + 1 <= |src| && IsDigit(src[start])
      modifies this`current, this`tokens
      ensures var e := NumberEnd(src, old(current));
        && Valid() && current == e
        && tokens == old(tokens) + [Token(NUMBER, src[start..e], NumLit(ParseNumber(src[start..e])), line)]
    {
      SkipDigits();
      if Peek(0) == '.' && IsDigit(Peek(1)) {
        var _ := Advance();
        SkipDigits();
      }
      AddToken(NUMBER, NumLit(ParseNumber(src[start..current])));
    }

    /** Advances the cursor over a run of digits. */
    method SkipDigits()
      requires Valid()
      modifies this`current
      ensures Valid() && current == DigitsEnd(src, old(current))
    {
      ghost var a := DigitsEnd(src, current);
      while IsDigit(Peek(0))
        invariant Valid() && current <= a
        invariant DigitsEnd(src, current) == a
        decreases |src| - current
      {
        var _ := Advance();
      }
    }

    method ScanIdentifier()
      requires Valid() && current == start + 1 <= |src| && IsAlpha(src[start])
      modifies this`current, this`tokens
      ensures var e := WordEnd(src, old(current));
        && Valid() && current == e
        && tokens == old(tokens) + [Token(WordKind(keywords, src[start..e]), src[start..e], NilLit, line)]
    {
      ghost var e := WordEnd(src, current);
      while IsAlphaNumeric(Peek(0))
        invariant Valid() && old(current) <= current <= e
        invariant WordEnd(src, current) == e && tokens == old(tokens)
        decreases |src| - current
      {
        var _ := Advance();
      }
      var text := src[start..current];
      var keyword := FindKeyword(keywords, text);
      var kind := if keyword.Some? then keyword.value else IDENTIFIER;
      AddToken(kind, NilLit);
    }
  }

  // ---------------------------------------------------------------------------
  // Properties of one scanning step

  /** Every character `scanToken` acts on, apart from the unexpected ones. */
  predicate Handled(c: char)
  {
    || c in {'(', ')', '{', '}', ',', '.', '-', '+', ';', '*', '?', ':', '!', '=', '<', '>', '/',
             ' ', '\r', '\t', '\n', '"', 'o'}
    || IsDigit(c) || IsAlpha(c)
  }

  /** The unexpected-character error is reported exactly for the characters no branch handles. */
  lemma UnexpectedCharacter(keywords: KeywordTable, src: string, start: nat, line: nat)
    requires start < |src|
    ensures var s := ScanOne(keywords, src, start, line);
      && (!Handled(src[start]) <==> s.error == Some(ScanError(line, "Unexpected character.")))
      && (!Handled(src[start]) ==> s.next == start + 1 && s.emit.None? && s.line == line)
  {
  }

  /** Upper-case letters are not letters to the scanner: each one is an unexpected character. */
  lemma UpperCaseUnexpected(keywords: KeywordTable, src: string, start: nat, line: nat)
    requires start < |src| && 'A' <= src[start] <= 'Z'
    ensures ScanOne(keywords, src, start, line) == Step(start + 1, line, None, Some(ScanError(line, "Unexpected character.")))
  {
    UnexpectedCharacter(keywords, src, start, line);
  }

  /**
   * A double quote starts a string literal. When a closing quote follows, the token spans
   * both quotes and its literal is the text between them; otherwise the rest of the input
   * is consumed and "Unterminated string." is reported on the last line.
   */
  lemma StringLiteral(keywords: KeywordTable, src: string, start: nat, line: nat)
    requires start < |src| && src[start] == '"'
    ensures var s := ScanOne(keywords, src, start, line);
      && (s.emit.Some? <==> exists k :: start < k < |src| && src[k] == '"')
      && (s.emit.Some? ==>
            var t := s.emit.value;
            && t.kind == STRING && |t.lexeme| >= 2
            && t.lexeme[0] == '"' && t.lexeme[|t.lexeme| - 1] == '"'
            && t.literal == StrLit(t.lexeme[1..|t.lexeme| - 1])
            && (forall i :: 1 <= i < |t.lexeme| - 1 ==> t.lexeme[i] != '"'))
      && (s.emit.None? ==> s.next == |src| && s.error == Some(ScanError(s.line, "Unterminated string.")))
  {
    var s := ScanOne(keywords, src, start, line);
    assert s == StringStep(src, start, line);
    var q := QuoteEnd(src, start + 1);
    if q < |src| {
      var t := s.emit.value;
      assert t.lexeme == src[start..q + 1];
      assert t.lexeme[1..|t.lexeme| - 1] == src[start + 1..q];
    }
  }

  /** `!`, `=`, `<` and `>` take a following `=` into a two-character operator. */
  lemma TwoCharOperators(keywords: KeywordTable, src: string, start: nat, line: nat)
    requires start < |src| && src[start] in {'!', '=', '<', '>'}
    ensures var s := ScanOne(keywords, src, start, line);
      var two := start + 1 < |src| && src[start + 1] == '=';
      && s.error.None? && s.emit.Some?
      && s.next == (if two then start + 2 else start + 1)
      && s.emit.value.lexeme == (if two then [src[start], '='] else [src[start]])
      && (s.emit.value.kind in {BANG_EQUAL, EQUAL_EQUAL, LESS_EQUAL, GREATER_EQUAL} <==> two)
      && (src[start] == '!' ==> s.emit.value.kind == if two then BANG_EQUAL else BANG)
      && (src[start] == '=' ==> s.emit.value.kind == if two then EQUAL_EQUAL else EQUAL)
      && (src[start] == '<' ==> s.emit.value.kind == if two then LESS_EQUAL else LESS)
      && (src[start] == '>' ==> s.emit.value.kind == if two then GREATER_EQUAL else GREATER)
  {
    assert ScanOne(keywords, src, start, line) == SymbolStep(src, start, line);
  }

  /** Only two characters of a `//` comment are consumed; the rest of the line is scanned on. */
  lemma CommentSlashes(keywords: KeywordTable, src: string, start: nat, line: nat)
    requires start + 1 < |src| && src[start] == '/' && src[start + 1] == '/'
    ensures ScanOne(keywords, src, start, line) == Step(start + 2, line, None, None)
  {
    assert ScanOne(keywords, src, start, line) == SymbolStep(src, start, line);
  }

  /** `o` is always consumed: with an `r` after it, it makes an OR token; otherwise it vanishes. */
  lemma LetterO(keywords: KeywordTable, src: string, start: nat, line: nat)
    requires start < |src| && src[start] == 'o'
    ensures var s := ScanOne(keywords, src, start, line);
      && s.error.None? && s.line == line
      && (if start + 1 < |src| && src[start + 1] == 'r'
          then s.next == start + 2 && s.emit == Some(Token(OR, "or", NilLit, line))
          else s.next == start + 1 && s.emit.None?)
  {
    assert ScanOne(keywords, src, start, line) == SymbolStep(src, start, line);
    if start + 1 < |src| && src[start + 1] == 'r' {
      assert src[start..start + 2] == "or";
    }
  }

  /** All-digit text. */
  predicate AllDigits(t: string)
  {
    forall i :: 0 <= i < |t| ==> IsDigit(t[i])
  }

  /** The shape of a number lexeme: digits, optionally followed by a dot and more digits. */
  predicate NumberText(t: string)
  {
    var k := DotIndex(t);
    && k > 0 && AllDigits(t[..k])
    && (k < |t| ==> k + 1 < |t| && AllDigits(t[k + 1..]))
  }

  /**
   * A digit starts a NUMBER token whose lexeme has number shape, whose value is read from
   * the lexeme, and which stops only where the shape cannot be extended.
   */
  lemma NumberToken(keywords: KeywordTable, src: string, start: nat, line: nat)
    requires start < |src| && IsDigit(src[start])
    ensures var s := ScanOne(keywords, src, start, line);
      && s.error.None? && s.emit.Some?
      && var t := s.emit.value;
      && t.kind == NUMBER && NumberText(t.lexeme)
      && t.literal == NumLit(ParseNumber(t.lexeme))
      && (s.next < |src| ==> !IsDigit(src[s.next]))
      && (DotIndex(t.lexeme) == |t.lexeme| && s.next + 1 < |src| ==>
            !(src[s.next] == '.' && IsDigit(src[s.next + 1])))
  {
    var e := NumberEnd(src, start + 1);
    assert ScanOne(keywords, src, start, line) == NumberStep(src, start, line);
    assert NumberStep(src, start, line) == Emit(src, start, e, line, NUMBER, NumLit(ParseNumber(src[start..e])));
    NumberShape(src, start);
  }

  /** The text from a digit to NumberEnd has number shape, and NumberEnd cannot be pushed further. */
  lemma NumberShape(src: string, start: nat)
    requires start < |src| && IsDigit(src[start])
    ensures var e := NumberEnd(src, start + 1);
      && NumberText(src[start..e])
      && (e < |src| ==> !IsDigit(src[e]))
      && (DotIndex(src[start..e]) == e - start && e + 1 < |src| ==> !(src[e] == '.' && IsDigit(src[e + 1])))
  {
    var e := NumberEnd(src, start + 1);
    var t := src[start..e];
    var a := DigitsEnd(src, start + 1);
    if a + 1 < |src| && src[a] == '.' && IsDigit(src[a + 1]) {
      DotIndexAt(t, a - start);
      assert t[..a - start] == src[start..a];
      assert t[a - start + 1..] == src[a + 1..e];
    } else {
      assert e == a;
      DotIndexAt(t, |t|);
      assert t[..|t|] == t;
    }
  }

  lemma DotIndexAt(t: string, k: nat)
    requires k <= |t|
    requires forall j :: 0 <= j < k ==> t[j] != '.'
    requires k < |t| ==> t[k] == '.'
    ensures DotIndex(t) == k
  {
  }

  /**
   * A letter other than `o` starts a word: its lexeme is a maximal run of letters, digits and
   * underscores, and its kind is the keyword with that spelling, or IDENTIFIER.
   */
  lemma WordToken(keywords: KeywordTable, src: string, start: nat, line: nat)
    requires start < |src| && IsAlpha(src[start]) && src[start] != 'o'
    ensures var s := ScanOne(keywords, src, start, line);
      && s.error.None? && s.emit.Some?
      && var t := s.emit.value;
      && t.kind == WordKind(keywords, t.lexeme) && t.literal == NilLit
      && (forall i :: 0 <= i < |t.lexeme| ==> IsAlphaNumeric(t.lexeme[i]))
      && (s.next < |src| ==> !IsAlphaNumeric(src[s.next]))
  {
    assert ScanOne(keywords, src, start, line) == WordStep(keywords, src, start, line);
  }

  /** The words the grammar uses for loops and switches are not reserved: they scan as identifiers. */
  lemma UnreservedWords(w: string)
    requires w in ["break", "continue", "switch", "case", "default", "exit"]
    ensures WordKind(Keywords, w) == IDENTIFIER
  {
    var spellings := ["and", "class", "else", "false", "for", "fun", "if", "nil",
                      "or", "print", "return", "super", "this", "true", "var", "while"];
    assert forall i :: 0 <= i < |Keywords| ==> Keywords[i].0 == spellings[i];
    assert w !in spellings;
  }

  /** A table that never yields the end-of-input kind. */
  predicate NoEofKeyword(keywords: KeywordTable)
  {
    forall i :: 0 <= i < |keywords| ==> keywords[i].1 != EOF
  }

  /** The table pairs words only with reserved-word kinds: never IDENTIFIER, never EOF. */
  lemma KeywordKinds()
    ensures forall i :: 0 <= i < |Keywords| ==> Keywords[i].1 != EOF && Keywords[i].1 != IDENTIFIER
    ensures NoEofKeyword(Keywords)
  {
  }

  /**
   * With such a table no step produces an EOF token, and a word scans as IDENTIFIER exactly
   * when it is not in the table.
   */
  lemma ScanOneNotEof(keywords: KeywordTable, src: string, start: nat, line: nat)
    requires start < |src| && NoEofKeyword(keywords)
    ensures var s := ScanOne(keywords, src, start, line);
      s.emit.Some? ==> s.emit.value.kind != EOF
  {
    var c := src[start];
    if !(c == '\n' || c == '"' || IsDigit(c) || (IsAlpha(c) && c != 'o')) {
      assert ScanOne(keywords, src, start, line) == SymbolStep(src, start, line);
    }
  }

  // ---------------------------------------------------------------------------
  // Properties of a whole scan

  /**
   * What the loop has produced after consuming `src[..pos]` on line `line`: one span per
   * token, each token's lexeme is the source text of its span and its line is the line that
   * span ends on, spans are in order and do not overlap, no token is EOF, and every error is
   * a lexical one (no location) reported on a line already reached.
   */
  ghost predicate Consistent(src: string, pos: nat, line: nat, d: Lexed)
  {
    && pos <= |src|
    && line == 1 + Count(src[..pos], '\n')
    && |d.spans| == |d.tokens|
    && (forall i :: 0 <= i < |d.spans| ==>
          && d.spans[i].0 < d.spans[i].1 <= pos
          && d.tokens[i].lexeme == src[d.spans[i].0..d.spans[i].1]
          && d.tokens[i].line == 1 + Count(src[..d.spans[i].1], '\n')
          && d.tokens[i].kind != EOF)
    && (forall i, j :: 0 <= i < j < |d.spans| ==> d.spans[i].1 <= d.spans[j].0)
    && (forall i :: 0 <= i < |d.errors| ==> d.errors[i].where == "" && 1 <= d.errors[i].line <= line)
  }

  /** One step keeps what has been produced consistent. */
  lemma StepPreserves(keywords: KeywordTable, src: string, pos: nat, line: nat, d: Lexed)
    requires pos < |src| && NoEofKeyword(keywords) && Consistent(src, pos, line, d)
    ensures var s := ScanOne(keywords, src, pos, line);
      Consistent(src, s.next, s.line,
                 Lexed(d.tokens + OptSeq(s.emit), d.errors + OptSeq(s.error),
                       d.spans + (if s.emit.Some? then [(pos, s.next)] else []), s.line))
  {
    var s := ScanOne(keywords, src, pos, line);
    assert src[..s.next] == src[..pos] + src[pos..s.next];
    CountAppend(src[..pos], src[pos..s.next], '\n');
    ScanOneNotEof(keywords, src, pos, line);
  }

  /** The loop keeps what has been produced consistent up to the end of the input. */
  lemma {:induction false} LexPreserves(keywords: KeywordTable, src: string, pos: nat, line: nat, d: Lexed)
    requires NoEofKeyword(keywords) && Consistent(src, pos, line, d)
    ensures var r := LexFrom(keywords, src, pos, line, d);
      Consistent(src, |src|, r.line, r) && d.tokens <= r.tokens && d.errors <= r.errors
    decreases |src| - pos
  {
    if pos < |src| {
      var s := ScanOne(keywords, src, pos, line);
      var d' := Lexed(d.tokens + OptSeq(s.emit), d.errors + OptSeq(s.error),
                      d.spans + (if s.emit.Some? then [(pos, s.next)] else []), s.line);
      StepPreserves(keywords, src, pos, line, d);
      LexPreserves(keywords, src, s.next, s.line, d');
      assert LexFrom(keywords, src, pos, line, d) == LexFrom(keywords, src, s.next, s.line, d');
    }
  }

  /**
   * `scanTokens` on a fresh scanner: the output ends with exactly one EOF token, on the
   * last line of the input; every other token's lexeme is the source text at its own
   * span, spans are in source order without overlap, each token carries the line its text
   * ends on, and all errors are lexical errors within the input's lines.
   */
  lemma ScanShape(src: string)
    ensures var (toks, errs) := Scan(src);
      var sp := LexFrom(Keywords, src, 0, 1, Lexed([], [], [], 1)).spans;
      && |toks| == |sp| + 1
      && toks[|sp|] == Token(EOF, "", NilLit, 1 + Count(src, '\n'))
      && (forall i :: 0 <= i < |sp| ==>
            && sp[i].0 < sp[i].1 <= |src|
            && toks[i].lexeme == src[sp[i].0..sp[i].1]
            && toks[i].kind != EOF
            && toks[i].line == 1 + Count(src[..sp[i].1], '\n'))
      && (forall i, j :: 0 <= i < j < |sp| ==> sp[i].1 <= sp[j].0)
      && (forall e :: e in errs ==> e.where == "" && 1 <= e.line <= 1 + Count(src, '\n'))
  {
    KeywordKinds();
    assert src[..0] == [];
    LexPreserves(Keywords, src, 0, 1, Lexed([], [], [], 1));
    assert src[..|src|] == src;
  }
}
