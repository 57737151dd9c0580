/** What `scan` promises about the tokens it returns (worker.js:272-374):
    one `EOF` and only at the end, intervals in increasing order that cover
    exactly the characters each token consumed, token texts of the right
    shape, and that together the tokens spell the source without its
    whitespace. */
module LexerFacts {
  import opened Wrappers
  import opened Numbers
  import opened Syntax
  import opened Lexer

  predicate AllLetters(s: string)
  {
    forall k :: 0 <= k < |s| ==> IsLetter(s[k])
  }

  /** A NUMBER token is a maximal number text: no digit follows it, and no
      '.' follows one without a fraction. */
  ghost predicate NumberRead(t: seq<char>, iv: Interval, value: string)
  {
    && 0 <= iv.min <= iv.max && iv.max + 1 < |t| && value == t[iv.min..iv.max + 1]
    && IsNumberText(value) && !IsDigit(t[iv.max + 1])
    && (AllDigits(value) ==> t[iv.max + 1] != '.')
  }

  /** An IDENTIFIER token is a maximal run of letters. */
  ghost predicate IdentifierRead(t: seq<char>, iv: Interval, value: string)
  {
    && 0 <= iv.min <= iv.max && iv.max + 1 < |t| && value == t[iv.min..iv.max + 1]
    && |value| > 0 && AllLetters(value) && !IsLetter(t[iv.max + 1])
  }

  /** What one token says about the text it was read from. */
  ghost predicate TokenRead(t: seq<char>, tok: Token)
  {
    var iv := tok.interval;
    && 0 <= iv.min <= iv.max < |t|
    && match tok.kind
       case EOF => iv.min == iv.max && t[iv.min] == Sentinel
       case Punct(c) => IsSpecialSymbol(c) && iv.min == iv.max && t[iv.min] == c
       case NUMBER => NumberRead(t, iv, tok.value)
       case IDENTIFIER => IdentifierRead(t, iv, tok.value)
  }

  lemma {:induction false} NumberTextOf(t: seq<char>, q: nat, e: nat, e2: nat)
    requires q < e < |t| && (forall k :: q <= k < e ==> IsDigit(t[k]))
    requires e2 == e || (e + 1 < e2 <= |t| && t[e] == '.' && forall k :: e < k < e2 ==> IsDigit(t[k]))
    ensures IsNumberText(t[q..e2])
    ensures AllDigits(t[q..e2]) <==> e2 == e
  {
    var s := t[q..e2];
    DotIndexAt(s, e - q);
    assert s[..e - q] == t[q..e];
    if e2 > e {
      assert s[e - q + 1..] == t[e + 1..e2];
      assert !IsDigit(s[e - q]);
    }
  }

  lemma {:induction false} LexNumberReads(t: seq<char>, q: nat)
    requires Terminated(t) && q < |t| && IsDigit(t[q]) && LexNumber(t, q).Success?
    ensures var l := LexNumber(t, q).value;
      TokenRead(t, l.token) && l.token.interval.min == q && l.next == l.token.interval.max + 1
  {
    var e := DigitsEnd(t, q + 1);
    var e2 := if t[e] == '.' then DigitsEnd(t, e + 1) else e;
    NumberTextOf(t, q, e, e2);
    NumberLexeme(t, q, e, e2, LexNumber(t, q).value);
  }

  /** The digits from `q` to `e`, and the fraction up to `e2` if there is one. */
  lemma {:induction false} NumberLexeme(t: seq<char>, q: nat, e: nat, e2: nat, l: Lexeme)
    requires q < e <= e2 < |t| && IsNumberText(t[q..e2]) && (AllDigits(t[q..e2]) <==> e2 == e)
    requires !IsDigit(t[e2]) && (e2 == e ==> t[e] != '.')
    requires l == Lexeme(Token(NUMBER, t[q..e2], Interval(q, e2 - 1)), e2)
    ensures TokenRead(t, l.token) && l.token.interval.min == q && l.next == l.token.interval.max + 1
  {
    assert NumberRead(t, Interval(q, e2 - 1), t[q..e2]);
  }

  /** One step of the lexer: the token starts after the skipped whitespace,
      its interval ends on the last character consumed, and its text has the
      shape its kind demands. */
  lemma {:induction false} LexOneReads(t: seq<char>, p: nat)
    requires Terminated(t) && p < |t| && LexOne(t, p).Success?
    ensures var l := LexOne(t, p).value;
      && TokenRead(t, l.token)
      && l.token.interval.min == SkipWhitespace(t, p)
      && l.next == l.token.interval.max + 1
  {
    var q := SkipWhitespace(t, p);
    if t[q] != Sentinel && IsDigit(t[q]) {
      LexNumberReads(t, q);
    }
  }

  /** The scan from position `p` ends with its only `EOF` token. */
  lemma {:induction false} ScanFromEndsWithEof(t: seq<char>, p: nat)
    requires Terminated(t) && p < |t| && ScanFrom(t, p).Success?
    ensures var ts := ScanFrom(t, p).value;
      && |ts| > 0 && ts[|ts| - 1].kind == EOF
      && forall j :: 0 <= j < |ts| - 1 ==> ts[j].kind != EOF
    decreases |t| - p
  {
    var l := LexOne(t, p).value;
    if l.token.kind != EOF {
      ScanFromEndsWithEof(t, l.next);
    }
  }

  /** The tokens of a scan from position `p` read the text as `TokenRead`
      says, start at or after `p`, and come in increasing order with
      disjoint intervals. */
  lemma {:induction false} ScanFromReads(t: seq<char>, p: nat)
    requires Terminated(t) && p < |t| && ScanFrom(t, p).Success?
    ensures var ts := ScanFrom(t, p).value;
      && (forall j :: 0 <= j < |ts| ==> TokenRead(t, ts[j]) && p <= ts[j].interval.min)
      && (forall j :: 0 <= j < |ts| - 1 ==> ts[j].interval.max < ts[j + 1].interval.min)
    decreases |t| - p
  {
    var l := LexOne(t, p).value;
    LexOneReads(t, p);
    if l.token.kind != EOF {
      ScanFromReads(t, l.next);
      var rest := ScanFrom(t, l.next).value;
      assert ScanFrom(t, p).value == [l.token] + rest;
    }
  }

  /** A lexical error: a '.' after digits with no digit after it, or a
      character the language does not know, at the position reported. */
  ghost predicate LexicalError(t: seq<char>, e: LanguageError)
  {
    || (e.message == DigitsAfterDot && 0 <= e.interval.min < e.interval.max && e.interval.max + 1 < |t|
        && t[e.interval.max] == '.' && IsDigit(t[e.interval.max - 1]) && !IsDigit(t[e.interval.max + 1]))
    || (exists c ::
          && e.message == UnknownCharacter(c)
          && e.interval == Interval(e.interval.min, e.interval.min - 1)
          && 0 <= e.interval.min < |t| && t[e.interval.min] == c
          && !IsWhitespace(c) && !IsDigit(c) && !IsLetter(c) && !IsSpecialSymbol(c) && c != Sentinel)
  }

  lemma {:induction false} LexNumberErrors(t: seq<char>, q: nat)
    requires Terminated(t) && q < |t| && IsDigit(t[q]) && LexNumber(t, q).Failure?
    ensures LexicalError(t, LexNumber(t, q).error)
    ensures LexNumber(t, q).error.message == DigitsAfterDot && LexNumber(t, q).error.interval.min == q
    ensures forall k :: q <= k < LexNumber(t, q).error.interval.max ==> IsDigit(t[k])
  {
    var d := DigitsEnd(t, q + 1);
    if d == q + 1 { assert IsDigit(t[q]); } else { assert IsDigit(t[d - 1]); }
  }

  /** One step of the lexer fails only on a lexical error. */
  lemma {:induction false} LexOneErrors(t: seq<char>, p: nat)
    requires Terminated(t) && p < |t| && LexOne(t, p).Failure?
    ensures LexicalError(t, LexOne(t, p).error)
    ensures LexOne(t, p).error.interval.min == SkipWhitespace(t, p)
  {
    var q := SkipWhitespace(t, p);
    if IsDigit(t[q]) {
      LexNumberErrors(t, q);
    } else {
      assert LexOne(t, p).error.message == UnknownCharacter(t[q]);
    }
  }

  /** The error a failed scan returns is a lexical error of the text. */
  lemma {:induction false} ScanFromErrors(t: seq<char>, p: nat)
    requires Terminated(t) && p < |t| && ScanFrom(t, p).Failure?
    ensures LexicalError(t, ScanFrom(t, p).error)
    decreases |t| - p
  {
    match LexOne(t, p)
    case Failure(e) =>
      LexOneErrors(t, p);
    case Success(l) =>
      ScanFromErrors(t, l.next);
  }

  /** A character the language does not know anywhere, not even inside a
      number (as '.' may be). */
  predicate IsUnknown(c: char)
  {
    !IsWhitespace(c) && !IsDigit(c) && c != '.' && !IsLetter(c) && !IsSpecialSymbol(c) && c != Sentinel
  }

  /** Every character a token other than `EOF` consumed is a digit, a '.',
      a letter or a special symbol. */
  lemma {:induction false} TokenCharsKnown(t: seq<char>, tok: Token, k: nat)
    requires TokenRead(t, tok) && tok.kind != EOF && tok.interval.min <= k <= tok.interval.max
    ensures !IsUnknown(t[k])
  {
    var iv := tok.interval;
    match tok.kind {
      case Punct(_) =>
      case NUMBER =>
        assert NumberRead(t, iv, tok.value);
        assert tok.value[k - iv.min] == t[k];
        NumberTextChar(tok.value, k - iv.min);
      case IDENTIFIER =>
        assert IdentifierRead(t, iv, tok.value);
        assert tok.value[k - iv.min] == t[k];
    }
  }

  lemma {:induction false} NumberTextChar(s: string, i: nat)
    requires IsNumberText(s) && i < |s|
    ensures IsDigit(s[i]) || s[i] == '.'
  {
    var d := DotIndex(s);
    if i < d { assert s[..d][i] == s[i]; }
    else if i > d { assert s[d + 1..][i - d - 1] == s[i]; }
  }

  /** A scan from `p` fails if an unknown character lies at or after `p`, and
      the error it returns lies no later than that character. */
  lemma {:induction false} UnknownCharacterFails(t: seq<char>, p: nat, j: nat)
    requires Terminated(t) && Sentinel !in t[..|t| - 1]
    requires p <= j < |t| && IsUnknown(t[j])
    ensures ScanFrom(t, p).Failure? && ScanFrom(t, p).error.interval.min <= j
    decreases |t| - p
  {
    var q := SkipWhitespace(t, p);
    if LexOne(t, p).Failure? {
      LexOneErrors(t, p);
    } else {
      var l := LexOne(t, p).value;
      LexOneReads(t, p);
      assert t[..|t| - 1][q] == t[q];
      if j <= l.token.interval.max {
        TokenCharsKnown(t, l.token, j);
      }
      UnknownCharacterFails(t, l.next, j);
    }
  }

  /** `scan` fails on any source holding a character the language does not
      know, and reports an error no later than the first such character. */
  lemma {:induction false} UnknownCharacterRejected(source: string, j: nat)
    requires Sentinel !in source && j < |source| && IsUnknown(source[j])
    ensures ScanSpec(source).Failure? && ScanSpec(source).error.interval.min <= j
  {
    var t := source + [Sentinel];
    assert t[..|t| - 1] == source;
    UnknownCharacterFails(t, 0, j);
  }

  /** The source as the lexer sees it: only the characters that are not
      whitespace. */
  function NonWhitespace(s: seq<char>): seq<char>
  {
    if s == [] then [] else (if IsWhitespace(s[0]) then [] else [s[0]]) + NonWhitespace(s[1..])
  }

  lemma {:induction false} NonWhitespaceAppend(a: seq<char>, b: seq<char>)
    ensures NonWhitespace(a + b) == NonWhitespace(a) + NonWhitespace(b)
  {
    if a == [] {
      assert a + b == b;
    } else {
      assert (a + b)[1..] == a[1..] + b;
      NonWhitespaceAppend(a[1..], b);
    }
  }

  lemma {:induction false} NonWhitespaceOfNone(s: seq<char>)
    requires forall k :: 0 <= k < |s| ==> IsWhitespace(s[k])
    ensures NonWhitespace(s) == []
  {
    if s != [] { NonWhitespaceOfNone(s[1..]); }
  }

  lemma {:induction false} NonWhitespaceOfAll(s: seq<char>)
    requires forall k :: 0 <= k < |s| ==> !IsWhitespace(s[k])
    ensures NonWhitespace(s) == s
  {
    if s != [] { NonWhitespaceOfAll(s[1..]); }
  }

  /** The characters a token stands for: nothing for `EOF`. */
  function TokenText(tok: Token): string
  {
    match tok.kind
    case EOF => ""
    case Punct(c) => [c]
    case _ => tok.value
  }

  function Spelling(ts: seq<Token>): string
  {
    if ts == [] then "" else TokenText(ts[0]) + Spelling(ts[1..])
  }

  /** A token other than `EOF` stands for the characters it consumed, and
      none of them is whitespace. */
  lemma {:induction false} TokenTextRead(t: seq<char>, tok: Token)
    requires TokenRead(t, tok) && tok.kind != EOF
    ensures tok.interval.max + 1 <= |t|
    ensures t[tok.interval.min..tok.interval.max + 1] == TokenText(tok)
    ensures NonWhitespace(TokenText(tok)) == TokenText(tok)
  {
    var text := TokenText(tok);
    match tok.kind {
    case Punct(c) =>
      assert t[tok.interval.min..tok.interval.max + 1] == [c];
    case NUMBER =>
      assert NumberRead(t, tok.interval, tok.value);
      var d := DotIndex(text);
      forall k | 0 <= k < |text| ensures !IsWhitespace(text[k]) {
        if k < d { assert text[..d][k] == text[k]; }
        else if k > d { assert text[d + 1..][k - d - 1] == text[k]; }
      }
    case IDENTIFIER =>
      assert IdentifierRead(t, tok.interval, tok.value);
    }
    NonWhitespaceOfAll(text);
  }

  /** One token's share of the text: the whitespace before it, then its own
      characters. */
  lemma {:induction false} LexOneSpells(t: seq<char>, p: nat)
    requires Terminated(t) && p < |t| && LexOne(t, p).Success?
    requires LexOne(t, p).value.token.kind != EOF
    ensures LexOne(t, p).value.next <= |t|
    ensures NonWhitespace(t[p..LexOne(t, p).value.next]) == TokenText(LexOne(t, p).value.token)
  {
    var l := LexOne(t, p).value;
    LexOneReads(t, p);
    TokenTextRead(t, l.token);
    SpelledAfterWhitespace(t, p, SkipWhitespace(t, p), l.next, TokenText(l.token));
  }

  /** Whitespace from `p` to `q`, then a text without any up to `next`. */
  lemma {:induction false} SpelledAfterWhitespace(t: seq<char>, p: nat, q: nat, next: nat, text: string)
    requires p <= q <= next <= |t|
    requires forall k :: p <= k < q ==> IsWhitespace(t[k])
    requires t[q..next] == text && NonWhitespace(text) == text
    ensures NonWhitespace(t[p..next]) == text
  {
    assert t[p..q] + t[q..next] == t[p..next];
    NonWhitespaceAppend(t[p..q], t[q..next]);
    NonWhitespaceOfNone(t[p..q]);
  }

  /** The `EOF` step reads only whitespace before the sentinel. */
  lemma {:induction false} LexOneSpellsEof(t: seq<char>, p: nat)
    requires Terminated(t) && p < |t| && LexOne(t, p).Success?
    requires LexOne(t, p).value.token.kind == EOF && Sentinel !in t[..|t| - 1]
    ensures NonWhitespace(t[p..|t| - 1]) == []
  {
    NonWhitespaceOfNone(t[p..|t| - 1]);
  }

  /** The tokens from position `p` spell the rest of the text without its
      whitespace, when the sentinel appears only at the end. */
  lemma {:induction false} ScanFromSpells(t: seq<char>, p: nat)
    requires Terminated(t) && p < |t| && ScanFrom(t, p).Success?
    requires Sentinel !in t[..|t| - 1]
    ensures Spelling(ScanFrom(t, p).value) == NonWhitespace(t[p..|t| - 1])
    decreases |t| - p
  {
    var l := LexOne(t, p).value;
    if l.token.kind == EOF {
      LexOneSpellsEof(t, p);
      EofSpelling(l.token, ScanFrom(t, p).value);
    } else {
      ScanFromSpells(t, l.next);
      LexOneSpells(t, p);
      SpellingStep(t, p, l.next, l.token, ScanFrom(t, l.next).value, ScanFrom(t, p).value);
    }
  }

  lemma {:induction false} EofSpelling(tok: Token, ts: seq<Token>)
    requires ts == [tok] && tok.kind == EOF
    ensures Spelling(ts) == []
  {
    assert ts[1..] == [];
  }

  /** A token's share of the text followed by the rest of the scan. */
  lemma {:induction false} SpellingStep(t: seq<char>, p: nat, next: nat, tok: Token, rest: seq<Token>, ts: seq<Token>)
    requires p <= next <= |t| - 1 && ts == [tok] + rest
    requires NonWhitespace(t[p..next]) == TokenText(tok)
    requires Spelling(rest) == NonWhitespace(t[next..|t| - 1])
    ensures Spelling(ts) == NonWhitespace(t[p..|t| - 1])
  {
    assert ts[1..] == rest;
    assert t[p..next] + t[next..|t| - 1] == t[p..|t| - 1];
    NonWhitespaceAppend(t[p..next], t[next..|t| - 1]);
  }

  /** `scan` succeeds with a list whose last token is its only `EOF`, whose
      tokens come in increasing order with disjoint intervals, each reading
      exactly the characters it consumed. */
  lemma {:induction false} ScanTokens(source: string)
    requires ScanSpec(source).Success?
    ensures var ts := ScanSpec(source).value;
      && |ts| > 0 && ts[|ts| - 1].kind == EOF
      && (forall j :: 0 <= j < |ts| - 1 ==> ts[j].kind != EOF)
      && (forall j :: 0 <= j < |ts| ==> TokenRead(source + [Sentinel], ts[j]))
      && (forall j :: 0 <= j < |ts| - 1 ==> ts[j].interval.max < ts[j + 1].interval.min)
  {
    ScanFromEndsWithEof(source + [Sentinel], 0);
    ScanFromReads(source + [Sentinel], 0);
  }

  /** For a source without a NUL character the tokens spell exactly its
      non-whitespace characters, and `EOF` sits on the sentinel just past
      the end. */
  lemma {:induction false} ScanSpellsSource(source: string)
    requires ScanSpec(source).Success? && Sentinel !in source
    ensures var ts := ScanSpec(source).value;
      && Spelling(ts) == NonWhitespace(source)
      && ts[|ts| - 1].interval == Interval(|source|, |source|)
  {
    var t := source + [Sentinel];
    assert t[..|t| - 1] == source;
    ScanFromSpells(t, 0);
    assert t[0..|t| - 1] == source;
    ScanTokens(source);
    var ts := ScanSpec(source).value;
    assert TokenRead(t, ts[|ts| - 1]);
  }
}
