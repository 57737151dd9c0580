/** The lexer `scan` (worker.js:272-374): one left-to-right pass over the
    source followed by a sentinel character, with a one-character lookahead
    `peek` and an index `i` one past it.

    The pure functions below say what one call of `nextToken` produces from a
    given lookahead position; the class `Scanner` is the closure state of
    `scan` and its methods are proved to follow those functions. */
module Lexer {
  import opened Wrappers
  import opened Numbers
  import opened Syntax

  /** The `EOF` sentinel appended to the source. */
  const Sentinel: char := '\0'

  predicate IsLetter(c: char)
  {
    ('a' <= c <= 'z') || ('A' <= c <= 'Z')
  }

  predicate IsWhitespace(c: char)
  {
    c == ' ' || c == '\n' || c == '\t'
  }

  predicate IsSpecialSymbol(c: char)
  {
    c in "+-*/,(){}="
  }

  /** The scanned text: it ends with the sentinel. */
  predicate Terminated(t: seq<char>)
  {
    |t| > 0 && t[|t| - 1] == Sentinel
  }

  /** The first position at or after `p` that does not hold whitespace. */
  function SkipWhitespace(t: seq<char>, p: nat): (q: nat)
    requires Terminated(t) && p < |t|
    ensures p <= q < |t| && !IsWhitespace(t[q])
    ensures forall k :: p <= k < q ==> IsWhitespace(t[k])
    decreases |t| - p
  {
    if IsWhitespace(t[p]) then SkipWhitespace(t, p + 1) else p
  }

  /** The first position at or after `p` that does not hold a digit. */
  function DigitsEnd(t: seq<char>, p: nat): (q: nat)
    requires Terminated(t) && p < |t|
    ensures p <= q < |t| && !IsDigit(t[q])
    ensures forall k :: p <= k < q ==> IsDigit(t[k])
    decreases |t| - p
  {
    if IsDigit(t[p]) then DigitsEnd(t, p + 1) else p
  }

  /** The first position at or after `p` that does not hold a letter. */
  function LettersEnd(t: seq<char>, p: nat): (q: nat)
    requires Terminated(t) && p < |t|
    ensures p <= q < |t| && !IsLetter(t[q])
    ensures forall k :: p <= k < q ==> IsLetter(t[k])
    decreases |t| - p
  {
    if IsLetter(t[p]) then LettersEnd(t, p + 1) else p
  }

  /** A token and the position of the lookahead character after it. */
  datatype Lexeme = Lexeme(token: Token, next: nat)

  const DigitsAfterDot: string := "Expecting more digits after ."

  function UnknownCharacter(c: char): string
  {
    "Unknown character \"" + [c] + "\""
  }

  /** A NUMBER token from its first digit at `q`: digits, then optionally a
      '.' that must be followed by at least one more digit. */
  function LexNumber(t: seq<char>, q: nat): (r: Result<Lexeme, LanguageError>)
    requires Terminated(t) && q < |t| && IsDigit(t[q])
    ensures r.Success? ==> q < r.value.next < |t| && r.value.token.kind == NUMBER
  {
    var e := DigitsEnd(t, q + 1);
    if t[e] == '.' then
      if !IsDigit(t[e + 1]) then
        Failure(LanguageError(DigitsAfterDot, Interval(q, e)))
      else
        var e2 := DigitsEnd(t, e + 1);
        Success(Lexeme(Token(NUMBER, t[q..e2], Interval(q, e2 - 1)), e2))
    else
      Success(Lexeme(Token(NUMBER, t[q..e], Interval(q, e - 1)), e))
  }

  /** An IDENTIFIER token from its first letter at `q`: the longest run of letters. */
  function LexIdentifier(t: seq<char>, q: nat): (r: Result<Lexeme, LanguageError>)
    requires Terminated(t) && q < |t| && IsLetter(t[q])
    ensures r.Success? && q < r.value.next < |t| && r.value.token.kind == IDENTIFIER
  {
    var e := LettersEnd(t, q + 1);
    Success(Lexeme(Token(IDENTIFIER, t[q..e], Interval(q, e - 1)), e))
  }

  /** One call of `nextToken` with the lookahead at position `p`: skip
      whitespace, then read one token starting at `q`. A token's interval runs
      from `q` to the last character it consumed (`tokenStartIndex` to `i-2`). */
  function LexOne(t: seq<char>, p: nat): (r: Result<Lexeme, LanguageError>)
    requires Terminated(t) && p < |t|
    ensures r.Success? && r.value.token.kind == EOF ==> p < r.value.next <= |t|
    ensures r.Success? && r.value.token.kind != EOF ==> p < r.value.next < |t|
  {
    var q := SkipWhitespace(t, p);
    var c := t[q];
    if c == Sentinel then
      Success(Lexeme(Token(EOF, "", Interval(q, q)), q + 1))
    else if IsDigit(c) then LexNumber(t, q)
    else if IsSpecialSymbol(c) then
      Success(Lexeme(Token(Punct(c), "", Interval(q, q)), q + 1))
    else if IsLetter(c) then
      LexIdentifier(t, q)
    else
      Failure(LanguageError(UnknownCharacter(c), Interval(q, q - 1)))
  }

  /** `tokens` in front of a scan's outcome; an error stays an error. */
  function Prepend(tokens: seq<Token>, r: Result<seq<Token>, LanguageError>): Result<seq<Token>, LanguageError>
  {
    match r
    case Success(rest) => Success(tokens + rest)
    case Failure(e) => Failure(e)
  }

  /** The loop of `scan` from lookahead position `p`: tokens up to and
      including the first `EOF`, or the first error. */
  function ScanFrom(t: seq<char>, p: nat): Result<seq<Token>, LanguageError>
    requires Terminated(t) && p < |t|
    decreases |t| - p
  {
    match LexOne(t, p)
    case Failure(e) => Failure(e)
    case Success(l) =>
      if l.token.kind == EOF then Success([l.token])
      else Prepend([l.token], ScanFrom(t, l.next))
  }

  /** What `scan(source)` returns. */
  function ScanSpec(source: string): Result<seq<Token>, LanguageError>
  {
    ScanFrom(source + [Sentinel], 0)
  }

  /** The closure state of `scan`: the terminated source, the index `i` and
      the lookahead `peek`, which is `source[i-1]` once reading has begun. */
  class Scanner {
    const text: seq<char>
    var i: nat
    var peek: char

    ghost predicate Valid()
      reads this
    {
      && Terminated(text)
      && i <= |text| + 1
      && (i == 0 ==> peek == ' ')
      && (0 < i <= |text| ==> peek == text[i - 1])
    }

    /** The position the next token is looked for from. Before the first
        read `peek` is a blank, which skipping whitespace treats like a read
        of position 0. */
    ghost function Cursor(): nat
      reads this
    {
      if i == 0 then 0 else i - 1
    }

    constructor (source: string)
      ensures Valid()
      ensures text == source + [Sentinel] && i == 0 && peek == ' '
    {
      text := source + [Sentinel];
      i := 0;
      peek := ' ';
    }

    /** `readPeek`. Reading past the sentinel (only ever done when consuming
        the sentinel itself) leaves `peek` as it was; the source would set it
        to `undefined`, and it is never looked at again. */
    method ReadPeek()
      requires Valid() && i <= |text|
      modifies this`i, this`peek
      ensures Valid()
      ensures i == old(i) + 1
      ensures old(i) < |text| ==> peek == text[old(i)]
    {
      if i < |text| {
        peek := text[i];
      }
      i := i + 1;
    }

    /** The state after a call of `nextToken` matches `l`: the same token or
        error, and on a token the lookahead sits on the position after it. */
    ghost predicate Produced(r: Result<Token, LanguageError>, l: Result<Lexeme, LanguageError>)
      reads this
    {
      match l
      case Failure(e) => r == Failure(e)
      case Success(x) => r == Success(x.token) && i == x.next + 1
    }

    /** `nextToken`: the token or error `LexOne` gives at the cursor, leaving
        the lookahead on the character after the token. */
    method NextToken() returns (r: Result<Token, LanguageError>)
      requires Valid() && i <= |text|
      modifies this`i, this`peek
      ensures Valid()
      ensures Produced(r, LexOne(text, old(Cursor())))
    {
      ghost var p0 := Cursor();
      while IsWhitespace(peek)
        invariant Valid() && i <= |text|
        invariant SkipWhitespace(text, Cursor()) == SkipWhitespace(text, p0)
        decreases |text| - i
      {
        ReadPeek();
      }
      var tokenStartIndex := i - 1;
      assert tokenStartIndex == SkipWhitespace(text, p0);

      if peek == Sentinel {
        ReadPeek();
        return Success(Token(EOF, "", Interval(tokenStartIndex, i - 2)));
      }
      if IsDigit(peek) {
        r := ReadNumber();
        return;
      }
      if IsSpecialSymbol(peek) {
        var p := peek;
        ReadPeek();
        return Success(Token(Punct(p), "", Interval(tokenStartIndex, i - 2)));
      }
      if IsLetter(peek) {
        r := ReadIdentifier();
        return;
      }
      return Failure(LanguageError(UnknownCharacter(peek), Interval(tokenStartIndex, i - 2)));
    }

    /** The loop `while (isDigit(peek)) { value = value + peek; readPeek(); }`
        for a `value` that holds the text from `q` up to the lookahead. */
    method ReadDigits(value: string, ghost q: nat) returns (value': string)
      requires Valid() && 0 < i <= |text| && q <= i - 1 && value == text[q..i - 1]
      modifies this`i, this`peek
      ensures Valid() && old(i) <= i <= |text|
      ensures i - 1 == DigitsEnd(text, old(i) - 1)
      ensures value' == text[q..i - 1]
    {
      value' := value;
      while IsDigit(peek)
        invariant Valid() && old(i) <= i <= |text|
        invariant value' == text[q..i - 1]
        invariant DigitsEnd(text, i - 1) == DigitsEnd(text, old(i) - 1)
        decreases |text| - i
      {
        value' := value' + [peek];
        ReadPeek();
      }
    }

    /** The digit branch of `nextToken`, with the lookahead on the first digit. */
    method ReadNumber() returns (r: Result<Token, LanguageError>)
      requires Valid() && 0 < i <= |text| && IsDigit(peek)
      modifies this`i, this`peek
      ensures Valid()
      ensures Produced(r, LexNumber(text, old(i) - 1))
    {
      var tokenStartIndex := i - 1;
      var value := [peek];
      ReadPeek();
      value := ReadDigits(value, tokenStartIndex);
      if peek == '.' {
        value := value + ['.'];
        ReadPeek();
        if !IsDigit(peek) {
          return Failure(LanguageError(DigitsAfterDot, Interval(tokenStartIndex, i - 2)));
        }
        value := ReadDigits(value, tokenStartIndex);
      }
      return Success(Token(NUMBER, value, Interval(tokenStartIndex, i - 2)));
    }

    /** The letter branch of `nextToken`, with the lookahead on the first letter. */
    method ReadIdentifier() returns (r: Result<Token, LanguageError>)
      requires Valid() && 0 < i <= |text| && IsLetter(peek)
      modifies this`i, this`peek
      ensures Valid()
      ensures Produced(r, LexIdentifier(text, old(i) - 1))
    {
      var tokenStartIndex := i - 1;
      ghost var q := tokenStartIndex;
      var value := [peek];
      ReadPeek();
      while IsLetter(peek)
        invariant Valid() && q + 1 <= i - 1 < |text|
        invariant value == text[q..i - 1]
        invariant LettersEnd(text, i - 1) == LettersEnd(text, q + 1)
        decreases |text| - i
      {
        value := value + [peek];
        ReadPeek();
      }
      return Success(Token(IDENTIFIER, value, Interval(tokenStartIndex, i - 2)));
    }
  }

  /** `scan`: call `nextToken` until it yields `EOF` or an error; an error is
      returned alone, without the tokens read before it. */
  method Scan(source: string) returns (r: Result<seq<Token>, LanguageError>)
    ensures r == ScanSpec(source)
  {
    var scanner := new Scanner(source);
    var tokens: seq<Token> := [];
    assert Prepend([], ScanSpec(source)) == ScanSpec(source) by {
      if ScanSpec(source).Success? { assert [] + ScanSpec(source).value == ScanSpec(source).value; }
    }
    while true
      invariant scanner.Valid() && scanner.i <= |scanner.text|
      invariant scanner.text == source + [Sentinel]
      invariant ScanSpec(source) == Prepend(tokens, ScanFrom(scanner.text, scanner.Cursor()))
      decreases |scanner.text| - scanner.i
    {
      ghost var cursor := scanner.Cursor();
      var token := scanner.NextToken();
      if token.Failure? {
        return Failure(token.error);
      }
      tokens := tokens + [token.value];
      if token.value.kind == EOF {
        return Success(tokens);
      }
      ghost var l := LexOne(scanner.text, cursor).value;
      assert ScanFrom(scanner.text, cursor) == Prepend([l.token], ScanFrom(scanner.text, l.next));
      assert scanner.Cursor() == l.next;
      assert forall a, b, x :: Prepend(a, Prepend(b, x)) == Prepend(a + b, x) by {
        forall a, b, x ensures Prepend(a, Prepend(b, x)) == Prepend(a + b, x) {
          if x.Success? { assert a + (b + x.value) == (a + b) + x.value; }
        }
      }
    }
  }
}
