/** Properties of the parser specification (worker.js:470-665). */
module ParserFacts {
  import opened Wrappers
  import opened Numbers
  import opened Syntax
  import opened Parser

  predicate IsAdditive(k: Kind)
  {
    k == Punct('+') || k == Punct('-')
  }

  predicate IsMultiplicative(k: Kind)
  {
    k == Punct('*') || k == Punct('/')
  }

  function AdditiveOp(k: Kind): Op
  {
    if k == Punct('+') then Plus else Minus
  }

  function MultiplicativeOp(k: Kind): Op
  {
    if k == Punct('*') then Times else Over
  }

  /** The number node for the unsigned NUMBER token at `j`. */
  function NumberOf(ts: seq<Token>, j: nat): Node
    requires Wf(ts) && j < |ts| && ts[j].kind == NUMBER
  {
    NumberNodeOf(ts[j..j + 1])
  }

  lemma {:induction false} NumberAtUnsigned(ts: seq<Token>, j: nat)
    requires Wf(ts) && j < |ts| && ts[j].kind == NUMBER
    ensures FactorAt(ts, j) == Success(Parsed(NumberOf(ts, j), j + 1))
  {
  }

  /** A NUMBER followed by a token that continues no term is a whole term. */
  lemma {:induction false} NumberTerm(ts: seq<Token>, j: nat)
    requires Wf(ts) && j + 1 < |ts| && ts[j].kind == NUMBER && !IsMultiplicative(ts[j + 1].kind)
    ensures TermAt(ts, j) == Success(Parsed(NumberOf(ts, j), j + 1))
  {
    NumberAtUnsigned(ts, j);
  }

  /** `parseTerm`'s loop runs while there is a '*' or '/': a term stops only
      at a token that continues no product. */
  lemma {:induction false} TermLoopMaximal(ts: seq<Token>, left: Node, pos: nat)
    requires Wf(ts) && pos < |ts| && WellFormed(left)
    ensures var r := TermLoop(ts, left, pos);
      r.Success? ==> !IsMultiplicative(ts[r.value.next].kind)
    decreases |ts| - pos
  {
    if IsMultiplicative(ts[pos].kind) {
      var right := FactorAt(ts, pos + 1);
      if right.Success? {
        TermLoopMaximal(ts, Operator(ts[pos], MultiplicativeOp(ts[pos].kind), left, right.value.value), right.value.next);
      }
    }
  }

  /** A term takes every '*' and '/' that follows one of its factors. */
  lemma {:induction false} TermTakesAllProducts(ts: seq<Token>, p: nat)
    requires Wf(ts) && p < |ts|
    ensures TermAt(ts, p).Success? ==> !IsMultiplicative(ts[TermAt(ts, p).value.next].kind)
  {
    var first := FactorAt(ts, p);
    if first.Success? {
      TermLoopMaximal(ts, first.value.value, first.value.next);
    }
  }

  /** An expression takes every '+' and '-' that follows one of its terms, and
      (its last term being maximal) every '*' and '/' as well. */
  lemma {:induction false} ExprTakesAllOperators(ts: seq<Token>, p: nat)
    requires Wf(ts) && p < |ts|
    ensures var r := ExprAt(ts, p);
      r.Success? ==> !IsAdditive(ts[r.value.next].kind) && !IsMultiplicative(ts[r.value.next].kind)
  {
    var first := TermAt(ts, p);
    if first.Success? {
      TermTakesAllProducts(ts, p);
      ExprLoopMaximal(ts, first.value.value, first.value.next);
    }
  }

  /** `parseExpression`'s loop runs while there is a '+' or '-'; started
      after a whole term, it also stops after a whole term. */
  lemma {:induction false} ExprLoopMaximal(ts: seq<Token>, left: Node, pos: nat)
    requires Wf(ts) && pos < |ts| && WellFormed(left)
    requires !IsMultiplicative(ts[pos].kind)
    ensures var r := ExprLoop(ts, left, pos);
      r.Success? ==> !IsAdditive(ts[r.value.next].kind) && !IsMultiplicative(ts[r.value.next].kind)
    decreases |ts| - pos
  {
    if IsAdditive(ts[pos].kind) {
      var right := TermAt(ts, pos + 1);
      if right.Success? {
        TermTakesAllProducts(ts, pos + 1);
        ExprLoopMaximal(ts, Operator(ts[pos], AdditiveOp(ts[pos].kind), left, right.value.value), right.value.next);
      }
    }
  }

  /** `a + b * c` groups as `a + (b * c)` for any term `a` and factors `b`
      and `c`: '*' and '/' bind tighter than '+' and '-'. */
  lemma {:induction false} MultiplicationBindsTighter(ts: seq<Token>, p: nat, a: Node, q: nat, b: Node, r: nat, c: Node, s: nat)
    requires Wf(ts) && p < |ts|
    requires TermAt(ts, p) == Success(Parsed(a, q)) && q + 1 < |ts| && IsAdditive(ts[q].kind)
    requires FactorAt(ts, q + 1) == Success(Parsed(b, r)) && r + 1 < |ts| && IsMultiplicative(ts[r].kind)
    requires FactorAt(ts, r + 1) == Success(Parsed(c, s)) && s < |ts|
    requires !IsAdditive(ts[s].kind) && !IsMultiplicative(ts[s].kind)
    ensures ExprAt(ts, p) == Success(Parsed(
      Operator(ts[q], AdditiveOp(ts[q].kind), a, Operator(ts[r], MultiplicativeOp(ts[r].kind), b, c)), s))
  {
    var product := Operator(ts[r], MultiplicativeOp(ts[r].kind), b, c);
    TermLoopStep(ts, b, r, c, s);
    assert TermLoop(ts, product, s) == Success(Parsed(product, s));
    assert TermAt(ts, q + 1) == Success(Parsed(product, s));
    ExprLoopStep(ts, a, q, product, s);
    var sum := Operator(ts[q], AdditiveOp(ts[q].kind), a, product);
    assert ExprLoop(ts, sum, s) == Success(Parsed(sum, s));
  }

  /** `a * b + c` groups as `(a * b) + c` for any factors `a` and `b` and any
      term `c`. */
  lemma {:induction false} ProductBeforeSum(ts: seq<Token>, p: nat, a: Node, q: nat, b: Node, r: nat, c: Node, s: nat)
    requires Wf(ts) && p < |ts|
    requires FactorAt(ts, p) == Success(Parsed(a, q)) && q + 1 < |ts| && IsMultiplicative(ts[q].kind)
    requires FactorAt(ts, q + 1) == Success(Parsed(b, r)) && r + 1 < |ts| && IsAdditive(ts[r].kind)
    requires TermAt(ts, r + 1) == Success(Parsed(c, s)) && s < |ts| && !IsAdditive(ts[s].kind)
    ensures ExprAt(ts, p) == Success(Parsed(
      Operator(ts[r], AdditiveOp(ts[r].kind), Operator(ts[q], MultiplicativeOp(ts[q].kind), a, b), c), s))
  {
    var product := Operator(ts[q], MultiplicativeOp(ts[q].kind), a, b);
    TermLoopStep(ts, a, q, b, r);
    assert TermLoop(ts, product, r) == Success(Parsed(product, r));
    assert TermAt(ts, p) == Success(Parsed(product, r));
    ExprLoopStep(ts, product, r, c, s);
    var sum := Operator(ts[r], AdditiveOp(ts[r].kind), product, c);
    assert ExprLoop(ts, sum, s) == Success(Parsed(sum, s));
  }

  /** `a - b - c` groups as `(a - b) - c` for any terms `a`, `b` and `c`:
      operators of one level associate to the left. */
  lemma {:induction false} SumsGroupLeft(ts: seq<Token>, p: nat, a: Node, q: nat, b: Node, r: nat, c: Node, s: nat)
    requires Wf(ts) && p < |ts|
    requires TermAt(ts, p) == Success(Parsed(a, q)) && q + 1 < |ts| && IsAdditive(ts[q].kind)
    requires TermAt(ts, q + 1) == Success(Parsed(b, r)) && r + 1 < |ts| && IsAdditive(ts[r].kind)
    requires TermAt(ts, r + 1) == Success(Parsed(c, s)) && s < |ts| && !IsAdditive(ts[s].kind)
    ensures ExprAt(ts, p) == Success(Parsed(
      Operator(ts[r], AdditiveOp(ts[r].kind), Operator(ts[q], AdditiveOp(ts[q].kind), a, b), c), s))
  {
    var first := Operator(ts[q], AdditiveOp(ts[q].kind), a, b);
    var second := Operator(ts[r], AdditiveOp(ts[r].kind), first, c);
    ExprLoopStep(ts, a, q, b, r);
    ExprLoopStep(ts, first, r, c, s);
    assert ExprLoop(ts, second, s) == Success(Parsed(second, s));
  }

  /** `a / b * c` groups as `(a / b) * c` for any factors `a`, `b` and `c`. */
  lemma {:induction false} ProductsGroupLeft(ts: seq<Token>, p: nat, a: Node, q: nat, b: Node, r: nat, c: Node, s: nat)
    requires Wf(ts) && p < |ts|
    requires FactorAt(ts, p) == Success(Parsed(a, q)) && q + 1 < |ts| && IsMultiplicative(ts[q].kind)
    requires FactorAt(ts, q + 1) == Success(Parsed(b, r)) && r + 1 < |ts| && IsMultiplicative(ts[r].kind)
    requires FactorAt(ts, r + 1) == Success(Parsed(c, s)) && s < |ts| && !IsMultiplicative(ts[s].kind)
    ensures TermAt(ts, p) == Success(Parsed(
      Operator(ts[r], MultiplicativeOp(ts[r].kind), Operator(ts[q], MultiplicativeOp(ts[q].kind), a, b), c), s))
  {
    var first := Operator(ts[q], MultiplicativeOp(ts[q].kind), a, b);
    var second := Operator(ts[r], MultiplicativeOp(ts[r].kind), first, c);
    TermLoopStep(ts, a, q, b, r);
    TermLoopStep(ts, first, r, c, s);
    assert TermLoop(ts, second, s) == Success(Parsed(second, s));
  }

  /** A successful parse of a token list with a single `EOF` yields at least
      one function, only function nodes as operands at every level, and
      consumes every token. */
  lemma {:induction false} ParseConsumesAll(ts: seq<Token>)
    requires Wf(ts) && forall j :: 0 <= j < |ts| - 1 ==> ts[j].kind != EOF
    requires ParseSpec(ts).Success?
    ensures var root := ParseSpec(ts).value.value;
      && |root.operands| > 0
      && OperandsWellFormed(root.operands)
      && ParseSpec(ts).value.next == |ts| - 1
  {
  }

  /** The program must begin with a function name. */
  lemma {:induction false} LeadingNonIdentifier(ts: seq<Token>)
    requires Wf(ts) && ts[0].kind != IDENTIFIER
    ensures ParseSpec(ts) == Failure(LanguageError(
      "Expecting function name, got " + KindName(ts[0].kind) + " instead.", ts[0].interval))
  {
  }

  /** A token after a complete function that is neither `EOF` nor a name
      is reported as a missing function name. */
  lemma {:induction false} TrailingNonIdentifier(ts: seq<Token>, pos: nat, acc: seq<Node>)
    requires Wf(ts) && pos < |ts| && OperandsWellFormed(acc) && FunctionAt(ts, pos).Success?
    requires var q := FunctionAt(ts, pos).value.next; ts[q].kind != EOF && ts[q].kind != IDENTIFIER
    ensures var q := FunctionAt(ts, pos).value.next;
      FunctionsLoop(ts, pos, acc) == Failure(LanguageError(
        "Expecting function name, got " + KindName(ts[q].kind) + " instead.", ts[q].interval))
  {
  }

  /** An operand that parses as an expression but not as a function is an
      error at the operand's own interval. */
  lemma {:induction false} NonGeometryOperandRejected(ts: seq<Token>, pos: nat, acc: seq<Node>)
    requires Wf(ts) && pos < |ts| && OperandsWellFormed(acc) && ts[pos].kind != Punct('}')
    requires ExprAt(ts, pos).Success? && !ExprAt(ts, pos).value.value.FunctionNode?
    ensures var e := ExprAt(ts, pos).value.value;
      OperandsLoop(ts, pos, acc) == Failure(LanguageError(NonGeometryOperand(e), e.interval))
  {
  }

  /** An operand list that runs into `EOF` is an unclosed brace. */
  lemma {:induction false} UnclosedBrace(ts: seq<Token>, pos: nat, acc: seq<Node>)
    requires Wf(ts) && pos < |ts| && OperandsWellFormed(acc) && ts[pos].kind != Punct('}')
    requires ExprAt(ts, pos).Success? && ExprAt(ts, pos).value.value.FunctionNode?
    requires ts[ExprAt(ts, pos).value.next].kind == EOF
    ensures OperandsLoop(ts, pos, acc) == Failure(LanguageError(ClosingBrace, ts[ExprAt(ts, pos).value.next].interval))
  {
  }

  /** A parameter pass sets its name to the parsed expression and leaves
      every other name as it was, so a repeated name keeps the later value. */
  lemma {:induction false} ParamAtAssigns(ts: seq<Token>, pos: nat, acc: seq<Param>)
    requires Wf(ts) && pos < |ts| && ParamsWellFormed(acc) && ParamAt(ts, pos, acc).Success?
    ensures ts[pos].kind == IDENTIFIER && ExprAt(ts, pos + 2).Success?
    ensures var r := ParamAt(ts, pos, acc).value.value;
      && Lookup(r, ts[pos].value) == Some(ExprAt(ts, pos + 2).value.value)
      && ParamNames(r) == ParamNames(acc) + {ts[pos].value}
      && forall other :: other != ts[pos].value ==> Lookup(r, other) == Lookup(acc, other)
  {
  }

  /** An operator node spans exactly its operator token and both operands. */
  lemma {:induction false} OperatorSpan(token: Token, op: Op, left: Node, right: Node, b: Interval)
    ensures var iv := Operator(token, op, left, right).interval;
      Encloses(iv, token.interval) && Encloses(iv, left.interval) && Encloses(iv, right.interval)
    ensures Encloses(b, token.interval) && Encloses(b, left.interval) && Encloses(b, right.interval)
      ==> Encloses(b, Operator(token, op, left, right).interval)
  {
    var ivs := [left.interval, right.interval];
    assert Encloses(Enclose(token.interval, ivs), ivs[0]) && Encloses(Enclose(token.interval, ivs), ivs[1]);
    if Encloses(b, token.interval) && Encloses(b, left.interval) && Encloses(b, right.interval) {
      EncloseSmallest(token.interval, ivs, b);
    }
  }
}
