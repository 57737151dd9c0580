/** The recursive-descent parser `parse` (worker.js:470-665) and the node
    constructors it uses (worker.js:376-383, 400-468).

    The functions ending in `At` and `Loop` say what each nested `parse*`
    function returns when the current token is `ts[pos]`: a node and the
    position of the token after it, or the first error. The class `Parser`
    is the closure state of `parse` (the index `i` and the current `token`),
    and its methods are proved to follow those functions. */
module Parser {
  import opened Wrappers
  import opened Numbers
  import opened Syntax

  /** A parsed value and the position of the current token after it. */
  datatype Parsed<+T> = Parsed(value: T, next: nat)

  /** What the parser relies on from the lexer: the list ends with `EOF`, and
      every NUMBER token holds number text. */
  predicate Wf(ts: seq<Token>)
  {
    && |ts| > 0 && ts[|ts| - 1].kind == EOF
    && forall j :: 0 <= j < |ts| && ts[j].kind == NUMBER ==> IsNumberText(ts[j].value)
  }

  /** A parse result whose every function node has only function nodes as
      operands. */
  predicate WellFormed(n: Node)
  {
    match n
    case NumberNode(_, _) => true
    case OperatorNode(_, l, r, _) => WellFormed(l) && WellFormed(r)
    case FunctionNode(_, ps, os, _) => ParamsWellFormed(ps) && OperandsWellFormed(os)
  }

  predicate ParamsWellFormed(ps: seq<Param>)
  {
    forall j :: 0 <= j < |ps| ==> WellFormed(ps[j].value)
  }

  predicate OperandsWellFormed(os: seq<Node>)
  {
    forall j :: 0 <= j < |os| ==> os[j].FunctionNode? && WellFormed(os[j])
  }

  lemma {:induction false} AssignWellFormed(ps: seq<Param>, name: string, value: Node)
    requires ParamsWellFormed(ps) && WellFormed(value)
    ensures ParamsWellFormed(Assign(ps, name, value))
  {
    if ps != [] && ps[0].name != name {
      AssignWellFormed(ps[1..], name, value);
      assert Assign(ps, name, value) == [ps[0]] + Assign(ps[1..], name, value);
    }
  }

  function TokenIntervals(ts: seq<Token>): (r: seq<Interval>)
    ensures |r| == |ts| && forall j :: 0 <= j < |ts| ==> r[j] == ts[j].interval
  {
    seq(|ts|, j requires 0 <= j < |ts| => ts[j].interval)
  }

  function NodeIntervals(ns: seq<Node>): (r: seq<Interval>)
    ensures |r| == |ns| && forall j :: 0 <= j < |ns| ==> r[j] == ns[j].interval
  {
    if ns == [] then [] else [ns[0].interval] + NodeIntervals(ns[1..])
  }

  function ParamIntervals(ps: seq<Param>): (r: seq<Interval>)
    ensures |r| == |ps| && forall j :: 0 <= j < |ps| ==> r[j] == ps[j].value.interval
  {
    seq(|ps|, j requires 0 <= j < |ps| => ps[j].value.interval)
  }

  /** `unitedIntervalsOfNodes` of a non-empty list. */
  function United(ivs: seq<Interval>): Interval
    requires |ivs| > 0
  {
    Unite(None, ivs).value
  }

  predicate IsSign(k: Kind)
  {
    k == Punct('-') || k == Punct('+')
  }

  /** The texts `NumberNode` joins before `parseFloat`: a sign token by its
      kind, the NUMBER token by its value. */
  function JoinedText(toks: seq<Token>): string
  {
    if toks == [] then ""
    else (if toks[0].kind == NUMBER then toks[0].value else KindName(toks[0].kind)) + JoinedText(toks[1..])
  }

  /** `new NumberNode(tokens)` for an optional sign and a NUMBER token. */
  function NumberNodeOf(toks: seq<Token>): (n: Node)
    requires 1 <= |toks| <= 2 && toks[|toks| - 1].kind == NUMBER && IsNumberText(toks[|toks| - 1].value)
    requires |toks| == 2 ==> IsSign(toks[0].kind)
    ensures n.NumberNode?
    ensures n.interval == if |toks| == 1 then toks[0].interval else Union(toks[0].interval, toks[1].interval)
    ensures toks[0].kind == Punct('-') ==> n.value == -DecimalValue(toks[1].value) <= 0.0
    ensures toks[0].kind != Punct('-') ==> n.value == DecimalValue(toks[|toks| - 1].value) >= 0.0
  {
    NumberTokensText(toks);
    UnitedTwo(TokenIntervals(toks));
    SignedValue(toks);
    NumberNode(ParseFloat(JoinedText(toks)), United(TokenIntervals(toks)))
  }

  /** The joined text of an optional sign and a NUMBER token is what
      `parseFloat` is handed: the sign, if any, then the number's text. */
  lemma {:induction false} NumberTokensText(toks: seq<Token>)
    requires 1 <= |toks| <= 2 && toks[|toks| - 1].kind == NUMBER && IsNumberText(toks[|toks| - 1].value)
    requires |toks| == 2 ==> IsSign(toks[0].kind)
    ensures var text := JoinedText(toks);
      && |text| > 0
      && (text[0] in "+-" ==> IsNumberText(text[1..]))
      && (text[0] !in "+-" ==> IsNumberText(text))
      && text == (if |toks| == 2 then KindName(toks[0].kind) else "") + toks[|toks| - 1].value
  {
    var value := toks[|toks| - 1].value;
    NumberTextStartsWithDigit(value);
    if |toks| == 1 {
      assert JoinedText(toks[1..]) == "";
      assert JoinedText(toks) == value;
    } else {
      assert JoinedText(toks[1..][1..]) == "";
      assert JoinedText(toks[1..]) == value;
      assert JoinedText(toks) == KindName(toks[0].kind) + value;
      assert JoinedText(toks)[1..] == value;
    }
  }

  /** The union of one or two intervals. */
  lemma {:induction false} UnitedTwo(ivs: seq<Interval>)
    requires 1 <= |ivs| <= 2
    ensures United(ivs) == if |ivs| == 1 then ivs[0] else Union(ivs[0], ivs[1])
  {
    assert Unite(None, ivs) == Unite(Some(ivs[0]), ivs[1..]);
    if |ivs| == 2 {
      assert ivs[1..][1..] == [];
    }
  }

  /** `parseFloat` of the joined text: the NUMBER's value, negated after '-'. */
  lemma {:induction false} SignedValue(toks: seq<Token>)
    requires 1 <= |toks| <= 2 && toks[|toks| - 1].kind == NUMBER && IsNumberText(toks[|toks| - 1].value)
    requires |toks| == 2 ==> IsSign(toks[0].kind)
    ensures (NumberTokensText(toks); var v := ParseFloat(JoinedText(toks));
      && (toks[0].kind == Punct('-') ==> v == -DecimalValue(toks[1].value))
      && (toks[0].kind != Punct('-') ==> v == DecimalValue(toks[|toks| - 1].value)))
  {
    NumberTokensText(toks);
    var text, value := JoinedText(toks), toks[|toks| - 1].value;
    NumberTextStartsWithDigit(value);
    if |toks| == 2 {
      assert text[0] == KindName(toks[0].kind)[0] && text[1..] == value;
    } else {
      assert text == value;
    }
  }

  lemma {:induction false} NumberTextStartsWithDigit(s: string)
    requires IsNumberText(s)
    ensures |s| > 0 && IsDigit(s[0]) && s[0] !in "+-"
  {
    assert s[..DotIndex(s)][0] == s[0];
  }

  function ErrorAt(ts: seq<Token>, pos: nat, message: string): LanguageError
    requires pos < |ts|
  {
    LanguageError(message, ts[pos].interval)
  }

  function Unexpected(k: Kind): string
  {
    "Unexpected token: " + KindName(k)
  }

  function NonGeometryOperand(n: Node): string
  {
    "All operands of geometry functions should be geometry functions, this one is " + NodeName(n)
  }

  const ClosingParenthesis: string := "Expecting closing )"
  const ClosingBrace: string := "Expecting closing }"
  const ParameterSeparator: string := "Expecting closing ) or , argument separator"

  /** `parseNumber`: an optional '+' or '-', then a NUMBER. */
  function NumberAt(ts: seq<Token>, pos: nat): (r: Result<Parsed<Node>, LanguageError>)
    requires Wf(ts) && pos < |ts|
    ensures r.Success? ==> pos < r.value.next < |ts| && r.value.value.NumberNode?
  {
    var start := if IsSign(ts[pos].kind) then pos + 1 else pos;
    if ts[start].kind != NUMBER then Failure(ErrorAt(ts, start, Unexpected(ts[start].kind)))
    else Success(Parsed(NumberNodeOf(ts[pos..start + 1]), start + 1))
  }

  /** A sign, if there is one, and then the NUMBER token at `start`. */
  lemma {:induction false} NumberAtSteps(ts: seq<Token>, pos: nat, start: nat, toks: seq<Token>)
    requires Wf(ts) && pos <= start < |ts| && ts[start].kind == NUMBER
    requires start == if IsSign(ts[pos].kind) then pos + 1 else pos
    requires toks == ts[pos..start + 1]
    ensures 1 <= |toks| <= 2 && toks[|toks| - 1].kind == NUMBER && IsNumberText(toks[|toks| - 1].value)
    ensures |toks| == 2 ==> IsSign(toks[0].kind)
    ensures NumberAt(ts, pos) == Success(Parsed(NumberNodeOf(toks), start + 1))
  {
  }

  /** `parseParentheses`, called on a '(': the inner expression itself, whose
      interval does not include the parentheses. */
  function ParenthesesAt(ts: seq<Token>, pos: nat): (r: Result<Parsed<Node>, LanguageError>)
    requires Wf(ts) && pos < |ts| && ts[pos].kind == Punct('(')
    ensures r.Success? ==> pos < r.value.next < |ts| && WellFormed(r.value.value)
    decreases |ts| - pos, 0
  {
    var inner :- ExprAt(ts, pos + 1);
    if ts[inner.next].kind != Punct(')') then Failure(ErrorAt(ts, inner.next, ClosingParenthesis))
    else Success(Parsed(inner.value, inner.next + 1))
  }

  /** `parseFunction`: a name, an optional parameter list, an optional list of
      operands in braces. */
  function FunctionAt(ts: seq<Token>, pos: nat): (r: Result<Parsed<Node>, LanguageError>)
    requires Wf(ts) && pos < |ts|
    ensures r.Success? ==> pos < r.value.next < |ts| && r.value.value.FunctionNode? && WellFormed(r.value.value)
    decreases |ts| - pos, 0
  {
    if ts[pos].kind != IDENTIFIER then
      Failure(ErrorAt(ts, pos, "Expecting function name, got " + KindName(ts[pos].kind) + " instead."))
    else
      var params :- ParamsPart(ts, pos + 1);
      var operands :- OperandsPart(ts, params.next);
      var interval := Enclose(ts[pos].interval, NodeIntervals(operands.value) + ParamIntervals(params.value));
      Success(Parsed(FunctionNode(ts[pos].value, params.value, operands.value, interval), operands.next))
  }

  /** The parameter list of `parseFunction`, if the current token is '('. */
  function ParamsPart(ts: seq<Token>, pos: nat): (r: Result<Parsed<seq<Param>>, LanguageError>)
    requires Wf(ts) && pos < |ts|
    ensures r.Success? ==> pos <= r.value.next < |ts| && ParamsWellFormed(r.value.value)
    decreases |ts| - pos, 0
  {
    if ts[pos].kind != Punct('(') then Success(Parsed([], pos))
    else
      var params :- ParamsLoop(ts, pos + 1, []);
      Success(Parsed(params.value, params.next + 1))
  }

  /** The loop `while (token.kind != ')')` over parameters. */
  function ParamsLoop(ts: seq<Token>, pos: nat, acc: seq<Param>): (r: Result<Parsed<seq<Param>>, LanguageError>)
    requires Wf(ts) && pos < |ts| && ParamsWellFormed(acc)
    ensures r.Success? ==> pos <= r.value.next < |ts| && ts[r.value.next].kind == Punct(')')
    ensures r.Success? ==> ParamsWellFormed(r.value.value)
    decreases |ts| - pos, 1
  {
    if ts[pos].kind == Punct(')') then Success(Parsed(acc, pos))
    else
      var step :- ParamAt(ts, pos, acc);
      ParamsLoop(ts, step.next, step.value)
  }

  /** One pass of that loop: `name = expression`, then ')' or ',' (a ','
      is read, a ')' is left for the loop). A repeated name takes the later
      value. */
  function ParamAt(ts: seq<Token>, pos: nat, acc: seq<Param>): (r: Result<Parsed<seq<Param>>, LanguageError>)
    requires Wf(ts) && pos < |ts| && ParamsWellFormed(acc)
    ensures r.Success? ==> pos < r.value.next < |ts| && ParamsWellFormed(r.value.value)
    decreases |ts| - pos, 0
  {
    if ts[pos].kind != IDENTIFIER then
      Failure(ErrorAt(ts, pos, "Expecting parameter name, got " + KindName(ts[pos].kind) + " instead."))
    else if ts[pos + 1].kind != Punct('=') then
      Failure(ErrorAt(ts, pos + 1, "Expecting = after parameter name, got " + KindName(ts[pos + 1].kind) + " instead."))
    else
      var value :- ExprAt(ts, pos + 2);
      AssignWellFormed(acc, ts[pos].value, value.value);
      var acc' := Assign(acc, ts[pos].value, value.value);
      var q := value.next;
      if ts[q].kind == Punct(',') then Success(Parsed(acc', q + 1))
      else if ts[q].kind == Punct(')') then Success(Parsed(acc', q))
      else Failure(ErrorAt(ts, q, ParameterSeparator))
  }

  /** The operand list of `parseFunction`, if the current token is '{'. */
  function OperandsPart(ts: seq<Token>, pos: nat): (r: Result<Parsed<seq<Node>>, LanguageError>)
    requires Wf(ts) && pos < |ts|
    ensures r.Success? ==> pos <= r.value.next < |ts| && OperandsWellFormed(r.value.value)
    decreases |ts| - pos, 0
  {
    if ts[pos].kind != Punct('{') then Success(Parsed([], pos))
    else
      var operands :- OperandsLoop(ts, pos + 1, []);
      Success(Parsed(operands.value, operands.next + 1))
  }

  /** The loop `while (token.kind != '}')`: each operand is an expression
      that must be a function node, and `EOF` after one is an error. */
  function OperandsLoop(ts: seq<Token>, pos: nat, acc: seq<Node>): (r: Result<Parsed<seq<Node>>, LanguageError>)
    requires Wf(ts) && pos < |ts| && OperandsWellFormed(acc)
    ensures r.Success? ==> pos <= r.value.next < |ts| && ts[r.value.next].kind == Punct('}')
    ensures r.Success? ==> OperandsWellFormed(r.value.value)
    decreases |ts| - pos, 4
  {
    if ts[pos].kind == Punct('}') then Success(Parsed(acc, pos))
    else
      var operand :- ExprAt(ts, pos);
      if !operand.value.FunctionNode? then
        Failure(LanguageError(NonGeometryOperand(operand.value), operand.value.interval))
      else if ts[operand.next].kind == EOF then Failure(ErrorAt(ts, operand.next, ClosingBrace))
      else OperandsLoop(ts, operand.next, acc + [operand.value])
  }

  /** `parseFactor`: a number, a parenthesised expression or a function. */
  function FactorAt(ts: seq<Token>, pos: nat): (r: Result<Parsed<Node>, LanguageError>)
    requires Wf(ts) && pos < |ts|
    ensures r.Success? ==> pos < r.value.next < |ts| && WellFormed(r.value.value)
    decreases |ts| - pos, 1
  {
    var k := ts[pos].kind;
    if k == NUMBER || IsSign(k) then NumberAt(ts, pos)
    else if k == Punct('(') then ParenthesesAt(ts, pos)
    else if k == IDENTIFIER then FunctionAt(ts, pos)
    else Failure(ErrorAt(ts, pos, Unexpected(k)))
  }

  /** An operator node: `token.interval.union(unitedIntervalsOfNodes([l, r]))`. */
  function Operator(token: Token, op: Op, left: Node, right: Node): (r: Node)
    ensures r.OperatorNode? && r.op == op && r.left == left && r.right == right
    ensures Encloses(r.interval, token.interval)
    ensures Encloses(r.interval, left.interval) && Encloses(r.interval, right.interval)
  {
    var ivs := [left.interval, right.interval];
    assert ivs[0] == left.interval && ivs[1] == right.interval;
    OperatorNode(op, left, right, Enclose(token.interval, ivs))
  }

  /** `parseTerm`: factors joined by '*' and '/', grouped to the left. */
  function TermAt(ts: seq<Token>, pos: nat): (r: Result<Parsed<Node>, LanguageError>)
    requires Wf(ts) && pos < |ts|
    ensures r.Success? ==> pos < r.value.next < |ts| && WellFormed(r.value.value)
    decreases |ts| - pos, 2
  {
    var first :- FactorAt(ts, pos);
    TermLoop(ts, first.value, first.next)
  }

  function TermLoop(ts: seq<Token>, left: Node, pos: nat): (r: Result<Parsed<Node>, LanguageError>)
    requires Wf(ts) && pos < |ts| && WellFormed(left)
    ensures r.Success? ==> pos <= r.value.next < |ts| && WellFormed(r.value.value)
    decreases |ts| - pos, 2
  {
    var k := ts[pos].kind;
    if k == Punct('*') || k == Punct('/') then
      var right :- FactorAt(ts, pos + 1);
      TermLoop(ts, Operator(ts[pos], if k == Punct('*') then Times else Over, left, right.value), right.next)
    else Success(Parsed(left, pos))
  }

  /** One turn of `parseTerm`'s loop, on a '*' or '/' at `pos`, whose factor
      after it is `right`, ending at `next`. */
  lemma {:induction false} TermLoopStep(ts: seq<Token>, left: Node, pos: nat, right: Node, next: nat)
    requires Wf(ts) && pos + 1 < |ts| && WellFormed(left) && (ts[pos].kind == Punct('*') || ts[pos].kind == Punct('/'))
    requires FactorAt(ts, pos + 1) == Success(Parsed(right, next))
    ensures next < |ts| && WellFormed(right)
    ensures TermLoop(ts, left, pos) == TermLoop(ts, Operator(ts[pos], if ts[pos].kind == Punct('*') then Times else Over, left, right), next)
  {
  }

  /** `parseExpression`: terms joined by '+' and '-', grouped to the left. */
  function ExprAt(ts: seq<Token>, pos: nat): (r: Result<Parsed<Node>, LanguageError>)
    requires Wf(ts) && pos < |ts|
    ensures r.Success? ==> pos < r.value.next < |ts| && WellFormed(r.value.value)
    decreases |ts| - pos, 3
  {
    var first :- TermAt(ts, pos);
    ExprLoop(ts, first.value, first.next)
  }

  function ExprLoop(ts: seq<Token>, left: Node, pos: nat): (r: Result<Parsed<Node>, LanguageError>)
    requires Wf(ts) && pos < |ts| && WellFormed(left)
    ensures r.Success? ==> pos <= r.value.next < |ts| && WellFormed(r.value.value)
    decreases |ts| - pos, 3
  {
    var k := ts[pos].kind;
    if k == Punct('+') || k == Punct('-') then
      var right :- TermAt(ts, pos + 1);
      ExprLoop(ts, Operator(ts[pos], if k == Punct('+') then Plus else Minus, left, right.value), right.next)
    else Success(Parsed(left, pos))
  }

  /** One turn of `parseExpression`'s loop, on a '+' or '-' at `pos`, whose term
      after it is `right`, ending at `next`. */
  lemma {:induction false} ExprLoopStep(ts: seq<Token>, left: Node, pos: nat, right: Node, next: nat)
    requires Wf(ts) && pos + 1 < |ts| && WellFormed(left) && (ts[pos].kind == Punct('+') || ts[pos].kind == Punct('-'))
    requires TermAt(ts, pos + 1) == Success(Parsed(right, next))
    ensures next < |ts| && WellFormed(right)
    ensures ExprLoop(ts, left, pos) == ExprLoop(ts, Operator(ts[pos], if ts[pos].kind == Punct('+') then Plus else Minus, left, right), next)
  {
  }

  /** `parseFunctions`: one or more functions, until the current token is
      `EOF`. */
  function FunctionsLoop(ts: seq<Token>, pos: nat, acc: seq<Node>): (r: Result<Parsed<Root>, LanguageError>)
    requires Wf(ts) && pos < |ts| && OperandsWellFormed(acc)
    ensures r.Success? ==> pos < r.value.next < |ts| && ts[r.value.next].kind == EOF
    ensures r.Success? ==> |r.value.value.operands| > 0 && OperandsWellFormed(r.value.value.operands)
    decreases |ts| - pos
  {
    var f :- FunctionAt(ts, pos);
    var acc' := acc + [f.value];
    if ts[f.next].kind == EOF then Success(Parsed(RootNode(acc', United(NodeIntervals(acc'))), f.next))
    else FunctionsLoop(ts, f.next, acc')
  }

  /** What `parse(tokens)` returns. */
  function ParseSpec(ts: seq<Token>): Result<Parsed<Root>, LanguageError>
    requires Wf(ts)
  {
    FunctionsLoop(ts, 0, [])
  }

  /** The state `parse` keeps between its nested functions: the index `i` of
      the next token and the current `token`. */
  class Parser {
    const tokens: seq<Token>
    var i: nat
    var token: Token

    ghost predicate Valid()
      reads this
    {
      Wf(tokens) && 1 <= i <= |tokens| && token == tokens[i - 1]
    }

    /** Position of the current token. */
    function Pos(): nat
      reads this
    {
      if i == 0 then 0 else i - 1
    }

    /** The method's result `r` is what `spec` describes, and the current
        token is the one `spec` stops at. */
    ghost predicate Agrees<T>(r: Result<T, LanguageError>, spec: Result<Parsed<T>, LanguageError>)
      reads this
    {
      match spec
      case Failure(e) => r == Failure(e)
      case Success(p) => r == Success(p.value) && Pos() == p.next
    }

    /** `parse` starts by reading the first token. */
    constructor (tokens: seq<Token>)
      requires Wf(tokens)
      ensures Valid() && this.tokens == tokens && Pos() == 0
    {
      this.tokens := tokens;
      i := 0;
      token := tokens[0];
      new;
      ReadToken();
    }

    /** `readToken`: the token at `i` becomes current and `i` moves on. */
    method ReadToken()
      requires i < |tokens|
      modifies this
      ensures i == old(i) + 1 && token == tokens[old(i)]
    {
      token := tokens[i];
      i := i + 1;
    }

    /** `makeError`: an error at the current token. */
    function MakeError(message: string): (e: LanguageError)
      requires Valid()
      reads this
      ensures e == ErrorAt(tokens, Pos(), message)
    {
      LanguageError(message, token.interval)
    }

    method ParseNumber() returns (r: Result<Node, LanguageError>)
      requires Valid()
      modifies this
      ensures Valid() && Agrees(r, NumberAt(tokens, old(Pos())))
    {
      ghost var pos := Pos();
      var signAndNumber: seq<Token> := [];
      if token.kind == Punct('-') || token.kind == Punct('+') {
        signAndNumber := [token];
        ReadToken();
      }
      if token.kind != NUMBER {
        return Failure(MakeError(Unexpected(token.kind)));
      }
      signAndNumber := signAndNumber + [token];
      assert signAndNumber == tokens[pos..Pos() + 1];
      NumberAtSteps(tokens, pos, Pos(), signAndNumber);
      ReadToken();
      r := Success(NumberNodeOf(signAndNumber));
    }

    method ParseParentheses() returns (r: Result<Node, LanguageError>)
      requires Valid() && token.kind == Punct('(')
      modifies this
      ensures Valid() && Agrees(r, ParenthesesAt(tokens, old(Pos())))
      decreases |tokens| - Pos(), 0
    {
      ReadToken();
      var inner := ParseExpression();
      if inner.Failure? {
        return inner;
      }
      if token.kind != Punct(')') {
        return Failure(MakeError(ClosingParenthesis));
      }
      ReadToken();
      r := inner;
    }

    method ParseFunction() returns (r: Result<Node, LanguageError>)
      requires Valid()
      modifies this
      ensures Valid() && Agrees(r, FunctionAt(tokens, old(Pos())))
      decreases |tokens| - Pos(), 0
    {
      ghost var pos := Pos();
      if token.kind != IDENTIFIER {
        return Failure(MakeError("Expecting function name, got " + KindName(token.kind) + " instead."));
      }
      var name := token;
      ReadToken();
      var parameters :- ParseParameters();
      var operands :- ParseOperands();
      var interval := Enclose(name.interval, NodeIntervals(operands) + ParamIntervals(parameters));
      r := Success(FunctionNode(name.value, parameters, operands, interval));
    }

    /** The parameter list of `parseFunction`. */
    method ParseParameters() returns (r: Result<seq<Param>, LanguageError>)
      requires Valid() && Pos() > 0
      modifies this
      ensures Valid() && Agrees(r, ParamsPart(tokens, old(Pos())))
      decreases |tokens| - Pos(), 0
    {
      if token.kind != Punct('(') {
        return Success([]);
      }
      ReadToken();
      ghost var start := Pos();
      var parameters: seq<Param> := [];
      while token.kind != Punct(')')
        invariant Valid() && start <= Pos()
        invariant ParamsWellFormed(parameters)
        invariant ParamsLoop(tokens, Pos(), parameters) == ParamsLoop(tokens, start, [])
        decreases |tokens| - Pos()
      {
        parameters :- ParseParameter(parameters);
      }
      ReadToken();
      r := Success(parameters);
    }

    /** One `name = expression` pair of the parameter list and the separator
        after it. */
    method ParseParameter(parameters: seq<Param>) returns (r: Result<seq<Param>, LanguageError>)
      requires Valid() && ParamsWellFormed(parameters)
      modifies this
      ensures Valid() && Agrees(r, ParamAt(tokens, old(Pos()), parameters))
      decreases |tokens| - Pos(), 0
    {
      if token.kind != IDENTIFIER {
        return Failure(MakeError("Expecting parameter name, got " + KindName(token.kind) + " instead."));
      }
      var name := token.value;
      ReadToken();
      if token.kind != Punct('=') {
        return Failure(MakeError("Expecting = after parameter name, got " + KindName(token.kind) + " instead."));
      }
      ReadToken();
      var value :- ParseExpression();
      AssignWellFormed(parameters, name, value);
      if token.kind != Punct(')') && token.kind != Punct(',') {
        return Failure(MakeError(ParameterSeparator));
      }
      if token.kind == Punct(',') {
        ReadToken();
      }
      r := Success(Assign(parameters, name, value));
    }

    /** The operand list of `parseFunction`. */
    method ParseOperands() returns (r: Result<seq<Node>, LanguageError>)
      requires Valid() && Pos() > 0
      modifies this
      ensures Valid() && Agrees(r, OperandsPart(tokens, old(Pos())))
      decreases |tokens| - Pos(), 0
    {
      if token.kind != Punct('{') {
        return Success([]);
      }
      ReadToken();
      ghost var start := Pos();
      var operands: seq<Node> := [];
      while token.kind != Punct('}')
        invariant Valid() && start <= Pos()
        invariant OperandsWellFormed(operands)
        invariant OperandsLoop(tokens, Pos(), operands) == OperandsLoop(tokens, start, [])
        decreases |tokens| - Pos()
      {
        var operand :- ParseExpression();
        if !operand.FunctionNode? {
          return Failure(LanguageError(NonGeometryOperand(operand), operand.interval));
        }
        if token.kind == EOF {
          return Failure(MakeError(ClosingBrace));
        }
        operands := operands + [operand];
      }
      ReadToken();
      r := Success(operands);
    }

    method ParseFactor() returns (r: Result<Node, LanguageError>)
      requires Valid()
      modifies this
      ensures Valid() && Agrees(r, FactorAt(tokens, old(Pos())))
      decreases |tokens| - Pos(), 1
    {
      var k := token.kind;
      if k == NUMBER || k == Punct('-') || k == Punct('+') {
        r := ParseNumber();
      } else if k == Punct('(') {
        r := ParseParentheses();
      } else if k == IDENTIFIER {
        r := ParseFunction();
      } else {
        r := Failure(MakeError(Unexpected(k)));
      }
    }

    method ParseTerm() returns (r: Result<Node, LanguageError>)
      requires Valid()
      modifies this
      ensures Valid() && Agrees(r, TermAt(tokens, old(Pos())))
      decreases |tokens| - Pos(), 2
    {
      ghost var pos := Pos();
      var node :- ParseFactor();
      ghost var start := Pos();
      ghost var first := node;
      while token.kind == Punct('*') || token.kind == Punct('/')
        invariant Valid() && pos < start <= Pos()
        invariant WellFormed(node)
        invariant TermLoop(tokens, node, Pos()) == TermLoop(tokens, first, start)
        decreases |tokens| - Pos()
      {
        var operator := token;
        ghost var at := Pos();
        ReadToken();
        var right := ParseFactor();
        if right.Failure? {
          assert TermLoop(tokens, node, at) == Failure(right.error);
          return Failure(right.error);
        }
        TermLoopStep(tokens, node, at, right.value, Pos());
        node := Operator(operator, if operator.kind == Punct('*') then Times else Over, node, right.value);
      }
      assert TermLoop(tokens, node, Pos()) == Success(Parsed(node, Pos()));
      r := Success(node);
    }

    method ParseExpression() returns (r: Result<Node, LanguageError>)
      requires Valid()
      modifies this
      ensures Valid() && Agrees(r, ExprAt(tokens, old(Pos())))
      decreases |tokens| - Pos(), 3
    {
      ghost var pos := Pos();
      var node :- ParseTerm();
      ghost var start := Pos();
      ghost var first := node;
      while token.kind == Punct('+') || token.kind == Punct('-')
        invariant Valid() && pos < start <= Pos()
        invariant WellFormed(node)
        invariant ExprLoop(tokens, node, Pos()) == ExprLoop(tokens, first, start)
        decreases |tokens| - Pos()
      {
        var operator := token;
        ghost var at := Pos();
        ReadToken();
        var right := ParseTerm();
        if right.Failure? {
          assert ExprLoop(tokens, node, at) == Failure(right.error);
          return Failure(right.error);
        }
        ExprLoopStep(tokens, node, at, right.value, Pos());
        node := Operator(operator, if operator.kind == Punct('+') then Plus else Minus, node, right.value);
      }
      assert ExprLoop(tokens, node, Pos()) == Success(Parsed(node, Pos()));
      r := Success(node);
    }

    /** `parseFunctions`: functions until the current token is `EOF`. */
    method ParseFunctions() returns (r: Result<Root, LanguageError>)
      requires Valid()
      modifies this
      ensures Valid() && Agrees(r, FunctionsLoop(tokens, old(Pos()), []))
    {
      ghost var start := Pos();
      var result: seq<Node> := [];
      while true
        invariant Valid() && start <= Pos()
        invariant OperandsWellFormed(result)
        invariant FunctionsLoop(tokens, Pos(), result) == FunctionsLoop(tokens, start, [])
        decreases |tokens| - Pos()
      {
        var functionNode :- ParseFunction();
        result := result + [functionNode];
        if token.kind == EOF {
          return Success(RootNode(result, United(NodeIntervals(result))));
        }
      }
    }
  }

  /** `parse(tokens)`: the root node, or the first error. */
  method Parse(tokens: seq<Token>) returns (r: Result<Root, LanguageError>)
    requires Wf(tokens)
    ensures match ParseSpec(tokens)
            case Success(p) => r == Success(p.value)
            case Failure(e) => r == Failure(e)
  {
    var parser := new Parser(tokens);
    r := parser.ParseFunctions();
  }
}
