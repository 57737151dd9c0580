/** The data of the CSG language: source intervals, tokens, errors and the
    abstract syntax tree the parser builds (worker.js, the `Language` object). */
module Syntax {
  import opened Wrappers

  /** A closed range `[min, max]` of character offsets into the source. */
  datatype Interval = Interval(min: int, max: int)

  predicate Contains(iv: Interval, position: int)
  {
    iv.min <= position <= iv.max
  }

  /** `b` lies within `a`. */
  predicate Encloses(a: Interval, b: Interval)
  {
    a.min <= b.min && b.max <= a.max
  }

  /** `Interval.union`: the smallest interval enclosing both arguments. */
  function Union(a: Interval, b: Interval): (r: Interval)
    ensures Encloses(r, a) && Encloses(r, b)
    ensures r.min == a.min || r.min == b.min
    ensures r.max == a.max || r.max == b.max
  {
    Interval(if a.min <= b.min then a.min else b.min, if a.max >= b.max then a.max else b.max)
  }

  /** `unitedIntervalsOfNodes`: the fold of `union` over a list of intervals.
      The source starts the fold at `(Infinity, -Infinity)`, the identity of
      `union`; here that start is `None`. */
  function Unite(acc: Option<Interval>, ivs: seq<Interval>): (r: Option<Interval>)
    ensures r.None? <==> acc.None? && ivs == []
    decreases ivs
  {
    if ivs == [] then acc
    else Unite(Some(if acc.None? then ivs[0] else Union(acc.value, ivs[0])), ivs[1..])
  }

  /** The fold encloses its start and every interval folded in. */
  lemma {:induction false} UniteEncloses(acc: Option<Interval>, ivs: seq<Interval>)
    requires acc.Some? || ivs != []
    ensures acc.Some? ==> Encloses(Unite(acc, ivs).value, acc.value)
    ensures forall j :: 0 <= j < |ivs| ==> Encloses(Unite(acc, ivs).value, ivs[j])
    decreases ivs
  {
    if ivs != [] {
      var next := Some(if acc.None? then ivs[0] else Union(acc.value, ivs[0]));
      UniteEncloses(next, ivs[1..]);
      forall j | 1 <= j < |ivs| ensures Encloses(Unite(acc, ivs).value, ivs[j]) {
        assert ivs[j] == ivs[1..][j - 1];
      }
    }
  }

  /** ... and lies within any interval that encloses all of them. */
  lemma {:induction false} UniteSmallest(acc: Option<Interval>, ivs: seq<Interval>, b: Interval)
    requires acc.Some? || ivs != []
    requires acc.Some? ==> Encloses(b, acc.value)
    requires forall j :: 0 <= j < |ivs| ==> Encloses(b, ivs[j])
    ensures Encloses(b, Unite(acc, ivs).value)
    decreases ivs
  {
    if ivs != [] {
      var next := Some(if acc.None? then ivs[0] else Union(acc.value, ivs[0]));
      forall j | 0 <= j < |ivs[1..]| ensures Encloses(b, ivs[1..][j]) {
        assert ivs[1..][j] == ivs[j + 1];
      }
      UniteSmallest(next, ivs[1..], b);
    }
  }

  /** The interval of a node made from `token` and the sub-nodes with intervals
      `ivs`: `token.interval.union(unitedIntervalsOfNodes(nodes))`. */
  function Enclose(token: Interval, ivs: seq<Interval>): (r: Interval)
    ensures Encloses(r, token)
    ensures forall j :: 0 <= j < |ivs| ==> Encloses(r, ivs[j])
  {
    if ivs != [] then UniteEncloses(None, ivs); Union(token, Unite(None, ivs).value) else token
  }

  /** `Enclose` is the smallest such interval. */
  lemma {:induction false} EncloseSmallest(token: Interval, ivs: seq<Interval>, b: Interval)
    requires Encloses(b, token)
    requires forall j :: 0 <= j < |ivs| ==> Encloses(b, ivs[j])
    ensures Encloses(b, Enclose(token, ivs))
  {
    if ivs != [] {
      UniteSmallest(None, ivs, b);
    }
  }

  /** The kinds of token: the punctuation kinds are named by their character. */
  datatype Kind = EOF | NUMBER | IDENTIFIER | Punct(symbol: char)

  /** A token's kind as the source spells it in messages. */
  function KindName(k: Kind): string
  {
    match k
    case EOF => "EOF"
    case NUMBER => "NUMBER"
    case IDENTIFIER => "IDENTIFIER"
    case Punct(c) => [c]
  }

  /** `value` is the text of a NUMBER or IDENTIFIER token and empty otherwise
      (the source leaves it undefined). */
  datatype Token = Token(kind: Kind, value: string, interval: Interval)

  datatype LanguageError = LanguageError(message: string, interval: Interval)

  datatype Op = Plus | Minus | Times | Over

  function OpSymbol(op: Op): char
  {
    match op
    case Plus => '+'
    case Minus => '-'
    case Times => '*'
    case Over => '/'
  }

  /** A named parameter of a function call, `name = value`. */
  datatype Param = Param(name: string, value: Node)

  /** The tree the parser builds. `parameters` keeps the insertion order of the
      source's parameter object; `operands` may hold any node, and that the
      parser only ever puts function nodes there is a property proved of it. */
  datatype Node =
    | NumberNode(value: real, interval: Interval)
    | OperatorNode(op: Op, left: Node, right: Node, interval: Interval)
    | FunctionNode(name: string, parameters: seq<Param>, operands: seq<Node>, interval: Interval)

  datatype Root = RootNode(operands: seq<Node>, interval: Interval)

  /** The `name` field the source gives each kind of node. */
  function NodeName(n: Node): string
  {
    match n
    case NumberNode(_, _) => "NUMBER"
    case OperatorNode(op, _, _, _) => [OpSymbol(op)]
    case FunctionNode(name, _, _, _) => name
  }

  function ParamNames(ps: seq<Param>): set<string>
  {
    set j | 0 <= j < |ps| :: ps[j].name
  }

  function Lookup(ps: seq<Param>, name: string): Option<Node>
  {
    if ps == [] then None
    else if ps[0].name == name then Some(ps[0].value)
    else Lookup(ps[1..], name)
  }

  lemma {:induction false} ParamNamesCons(p: Param, ps: seq<Param>)
    ensures ParamNames([p] + ps) == {p.name} + ParamNames(ps)
  {
    var r := [p] + ps;
    assert r[0].name == p.name;
    forall x | x in ParamNames(r) ensures x in {p.name} + ParamNames(ps) {
      var j :| 0 <= j < |r| && r[j].name == x;
      if j > 0 { assert ps[j - 1].name == x; }
    }
    forall x | x in ParamNames(ps) ensures x in ParamNames(r) {
      var j :| 0 <= j < |ps| && ps[j].name == x;
      assert r[j + 1].name == x;
    }
  }

  /** `parameters[name] = value` on a JavaScript object: an existing key keeps
      its place and takes the new value, a new key goes last. */
  function Assign(ps: seq<Param>, name: string, value: Node): (r: seq<Param>)
    ensures ParamNames(r) == ParamNames(ps) + {name}
    ensures Lookup(r, name) == Some(value)
    ensures forall other :: other != name ==> Lookup(r, other) == Lookup(ps, other)
  {
    if ps == [] then
      ParamNamesCons(Param(name, value), []);
      [Param(name, value)]
    else
      assert ps == [ps[0]] + ps[1..];
      ParamNamesCons(ps[0], ps[1..]);
      if ps[0].name == name then
        ParamNamesCons(Param(name, value), ps[1..]);
        [Param(name, value)] + ps[1..]
      else
        var rest := Assign(ps[1..], name, value);
        ParamNamesCons(ps[0], rest);
        [ps[0]] + rest
  }
}
