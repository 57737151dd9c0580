/** The top-level `parse` of the worker (worker.js:42-56): scan the text,
    parse the tokens, and turn the root's operands into the children of one
    "union" geometry node. */
module Pipeline {
  import opened Wrappers
  import opened Numbers
  import opened Syntax
  import opened Lexer
  import LexerFacts
  import opened Parser
  import opened Transform

  /** What `parse(text)` does: returns null (a scan or parse error), throws
      (a parameter `evaluate` rejects), or returns a tree. */
  datatype Outcome = NoTree | Thrown | Tree(tree: Geometry)

  /** The scanner only produces tokens the parser accepts: they end in EOF and
      every NUMBER token holds number text. */
  lemma {:induction false} ScannedTokensWf(source: string)
    requires ScanSpec(source).Success?
    ensures Wf(ScanSpec(source).value)
  {
    var ts := ScanSpec(source).value;
    LexerFacts.ScanTokens(source);
    forall j | 0 <= j < |ts| && ts[j].kind == NUMBER ensures IsNumberText(ts[j].value) {
      assert LexerFacts.TokenRead(source + [Sentinel], ts[j]);
    }
  }

  /** The tree of a parsed root, or `Thrown` if some operand cannot be
      transformed. */
  function UnionTree(root: Root): (r: Outcome)
    requires OperandsWellFormed(root.operands)
    ensures r != NoTree
    ensures r.Tree? <==> forall j :: 0 <= j < |root.operands| ==> Transformable(root.operands[j])
    ensures r.Tree? ==> && r.tree.name == "union" && r.tree.params == map[]
                        && |r.tree.children| == |root.operands|
                        && forall j :: 0 <= j < |root.operands| ==>
                             TransformNode(root.operands[j]) == Some(r.tree.children[j])
  {
    match TransformAll(root.operands)
    case None => Thrown
    case Some(children) => Tree(Geometry("union", map[], children))
  }

  /** `parse(text)` as a function of the text. */
  function TreeOf(text: string): (r: Outcome)
    ensures r.NoTree? <==> ScanSpec(text).Failure?
                           || (ScannedTokensWf(text); ParseSpec(ScanSpec(text).value).Failure?)
    ensures r.Tree? ==> r.tree.name == "union" && r.tree.params == map[]
    ensures ScanSpec(text).Success? ==>
              (ScannedTokensWf(text);
               ParseSpec(ScanSpec(text).value).Success? ==>
                 (ParsedRootWellFormed(ScanSpec(text).value);
                  r == UnionTree(ParseSpec(ScanSpec(text).value).value.value)))
  {
    match ScanSpec(text)
    case Failure(_) => NoTree
    case Success(tokens) =>
      ScannedTokensWf(text);
      match ParseSpec(tokens)
      case Failure(_) => NoTree
      case Success(root) =>
        LexerFacts.ScanTokens(text);
        ParsedRootWellFormed(tokens);
        UnionTree(root.value)
  }

  lemma {:induction false} ParsedRootWellFormed(tokens: seq<Token>)
    requires Wf(tokens) && ParseSpec(tokens).Success?
    ensures OperandsWellFormed(ParseSpec(tokens).value.value.operands)
  {
  }

  /** The top-level `parse`, calling the scanner and the parser and mapping
      `transform` over the root's operands. */
  method ParseText(text: string) returns (r: Outcome)
    ensures r == TreeOf(text)
  {
    var tokens := Scan(text);
    if tokens.Failure? {
      return NoTree;
    }
    ScannedTokensWf(text);
    var root := Parse(tokens.value);
    if root.Failure? {
      return NoTree;
    }
    r := UnionTree(root.value);
  }
}
