# A verified model of the sos-3dedit compiler worker

sos-3dedit is a browser editor for solid geometry. The user writes a small
CSG language:

    box(x=2, y=1, z=0.5) { sphere(d=1) }

A web worker (`worker.js`) compiles that text into a GLSL distance function
`de` that a ray marcher renders. The worker has three stages:

1. the `Language` object scans the text into tokens;
2. it parses the tokens into a tree of function, operator and number nodes;
3. `transform` evaluates every parameter to a number, and the class
   `CodeGen` writes one GLSL function per translated, rotated or scaled
   sub-expression (`f0`, `f1`, ...), then `de`, then `he`.

This project models those three stages in Dafny and proves what they
promise. The files are:

- `wrappers.dfy` holds `Option` and `Result`.
- `numbers.dfy` models JavaScript numbers: IEEE specials on exact reals, the
  four operators, the clamp of `_f`, and `parseFloat` of token text.
- `syntax.dfy` holds intervals and `union`, tokens, errors, the syntax tree,
  and parameter objects as insertion-ordered lists.
- `lexer.dfy` has `scan`. Pure functions describe one `nextToken` call each.
  The class `Scanner` (the closure state of `scan`) is proved to follow them.
- `lexer_props.dfy` proves the token list's shape: one EOF and only at the
  end, maximal number and identifier texts, increasing disjoint intervals,
  the tokens spelling the source without its whitespace, that every error is
  one of the two lexical errors, and that a source holding an unknown
  character fails with an error no later than the first such character.
- `parser.dfy` has `parse`. Pure functions say what each nested `parse*`
  function returns at a token position. The class `Parser` (the closure
  state `i`, `token`) is proved to follow them.
- `parser_props.dfy` proves precedence, left grouping, full consumption and
  the error cases.
- `transform.dfy` has `evaluate` and `transform`.
- `pipeline.dfy` has the top-level `parse(text)`: scan, parse, then a
  "union" node over the transformed roots.
- `codetext.dfy` has the string builders `_dot`, `_max`, `_min`, `_vec3` and
  `_f`, and the folds `_genUnion`, `_genIntersection` and `_genDifference`.
  Generated code is a tree of text, helper names and concatenations, and
  `Render` turns it into the exact string the source builds.
- `codegen.dfy` has the class `CodeGen`. `Traverse` is the order in which
  `_genExpr` walks a tree (children first, left to right, then the node) for
  any per-node step. `GenNode` is that walk with the step `_genExpr` takes,
  and states what generating a subtree yields from a given helper number.
  The class's methods, which append to `code` and bump `fid`, are proved to
  follow it.
- `codegen_props.dfy` proves the helper count of a tree. It also proves that
  every helper, and `de`, calls only helpers defined before it. Both proofs
  are made once for any step with the property in question, then applied
  to `_genExpr`'s step.

## Model

| member | source | states |
|---|---|---|
| Numbers.Add | worker.js:15-16 | JavaScript `+` on doubles: finite operands add exactly, NaN propagates |
| Numbers.Subtraction | worker.js:17-18 | JavaScript binary `-` (`Sub`): exact on finite operands, NaN from NaN and from ∞ − ∞, a finite value minus an infinity is the opposite infinity |
| Numbers.Negation | worker.js:165-167 | unary minus (`Neg`): the additive inverse of a finite value, the infinities swap, NaN stays NaN |
| Numbers.Mul | worker.js:19-20 | JavaScript `*`: finite operands multiply exactly, NaN propagates |
| Numbers.Div | worker.js:21-22 | JavaScript `/`: a finite quotient by a non-zero finite divisor is exact, NaN propagates |
| CodeText.LiteralText | worker.js:66-74 | `_f` (`Literal`) writes `float(` the value `)` within the limit, the limit of the value's sign beyond it, and NaN unchanged |
| Numbers.Clamp | worker.js:66-72 | `_f`'s clamp: a non-NaN value ends in [-1e6, 1e6]; values already in range are unchanged; values above or below become the bound; NaN stays NaN |
| Numbers.DecimalValue | worker.js:403 | the value of NUMBER text is non-negative, and for a digits-only text it is the integer those digits denote |
| Numbers.ParseFloat | worker.js:403 | `parseFloat` of an optional sign and NUMBER text: a '-' sign gives a value at most 0, otherwise at least 0 |
| Syntax.Union | worker.js:253-256 | `union` encloses both intervals, and each of its bounds is a bound of one of them |
| Syntax.Unite | worker.js:376-383 | `unitedIntervalsOfNodes`: there is no interval exactly when nothing was folded in |
| Syntax.UniteEncloses | worker.js:376-383 | the united interval encloses every interval folded in |
| Syntax.UniteSmallest | worker.js:376-383 | any interval enclosing all those folded in encloses the united one |
| Syntax.Enclose | worker.js:446-449 | a node's interval encloses its token's interval and all its sub-nodes' intervals |
| Syntax.EncloseSmallest | worker.js:411-418 | ... and is the smallest interval that does |
| Syntax.Assign | worker.js:555 | `parameters[name] = value`: the name is now bound to the value, the name set gains the name, every other binding is unchanged |
| Lexer.SkipWhitespace | worker.js:300-303 | stops on the first non-whitespace character, having passed only whitespace |
| Lexer.DigitsEnd | worker.js:317-321 | stops on the first non-digit, having passed only digits |
| Lexer.LettersEnd | worker.js:351-355 | stops on the first non-letter, having passed only letters |
| Lexer.LexNumber | worker.js:313-338 | a NUMBER read moves the lookahead strictly forward, within the text |
| Lexer.LexIdentifier | worker.js:347-357 | a letter always starts an IDENTIFIER token, and the read moves strictly forward |
| Lexer.LexOne | worker.js:294-360 | every successful `nextToken` moves the lookahead forward; only EOF may move it past the sentinel |
| Lexer.Scanner.constructor | worker.js:274-286 | the scanner starts on the source plus the sentinel, at index 0 with a blank lookahead |
| Lexer.Scanner.ReadPeek | worker.js:288-292 | `readPeek` moves the index by one and makes the character there the lookahead |
| Lexer.Scanner.NextToken | worker.js:294-360 | the method returns the token or error `LexOne` describes, and leaves the lookahead where `LexOne` says |
| Lexer.Scanner.ReadDigits | worker.js:317-321 | the digit loop collects exactly the digits up to `DigitsEnd` |
| Lexer.Scanner.ReadNumber | worker.js:313-338 | the number branch produces what `LexNumber` describes, including the "Expecting more digits after ." error |
| Lexer.Scanner.ReadIdentifier | worker.js:347-357 | the identifier branch produces what `LexIdentifier` describes |
| Lexer.Scan | worker.js:362-374 | `scan` returns the tokens up to and including the first EOF, or the first error (`ScanSpec`) |
| LexerFacts.NumberTextOf | worker.js:313-335 | the characters a NUMBER read collects form number text, which is all digits exactly when there is no fraction |
| LexerFacts.LexNumberReads | worker.js:313-338 | a NUMBER token is a maximal number text, and its interval covers exactly the characters read |
| LexerFacts.LexOneReads | worker.js:294-360 | every token starts after the skipped whitespace, has the shape its kind demands, and its interval ends on the last character consumed |
| LexerFacts.ScanFromEndsWithEof | worker.js:362-373 | a successful scan ends with EOF, and no earlier token is EOF |
| LexerFacts.ScanFromReads | worker.js:362-373 | every scanned token reads the text as its kind demands, and the intervals are increasing and disjoint |
| LexerFacts.LexNumberErrors | worker.js:323-328 | a NUMBER read fails only on a '.' after digits with no digit after it, reported as "Expecting more digits after ." from the first digit `q`, over digits only, to the '.' |
| LexerFacts.LexOneErrors | worker.js:294-360 | one `nextToken` fails only on that, or on an unknown character at the reported position |
| LexerFacts.ScanFromErrors | worker.js:362-373 | the error a scan returns is one of those two lexical errors |
| LexerFacts.TokenCharsKnown | worker.js:272-374 | a token other than EOF consumes only digits, '.', letters and special symbols |
| LexerFacts.UnknownCharacterFails | worker.js:359-373 | a scan from a position fails if an unknown character lies at or after it, reporting an error no later than that character |
| LexerFacts.UnknownCharacterRejected | worker.js:359-373 | `scan` fails on every source holding a character that is not whitespace, a digit, '.', a letter or a special symbol, with an error no later than the first such character |
| LexerFacts.TokenTextRead | worker.js:296-297 | a token's interval covers exactly its own text, which holds no whitespace |
| LexerFacts.LexOneSpells | worker.js:294-360 | one token's share of the text, once whitespace is dropped, is the token's text |
| LexerFacts.SpelledAfterWhitespace | worker.js:300-303 | skipped whitespace followed by a token's characters spells just the token's text |
| LexerFacts.SpellingStep | worker.js:362-373 | a token's share of the text followed by the rest of the scan spells the rest of the text |
| LexerFacts.ScanFromSpells | worker.js:362-373 | the scanned tokens spell the rest of the text without its whitespace |
| LexerFacts.ScanTokens | worker.js:272-374 | `scan` succeeds with a unique final EOF, well-shaped tokens and increasing disjoint intervals |
| LexerFacts.ScanSpellsSource | worker.js:272-374 | for a source without NUL, the tokens spell the source without whitespace, and EOF sits just past its end |
| Parser.NumberNodeOf | worker.js:400-404 | `new NumberNode(tokens)` for an optional sign and a NUMBER is a number node whose interval is the union of the tokens' intervals and whose value is the NUMBER's decimal value, negated (so ≤ 0) after '-' |
| Parser.NumberTokensText | worker.js:400-404 | the text `NumberNode` hands `parseFloat` equals the optional sign followed by the NUMBER text, and is number text after that sign |
| Parser.NumberAt | worker.js:489-507 | `parseNumber` yields a number node and consumes at least one token |
| Parser.ParenthesesAt | worker.js:509-520 | `parseParentheses` yields a well-formed expression and consumes at least the opening parenthesis |
| Parser.FunctionAt | worker.js:522-593 | `parseFunction` yields a function node whose operands, at every depth, are function nodes |
| Parser.ParamsPart | worker.js:529-567 | the optional parameter list yields well-formed parameter values |
| Parser.ParamsLoop | worker.js:535-564 | the parameter loop ends on ')' with well-formed values |
| Parser.ParamAt | worker.js:537-563 | one `name = expression` pass consumes tokens and keeps the values well-formed |
| Parser.OperandsPart | worker.js:569-590 | the optional operand list holds only well-formed function nodes |
| Parser.OperandsLoop | worker.js:573-588 | the operand loop ends on '}' and holds only well-formed function nodes |
| Parser.FactorAt | worker.js:595-607 | `parseFactor` yields a well-formed node and consumes at least one token |
| Parser.TermAt | worker.js:609-626 | `parseTerm` yields a well-formed node and consumes at least one token |
| Parser.TermLoop | worker.js:615-624 | the '*' and '/' loop keeps the node well-formed |
| Parser.ExprAt | worker.js:628-645 | `parseExpression` yields a well-formed node and consumes at least one token |
| Parser.ExprLoop | worker.js:634-643 | the '+' and '-' loop keeps the node well-formed |
| Parser.FunctionsLoop | worker.js:647-661 | `parseFunctions` stops on EOF with a non-empty list of well-formed function nodes |
| Parser.Parser.constructor | worker.js:472-473 | the parser starts with the first token current |
| Parser.Parser.ReadToken | worker.js:480-487 | `readToken` makes the token at `i` current and advances `i` |
| Parser.Parser.MakeError | worker.js:475-478 | `makeError` is the error with the message at the current token's interval, the error the parsing functions describe at that position |
| Parser.Parser.ParseNumber | worker.js:489-507 | returns what `NumberAt` describes and leaves the parser on the token after it |
| Parser.Parser.ParseParentheses | worker.js:509-520 | returns what `ParenthesesAt` describes |
| Parser.Parser.ParseFunction | worker.js:522-593 | returns what `FunctionAt` describes |
| Parser.Parser.ParseParameters | worker.js:529-567 | the parameter loop returns what `ParamsPart` describes |
| Parser.Parser.ParseParameter | worker.js:537-563 | one pass of the parameter loop returns what `ParamAt` describes |
| Parser.Parser.ParseOperands | worker.js:569-590 | the operand loop returns what `OperandsPart` describes |
| Parser.Parser.ParseFactor | worker.js:595-607 | returns what `FactorAt` describes |
| Parser.Parser.ParseTerm | worker.js:609-626 | returns what `TermAt` describes |
| Parser.Parser.ParseExpression | worker.js:628-645 | returns what `ExprAt` describes |
| Parser.Parser.ParseFunctions | worker.js:647-661 | returns what `FunctionsLoop` describes |
| Parser.Parse | worker.js:663-664 | `parse(tokens)` returns the root `ParseSpec` describes, or its error |
| ParserFacts.NumberAtUnsigned | worker.js:597-598 | an unsigned NUMBER is a factor by itself |
| ParserFacts.NumberTerm | worker.js:609-626 | a NUMBER not followed by '*' or '/' is a whole term |
| ParserFacts.TermLoopMaximal | worker.js:614-624 | `parseTerm`'s loop stops only at a token that is neither '*' nor '/' |
| ParserFacts.TermTakesAllProducts | worker.js:608-626 | a term takes every '*' and '/' that follows one of its factors |
| ParserFacts.ExprLoopMaximal | worker.js:633-643 | `parseExpression`'s loop, started after a whole term, stops only at a token that is none of '+', '-', '*', '/' |
| ParserFacts.ExprTakesAllOperators | worker.js:627-645 | an expression takes every '+', '-', '*' and '/' that follows one of its terms |
| ParserFacts.MultiplicationBindsTighter | worker.js:608-645 | for any term `a` and factors `b`, `c`: `a + b * c` parses as `a + (b * c)` |
| ParserFacts.ProductBeforeSum | worker.js:608-645 | for any factors `a`, `b` and term `c`: `a * b + c` parses as `(a * b) + c` |
| ParserFacts.SumsGroupLeft | worker.js:627-645 | for any terms `a`, `b`, `c`: `a - b - c` parses as `(a - b) - c` |
| ParserFacts.ProductsGroupLeft | worker.js:608-626 | for any factors `a`, `b`, `c`: `a / b * c` parses as `(a / b) * c` |
| ParserFacts.ParseConsumesAll | worker.js:647-661 | a successful parse has at least one function, only function operands at every depth, and consumes every token up to the one EOF |
| ParserFacts.LeadingNonIdentifier | worker.js:522-526 | a program not starting with a name fails with "Expecting function name" at the first token |
| ParserFacts.TrailingNonIdentifier | worker.js:651-658 | a token after a function that is neither EOF nor a name fails the same way at that token |
| ParserFacts.NonGeometryOperandRejected | worker.js:579-582 | an operand that is not a function node is an error at the operand's own interval, naming the operand |
| ParserFacts.UnclosedBrace | worker.js:586-587 | an operand followed by EOF gives "Expecting closing }" at EOF |
| ParserFacts.ParamAtAssigns | worker.js:541-555 | a parameter pass binds its name to the parsed value and leaves other names alone, so a repeated name keeps the later value |
| Parser.Operator | worker.js:446-456 | `new OperatorNode(op, [l, r])` keeps the operator and both operands, and its interval encloses the token's and both operands' |
| ParserFacts.OperatorSpan | worker.js:446-449 | an operator node's interval is the smallest that encloses its token and both operands |
| Transform.Evaluate | worker.js:12-28 | `evaluate` succeeds exactly on trees of numbers and operators; any function node inside makes it throw |
| Transform.EvaluateExact | worker.js:12-28 | with no division by zero, `evaluate` computes the exact arithmetic value of the expression |
| Transform.EvaluateParams | worker.js:31-34 | every parameter is evaluated: success exactly when all are arithmetic, keys are the parameter names, each value is the evaluation of that name's expression |
| Transform.TransformNode | worker.js:30-40 | `transform` succeeds exactly when every parameter at every depth is arithmetic; it keeps the name and the parameter names, each parameter's value is its expression evaluated, and the children are the operands transformed in order |
| Transform.TransformAll | worker.js:38 | `operands.map(transform)` succeeds exactly when each operand is transformable, keeping the order and length |
| Pipeline.ScannedTokensWf | worker.js:43-47 | the tokens `scan` returns meet everything the parser relies on |
| Pipeline.UnionTree | worker.js:52-56 | the "union" node with no parameters over the transformed roots, or a throw exactly when some root is not transformable |
| Pipeline.TreeOf | worker.js:42-56 | `parse(text)` is null exactly when scanning or parsing fails; otherwise it is `UnionTree` of the parsed root: a "union" tree over the transformed roots, or a throw exactly when some root is not transformable |
| Pipeline.ParseText | worker.js:42-56 | the method runs scan, parse and transform and returns what `TreeOf` describes |
| CodeText.NatText | worker.js:101 | the decimal text of the helper counter is non-empty and all digits |
| CodeText.NatTextValue | worker.js:101 | that text denotes the counter's value |
| CodeText.HelperNamesDistinct | worker.js:100-104 | different helper numbers give different names `f0`, `f1`, ... |
| CodeText.RenderBuilders | worker.js:58-82 | `_dot`, `_max`, `_min` and `_vec3`, and the `'-(' + e + ')'` of a difference, render to the strings the source concatenates |
| CodeText.RenderVec3 | worker.js:80-82 | `_vec3` renders as `vec3(` and its three arguments separated by ',' and closed |
| CodeText.RenderNegated | worker.js:208 | a negated operand renders as `-(` e `)` |
| CodeText.RenderCall2 | worker.js:58-64 | a two-argument builder renders as its name, both arguments separated by ',' and a ')' |
| CodeText.RefsBelowCall2 | worker.js:58-64 | a two-argument builder calls exactly the helpers its arguments call |
| CodeText.UnionText | worker.js:214-220 | `_genUnion` of n expressions is n `min(`, then "1e9", then each expression closed by `)` in order |
| CodeText.IntersectionText | worker.js:195-201 | `_genIntersection` of n expressions is n `max(`, then "-1e9", then each expression closed in order |
| CodeText.DifferenceText | worker.js:203-212 | `_genDifference` of nothing is "1e9"; otherwise the first expression followed by each later one negated, in nested `max(` |
| CodeText.CombinatorsRefsBelow | worker.js:195-220 | the three folds call only helpers their operands call |
| Generator.TraverseAll | worker.js:116-121 | mapping `_genExpr` over the children gives one expression per child |
| Generator.CodeGen.constructor | worker.js:85-90 | the generated code is every helper definition in order, then `de` and then `he` (`ProgramText`) |
| Generator.CodeGen.GetCode | worker.js:92-94 | returns the code written so far |
| Generator.CodeGen.EmitFunc | worker.js:96-98 | appends `float name(vec3 p){return body;}` to the code |
| Generator.CodeGen.EmitHelper | worker.js:100-104 | the next helper number is returned, and its definition appended, keeping code equal to the definitions of all helpers |
| Generator.CodeGen.GenTranslation | worker.js:189-193 | the child becomes a helper called on `p` minus the clamped offset (default 0) |
| Generator.CodeGen.GenBox | worker.js:146-152 | the children translated to the top of the box, united with the box's distance (defaults 1) |
| Generator.CodeGen.GenCylinder | worker.js:154-160 | the children translated to the top, united with the cylinder's distance (defaults 1) |
| Generator.CodeGen.GenSphere | worker.js:181-187 | the children translated to the top, united with the sphere's distance (default diameter 1) |
| Generator.ParamOrMerges | worker.js:163 | a parameter read with a default (`ParamOr`) is the value in `Object.assign({key: default}, params)`: a given parameter overrides the default |
| Generator.RotationByZero | worker.js:165-172 | with every angle absent or zero, the rotated point (`RotatedPoint`) is `p` dotted with the unit vectors |
| Generator.CodeGen.GenRotation | worker.js:162-173 | the child becomes a helper called on the rotated point, the matrix entries clamped |
| Generator.CodeGen.GenScale | worker.js:175-179 | the child becomes a helper called on `p*(1/r)`, scaled back by `r` (default 1) |
| Generator.CodeGen.GenArot | worker.js:141-144 | a rotation, then a translation by (0, 0, -1.5), as two helpers |
| Generator.CodeGen.GenUnion | worker.js:214-220 | the loop returns `UnionOf` of the expressions |
| Generator.CodeGen.GenIntersection | worker.js:195-201 | the loop returns `IntersectionOf` of the expressions |
| Generator.CodeGen.GenDifference | worker.js:203-212 | the loop returns `DifferenceOf` of the expressions |
| Generator.CodeGen.GenOwn | worker.js:122-138 | the node's own function by its name; an unknown name returns the united children unchanged |
| Generator.CodeGen.GenAll | worker.js:116-121 | the children's expressions and helpers, in order (`GenChildren`) |
| Generator.CodeGen.GenExpr | worker.js:106-139 | a subtree's expression and helpers as `GenNode` describes |
| GeneratorFacts.GenNodeHelperCount | worker.js:106-139 | a subtree defines one helper per box, cylinder, sphere, trans, rot and scale and two per arot |
| GeneratorFacts.TraverseHelperCount | worker.js:106-139 | a walk whose step defines `OwnHelperCount` helpers at each node defines `HelperCount` helpers for the tree |
| GeneratorFacts.TraverseAllHelperCount | worker.js:116-121 | ... and the sum of the subtrees' counts for a list of subtrees |
| GeneratorFacts.OwnCount | worker.js:122-138 | a node's own function defines two helpers for arot, one for box, cylinder, sphere, trans, rot and scale, none otherwise |
| GeneratorFacts.CombineCounts | worker.js:106-139 | `_genExpr`'s step defines `OwnHelperCount` helpers at every node; intersection and diff define none |
| GeneratorFacts.TranslationRefs | worker.js:189-193 | a translation at helper k calls only helpers up to k, and helper k calls only helpers below k |
| GeneratorFacts.BoxRefs | worker.js:146-152 | the same for a box |
| GeneratorFacts.CylinderRefs | worker.js:154-160 | the same for a cylinder |
| GeneratorFacts.SphereRefs | worker.js:181-187 | the same for a sphere |
| GeneratorFacts.RotationRefs | worker.js:162-173 | the same for a rotation |
| GeneratorFacts.ScaleRefs | worker.js:175-179 | the same for a scaling |
| GeneratorFacts.TranslationAfterRefs | worker.js:141-144 | a translation made the helper after a one-helper step keeps both helpers calling only earlier ones |
| GeneratorFacts.ArotRefs | worker.js:141-144 | an arot at helpers k and k+1 calls only helpers up to k+1, and each of its two helpers calls only helpers below its own number |
| GeneratorFacts.OwnRefs | worker.js:122-138 | the helpers a node's own function adds each call only earlier ones, and its expression calls only helpers defined by then |
| GeneratorFacts.CombineRefs | worker.js:116-138 | the same for the node's whole step: union, intersection or difference of the children, then its own function |
| GeneratorFacts.CombineStepRefs | worker.js:116-138 | the same, stated for `_genExpr`'s step as a value |
| GeneratorFacts.CombineKeepsOrder | worker.js:116-138 | `_genExpr`'s step keeps helpers defined before use at every node |
| GeneratorFacts.TraverseOrdered | worker.js:106-139 | a walk whose step keeps helpers defined before use does so for the whole subtree |
| GeneratorFacts.TraverseAllOrdered | worker.js:116-121 | ... and for a list of subtrees, whose expressions call only helpers defined by their end |
| GeneratorFacts.OwnStep | worker.js:116-139 | the children's helpers followed by the node's own keep that order |
| GeneratorFacts.LastChildStep | worker.js:116-121 | the earlier children's helpers followed by the last child's keep that order |
| GeneratorFacts.GenNodeDefinesBeforeUse | worker.js:106-139 | every helper of a subtree calls only helpers numbered below it, and so does the subtree's expression |
| GeneratorFacts.ProgramDefinesBeforeUse | worker.js:85-104 | the program defines f0 .. f(n-1), n being the helper count, each calling only earlier helpers, then `de`, which calls only those |

## Left out

- `onmessage`, `process` and `postMessage` (worker.js:3-10) are message
  passing with the page. The model stops at the generated string.
- Floating point: numbers are exact reals with IEEE infinities and NaN. Rounding, overflow to ±Infinity and the sign of zero are not modelled: a literal of 309 or more digits, or a product beyond the largest double, stays finite in the model, so for instance the difference of two such values is 0 where JavaScript gives NaN.
- Number-to-text conversion (`'' + value` in `_f`), `Math.cos` and
  `Math.sin` are parameters (`Numerics`). Their exact values are not modelled.
  `Math.PI` is its 16-digit decimal expansion.
- The `prettyPrinted` methods and `positionFinder` (worker.js:386-398) serve
  the editor's display only.
- The other files of the repository (the page, the renderer and the shader
  template) are not part of this model.
- `_genExpr`'s `parent` and `attachDir` arguments (worker.js:106-114) are
  computed but never read, so they are dropped.
- `readToken` past the end of the list calls `Token('EOF')` without `new`,
  which would throw. The model's parser requires a token list that ends in
  EOF, and `Pipeline.ScannedTokensWf` proves that `scan` always supplies one.
  The proof then shows that the parser never reads past that token.
- The model follows the code as written where a reader might expect otherwise:
  - `_f` passes NaN through unclamped, because both comparisons are false for NaN.
  - A trailing ',' before ')' in a parameter list is accepted.
  - A parameter whose value is a function (`box(x=sphere)`) parses, and then
    `evaluate` throws "Invalid expression" (`Pipeline.Outcome.Thrown`).
  - The interval of an "Unknown character" error is empty: `[q, q-1]`.
  - The generator knows the name "diff". A comment lists "difference" and
    "inverse", which have no case and act as unions.
- A throw from `evaluate` becomes `None` in `Transform.TransformNode` and
  `Transform.TransformAll`, and `Thrown` in `Pipeline.UnionTree`. The message
  "Invalid expression" is not carried.
- Strings: JavaScript strings are sequences of UTF-16 code units, and a Dafny
  `char` is a Unicode scalar value. For a character beyond U+FFFF, `scan`
  reads one surrogate at a time, so `makeError('Unknown character "' + peek + '"')`
  (worker.js:359) puts a lone high surrogate in the message, while
  `Lexer.UnknownCharacter` puts the whole character there. A source holding
  a lone surrogate cannot be represented in the model at all.
- `LexerFacts.UnknownCharacterRejected` leaves out '.': it is not a special
  symbol, yet it is read inside a number, so a '.' alone does not make every
  source fail. A '.' outside a number is reported as "Unknown character" by
  the same code path, and `LexerFacts.ScanFromErrors` covers it.
