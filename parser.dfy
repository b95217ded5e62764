/**
 * The parser: one pass over the tokens that builds the node tree with an explicit stack of
 * open scopes. `ParseItems` is the reference meaning, written as recursive descent with one
 * call per open scope; the class `Parser` is the stack machine of `ibis/compiler.py`, proved
 * to compute the same result.
 */
module Parsing {
  import opened Wrappers
  import opened Strings
  import opened Tokens
  import opened Lexing

  /** A registered opening keyword: the node class it builds and, for a block, its closing keyword. */
  datatype Entry = Entry(nodeClass: string, endword: Option<string>)

  /** `nodes.instruction_keywords` and `nodes.instruction_endwords`, read-only during parsing. */
  datatype Registry = Registry(keywords: map<string, Entry>, endwords: set<string>)

  /** Python's `if endword:`: a missing or empty closing keyword opens no scope. */
  predicate OpensScope(e: Entry) {
    e.endword.Some? && e.endword.value != ""
  }

  /** The node tree. The root and instruction nodes hold children; the others are leaves. */
  datatype Node =
    | Root(children: seq<Node>)
    | TextNode(token: Token)
    | PrintNode(token: Token)
    | EscapedPrintNode(token: Token)
    | InstructionNode(nodeClass: string, token: Token, children: seq<Node>)

  predicate IsContainer(n: Node) {
    n.Root? || n.InstructionNode?
  }

  function Children(n: Node): seq<Node> {
    if IsContainer(n) then n.children else []
  }

  function WithChildren(n: Node, cs: seq<Node>): Node {
    match n
    case Root(_) => Root(cs)
    case InstructionNode(c, t, _) => InstructionNode(c, t, cs)
    case _ => n
  }

  /** The node for a TEXT, PRINT or EPRINT token. */
  function LeafNode(t: Token): Node
    requires t.kind != Instruction
  {
    match t.kind
    case Text => TextNode(t)
    case Print => PrintNode(t)
    case EPrint => EscapedPrintNode(t)
  }

  /** The token is an instruction whose keyword the registry knows only as the closer `kw`. */
  predicate ClosesWith(reg: Registry, t: Token, kw: string) {
    t.kind == Instruction && Keyword(t) == Some(kw) && kw !in reg.keywords && kw in reg.endwords
  }

  /** The instruction token opens a scope. */
  predicate OpensBlock(reg: Registry, t: Token) {
    t.kind == Instruction && Keyword(t).Some? && Keyword(t).value in reg.keywords
    && OpensScope(reg.keywords[Keyword(t).value])
  }

  /**
   * The children parsed in one scope, the index just past the scope's closer (or the end of
   * the tokens for the root), and the nodes whose scopes closed meanwhile, in closing order.
   */
  datatype Parsed = Parsed(children: seq<Node>, next: nat, exits: seq<Node>)

  /** A successful parse: the root node and every node `exit_scope` was called on, in order. */
  datatype Compiled = Compiled(root: Node, exits: seq<Node>)

  /** `n` followed by what `r` parsed. */
  function Cons(n: Node, r: Result<Parsed, Error>): (r': Result<Parsed, Error>)
    ensures r'.Ok? <==> r.Ok?
    ensures r'.Ok? ==> r'.value.next == r.value.next
  {
    match r
    case Err(e) => Err(e)
    case Ok(p) => Ok(Parsed([n] + p.children, p.next, p.exits))
  }

  /** The block `n`, closed after the exits `inner`, followed by what `r` parsed. */
  function Attach(n: Node, inner: seq<Node>, r: Result<Parsed, Error>): (r': Result<Parsed, Error>)
    ensures r'.Ok? <==> r.Ok?
    ensures r'.Ok? ==> r'.value.next == r.value.next
  {
    match r
    case Err(e) => Err(e)
    case Ok(p) => Ok(Parsed([n] + p.children, p.next, inner + [n] + p.exits))
  }

  /**
   * Parses the tokens from `i` to the end of the current scope, whose closing keyword is
   * `scope` (`None` at the root): a leaf becomes a child; an instruction is handled by
   * `ParseInstruction`; the end of the tokens is an error while a scope is still open.
   */
  function ParseItems(reg: Registry, id: string, toks: seq<Token>, i: nat, scope: Option<string>)
    : (r: Result<Parsed, Error>)
    requires i <= |toks|
    ensures r.Ok? ==> i <= r.value.next <= |toks|
    ensures r.Ok? && scope.None? ==> r.value.next == |toks|
    decreases |toks| - i, 1
  {
    if i == |toks| then
      if scope.None? then Ok(Parsed([], i, []))
      else Err(SyntaxError(UnexpectedEnd(scope.value), id, None))
    else if toks[i].kind != Instruction then
      Cons(LeafNode(toks[i]), ParseItems(reg, id, toks, i + 1, scope))
    else
      ParseInstruction(reg, id, toks, i, scope)
  }

  /**
   * The instruction at `i`. A keyword the registry knows as an opener (even if it is a
   * closer too) becomes a node; a block's children are parsed as a scope of their own, and
   * the parse carries on after its closer.
   */
  function ParseInstruction(reg: Registry, id: string, toks: seq<Token>, i: nat, scope: Option<string>)
    : (r: Result<Parsed, Error>)
    requires i < |toks| && toks[i].kind == Instruction
    ensures r.Ok? ==> i < r.value.next <= |toks|
    ensures r.Ok? && scope.None? ==> r.value.next == |toks|
    decreases |toks| - i, 0
  {
    var t := toks[i];
    match Keyword(t)
    case None => Err(IndexError)
    case Some(kw) =>
      if kw in reg.keywords then
        var entry := reg.keywords[kw];
        if !OpensScope(entry) then
          Cons(InstructionNode(entry.nodeClass, t, []), ParseItems(reg, id, toks, i + 1, scope))
        else
          match ParseItems(reg, id, toks, i + 1, Some(entry.endword.value))
          case Err(e) => Err(e)
          case Ok(inner) =>
            Attach(InstructionNode(entry.nodeClass, t, inner.children), inner.exits,
                   ParseItems(reg, id, toks, inner.next, scope))
      else CloseScope(reg, t, kw, i, scope)
  }

  /**
   * An instruction whose keyword the registry does not know as an opener: it closes the
   * current scope when it is that scope's closing keyword, and is an error otherwise.
   */
  function CloseScope(reg: Registry, t: Token, kw: string, i: nat, scope: Option<string>)
    : (r: Result<Parsed, Error>)
    ensures r.Ok? <==> kw in reg.endwords && scope == Some(kw)
    ensures r.Ok? ==> r.value == Parsed([], i + 1, [])
    ensures r.Err? ==>
      && r.error.SyntaxError? && !r.error.kind.UnclosedTag? && !r.error.kind.UnexpectedEnd?
      && r.error.templateId == t.templateId && r.error.line == Some(t.line)
    ensures kw in reg.endwords && scope.None? ==> r.Err? && r.error.kind == UnexpectedTag(kw)
    ensures kw in reg.endwords && scope.Some? && scope.value != kw ==>
      r.Err? && r.error.kind == MismatchedTag(kw, scope.value)
    ensures kw !in reg.endwords ==> r.Err? && r.error.kind == UnrecognisedInstruction(kw)
  {
    if kw in reg.endwords then
      if scope.None? then Err(SyntaxError(UnexpectedTag(kw), t.templateId, Some(t.line)))
      else if scope.value != kw then
        Err(SyntaxError(MismatchedTag(kw, scope.value), t.templateId, Some(t.line)))
      else Ok(Parsed([], i + 1, []))
    else Err(SyntaxError(UnrecognisedInstruction(kw), t.templateId, Some(t.line)))
  }

  /** The result of parsing a whole token list. */
  function ParseTree(reg: Registry, id: string, toks: seq<Token>): Result<Compiled, Error>
  {
    match ParseItems(reg, id, toks, 0, None)
    case Err(e) => Err(e)
    case Ok(p) => Ok(Compiled(Root(p.children), p.exits))
  }

  /** `compile(template_string, template_id)`: lex, then parse. */
  function CompileSpec(reg: Registry, source: string, id: string): Result<Compiled, Error>
  {
    match Lex(source, id)
    case Err(e) => Err(e)
    case Ok(toks) => ParseTree(reg, id, toks)
  }

  // ---------------------------------------------------------------------------------------
  // The link between the stack machine and the recursive descent.

  function Innermost(expecting: seq<string>): Option<string> {
    if expecting == [] then None else Some(expecting[|expecting| - 1])
  }

  /** Appends `n` to the children of the node on top of the stack. */
  function AddChild(stack: seq<Node>, n: Node): seq<Node>
    requires stack != []
  {
    var top := stack[|stack| - 1];
    stack[..|stack| - 1] + [WithChildren(top, Children(top) + [n])]
  }

  function Prefixed(exits: seq<Node>, r: Result<Compiled, Error>): Result<Compiled, Error> {
    match r
    case Err(e) => Err(e)
    case Ok(c) => Ok(Compiled(c.root, exits + c.exits))
  }

  function Shift(exits: seq<Node>, r: Result<Parsed, Error>): Result<Parsed, Error> {
    match r
    case Err(e) => Err(e)
    case Ok(p) => Ok(Parsed(p.children, p.next, exits + p.exits))
  }

  /**
   * How the parse finishes from a stack machine state: `r` is what the rest of the innermost
   * open scope parses to; each open node then receives those children, is closed, and the
   * parse of the scope around it carries on after its closer.
   */
  function Resume(reg: Registry, id: string, toks: seq<Token>, stack: seq<Node>, expecting: seq<string>,
                  r: Result<Parsed, Error>): Result<Compiled, Error>
    requires |stack| == |expecting| + 1
    requires r.Ok? ==> r.value.next <= |toks|
    decreases |expecting|
  {
    match r
    case Err(e) => Err(e)
    case Ok(p) =>
      var top := stack[|stack| - 1];
      var done := WithChildren(top, Children(top) + p.children);
      if expecting == [] then Ok(Compiled(done, p.exits))
      else
        var outer := expecting[..|expecting| - 1];
        Resume(reg, id, toks, stack[..|stack| - 1], outer,
               Attach(done, p.exits, ParseItems(reg, id, toks, p.next, Innermost(outer))))
  }

  lemma ResumeStart(reg: Registry, id: string, toks: seq<Token>)
    ensures Prefixed([], Resume(reg, id, toks, [Root([])], [], ParseItems(reg, id, toks, 0, None)))
         == ParseTree(reg, id, toks)
  {
    var r := ParseItems(reg, id, toks, 0, None);
    if r.Ok? {
      assert [] + r.value.children == r.value.children;
      assert [] + r.value.exits == r.value.exits;
    }
  }

  /** A leaf read now is the next child of the innermost open node. */
  lemma ResumeLeaf(reg: Registry, id: string, toks: seq<Token>, stack: seq<Node>, expecting: seq<string>,
                   n: Node, r: Result<Parsed, Error>)
    requires |stack| == |expecting| + 1 && IsContainer(stack[|stack| - 1])
    requires r.Ok? ==> r.value.next <= |toks|
    ensures Resume(reg, id, toks, stack, expecting, Cons(n, r))
         == Resume(reg, id, toks, AddChild(stack, n), expecting, r)
  {
    if r.Ok? {
      var p := r.value;
      var top := stack[|stack| - 1];
      var top' := WithChildren(top, Children(top) + [n]);
      var grown := AddChild(stack, n);
      assert grown[|grown| - 1] == top' && grown[..|grown| - 1] == stack[..|stack| - 1];
      assert WithChildren(top', Children(top') + p.children) == WithChildren(top, Children(top) + ([n] + p.children)) by {
        assert Children(top') == Children(top) + [n];
        assert Children(top) + [n] + p.children == Children(top) + ([n] + p.children);
      }
    }
  }

  /** An opener read now becomes the innermost open node, expecting its closing keyword. */
  lemma ResumeOpen(reg: Registry, id: string, toks: seq<Token>, stack: seq<Node>, expecting: seq<string>, i: nat)
    requires |stack| == |expecting| + 1
    requires i < |toks| && OpensBlock(reg, toks[i])
    ensures var entry := reg.keywords[Keyword(toks[i]).value];
      Resume(reg, id, toks, stack + [InstructionNode(entry.nodeClass, toks[i], [])], expecting + [entry.endword.value],
             ParseItems(reg, id, toks, i + 1, Some(entry.endword.value)))
      == Resume(reg, id, toks, stack, expecting, ParseItems(reg, id, toks, i, Innermost(expecting)))
  {
    var entry := reg.keywords[Keyword(toks[i]).value];
    var node := InstructionNode(entry.nodeClass, toks[i], []);
    var r := ParseItems(reg, id, toks, i + 1, Some(entry.endword.value));
    OpenStep(reg, id, toks, i, Innermost(expecting));
    if r.Ok? {
      var stack' := stack + [node];
      var expecting' := expecting + [entry.endword.value];
      assert stack'[..|stack|] == stack && stack'[|stack|] == node;
      assert expecting'[..|expecting|] == expecting;
      assert [] + r.value.children == r.value.children;
      var done := InstructionNode(entry.nodeClass, toks[i], r.value.children);
      assert WithChildren(node, Children(node) + r.value.children) == done;
      var after := ParseItems(reg, id, toks, r.value.next, Innermost(expecting));
      assert Resume(reg, id, toks, stack', expecting', r)
          == Resume(reg, id, toks, stack, expecting, Attach(done, r.value.exits, after));
    }
  }

  /** A block instruction, unfolded: its children form a scope, and the parse resumes after its closer. */
  lemma OpenStep(reg: Registry, id: string, toks: seq<Token>, i: nat, scope: Option<string>)
    requires i < |toks| && OpensBlock(reg, toks[i])
    ensures var entry := reg.keywords[Keyword(toks[i]).value];
      ParseItems(reg, id, toks, i, scope)
      == match ParseItems(reg, id, toks, i + 1, Some(entry.endword.value))
         case Err(e) => Err(e)
         case Ok(inner) =>
           Attach(InstructionNode(entry.nodeClass, toks[i], inner.children), inner.exits,
                  ParseItems(reg, id, toks, inner.next, scope))
  {
    assert ParseItems(reg, id, toks, i, scope) == ParseInstruction(reg, id, toks, i, scope);
  }

  /** A block that parses: its scope parses, then the rest of the enclosing scope after its closer. */
  lemma OpenedBlock(reg: Registry, id: string, toks: seq<Token>, i: nat, scope: Option<string>)
    requires i < |toks| && OpensBlock(reg, toks[i])
    requires ParseItems(reg, id, toks, i, scope).Ok?
    ensures var entry := reg.keywords[Keyword(toks[i]).value];
      var inner := ParseItems(reg, id, toks, i + 1, Some(entry.endword.value));
      && inner.Ok?
      && var rest := ParseItems(reg, id, toks, inner.value.next, scope);
      && rest.Ok?
      && var p := ParseItems(reg, id, toks, i, scope).value;
      && p.children == [InstructionNode(entry.nodeClass, toks[i], inner.value.children)] + rest.value.children
      && p.next == rest.value.next
      && p.exits == inner.value.exits + [InstructionNode(entry.nodeClass, toks[i], inner.value.children)] + rest.value.exits
  {
    OpenStep(reg, id, toks, i, scope);
  }

  lemma ResumeShift(reg: Registry, id: string, toks: seq<Token>, stack: seq<Node>, expecting: seq<string>,
                    exits: seq<Node>, r: Result<Parsed, Error>)
    requires |stack| == |expecting| + 1
    requires r.Ok? ==> r.value.next <= |toks|
    ensures Resume(reg, id, toks, stack, expecting, Shift(exits, r))
         == Prefixed(exits, Resume(reg, id, toks, stack, expecting, r))
    decreases |expecting|
  {
    if r.Ok? && expecting != [] {
      var p := r.value;
      var top := stack[|stack| - 1];
      var done := WithChildren(top, Children(top) + p.children);
      var outer := expecting[..|expecting| - 1];
      var rest := ParseItems(reg, id, toks, p.next, Innermost(outer));
      if rest.Ok? {
        assert exits + p.exits + [done] + rest.value.exits == exits + (p.exits + [done] + rest.value.exits);
      }
      assert Attach(done, exits + p.exits, rest) == Shift(exits, Attach(done, p.exits, rest));
      ResumeShift(reg, id, toks, stack[..|stack| - 1], outer, exits, Attach(done, p.exits, rest));
    } else if r.Ok? {
      assert exits + r.value.exits == exits + r.value.exits;
    }
  }

  /**
   * A matching closer read now closes the innermost open node: it is logged as exited and
   * becomes the next child of the node below it.
   */
  lemma ResumeClose(reg: Registry, id: string, toks: seq<Token>, stack: seq<Node>, expecting: seq<string>,
                    exits: seq<Node>, j: nat)
    requires |stack| == |expecting| + 1 && expecting != [] && j <= |toks|
    requires IsContainer(stack[|stack| - 1]) && IsContainer(stack[|stack| - 2])
    ensures var top := stack[|stack| - 1];
      var outer := expecting[..|expecting| - 1];
      Prefixed(exits, Resume(reg, id, toks, stack, expecting, Ok(Parsed([], j, []))))
      == Prefixed(exits + [top], Resume(reg, id, toks, AddChild(stack[..|stack| - 1], top), outer,
                                        ParseItems(reg, id, toks, j, Innermost(outer))))
  {
    var top := stack[|stack| - 1];
    var below := stack[..|stack| - 1];
    var outer := expecting[..|expecting| - 1];
    var rest := ParseItems(reg, id, toks, j, Innermost(outer));
    assert Children(top) + [] == Children(top);
    assert WithChildren(top, Children(top)) == top;
    assert Attach(top, [], rest) == Shift([top], Cons(top, rest)) by {
      if rest.Ok? { assert [] + [top] + rest.value.exits == [top] + rest.value.exits; }
    }
    ResumeShift(reg, id, toks, below, outer, [top], Cons(top, rest));
    ResumeLeaf(reg, id, toks, below, outer, top, rest);
    var after := Resume(reg, id, toks, AddChild(below, top), outer, rest);
    if after.Ok? {
      assert exits + ([top] + after.value.exits) == exits + [top] + after.value.exits;
    }
  }

  /** Every open node, from the root up, can still receive children. */
  ghost predicate Containers(stack: seq<Node>) {
    forall k :: 0 <= k < |stack| ==> IsContainer(stack[k])
  }

  lemma AddChildContainers(stack: seq<Node>, n: Node)
    requires stack != [] && Containers(stack)
    ensures Containers(AddChild(stack, n)) && |AddChild(stack, n)| == |stack|
  {
    var grown := AddChild(stack, n);
    forall k | 0 <= k < |grown| ensures IsContainer(grown[k]) {
      if k < |stack| - 1 { assert grown[k] == stack[k]; }
    }
  }

  /** A leaf token is the next child of the scope. */
  lemma LeafStep(reg: Registry, id: string, toks: seq<Token>, i: nat, scope: Option<string>)
    requires i < |toks| && toks[i].kind != Instruction
    ensures ParseItems(reg, id, toks, i, scope) == Cons(LeafNode(toks[i]), ParseItems(reg, id, toks, i + 1, scope))
  {
  }

  /** One instruction token, unfolded: the IndexError, a single instruction, or a closer. */
  lemma InstructionStep(reg: Registry, id: string, toks: seq<Token>, i: nat, scope: Option<string>)
    requires i < |toks| && toks[i].kind == Instruction
    ensures var t := toks[i];
      var r := ParseItems(reg, id, toks, i, scope);
      && r == ParseInstruction(reg, id, toks, i, scope)
      && (Keyword(t).None? ==> r == Err(IndexError))
      && (Keyword(t).Some? ==>
            var kw := Keyword(t).value;
            && (kw in reg.keywords && !OpensScope(reg.keywords[kw]) ==>
                  r == Cons(InstructionNode(reg.keywords[kw].nodeClass, t, []), ParseItems(reg, id, toks, i + 1, scope)))
            && (kw !in reg.keywords ==> r == CloseScope(reg, t, kw, i, scope)))
  {
  }

  /** What the parse returns from a state of the stack machine about to read the token at `i`. */
  ghost function Outcome(reg: Registry, id: string, toks: seq<Token>, i: nat, stack: seq<Node>,
                         expecting: seq<string>, exits: seq<Node>): Result<Compiled, Error>
    requires i <= |toks| && |stack| == |expecting| + 1
  {
    Prefixed(exits, Resume(reg, id, toks, stack, expecting, ParseItems(reg, id, toks, i, Innermost(expecting))))
  }

  /** A failure in the rest of the innermost scope is the failure of the whole parse. */
  lemma ResumeFails(reg: Registry, id: string, toks: seq<Token>, stack: seq<Node>, expecting: seq<string>,
                    exits: seq<Node>, i: nat, e: Error)
    requires |stack| == |expecting| + 1 && i <= |toks|
    requires ParseItems(reg, id, toks, i, Innermost(expecting)) == Err(e)
    ensures Prefixed(exits, Resume(reg, id, toks, stack, expecting, ParseItems(reg, id, toks, i, Innermost(expecting))))
         == Err(e)
  {
  }

  // ---------------------------------------------------------------------------------------
  // The imperative parser.

  /** `Parser`: the template it compiles and the template's id. */
  class Parser {
    const source: string
    const templateId: string

    constructor (source: string, templateId: string)
      ensures this.source == source && this.templateId == templateId
    {
      this.source := source;
      this.templateId := templateId;
    }

    /**
     * `Parser.parse`: lexes the template, then parses the tokens; a lexing error is raised
     * before any token is parsed.
     */
    method Parse(reg: Registry) returns (r: Result<Compiled, Error>)
      ensures r == CompileSpec(reg, source, templateId)
    {
      var lexer := new Lexer(source, templateId);
      var lexed := lexer.Tokenize();
      assert lexed == Lex(source, templateId) by {
        var spec := Lex(source, templateId);
        if spec.Ok? { assert [] + spec.value == spec.value; }
      }
      if lexed.Err? {
        return Err(lexed.error);
      }
      r := ParseTokens(reg, lexed.value);
    }

    /**
     * The loop of `Parser.parse`: one pass over the tokens with a stack of open nodes (the
     * root at the bottom) and a parallel stack of the closing keywords they expect. The
     * source appends a block node to its parent when it opens and keeps filling it through
     * the shared reference; here nodes are values, so a block is appended to its parent when
     * it closes, which gives the same tree.
     */
    method ParseTokens(reg: Registry, tokens: seq<Token>) returns (r: Result<Compiled, Error>)
      ensures r == ParseTree(reg, templateId, tokens)
    {
      ghost var goal := ParseTree(reg, templateId, tokens);
      var stack: seq<Node> := [Root([])];
      var expecting: seq<string> := [];
      var exits: seq<Node> := [];
      ResumeStart(reg, templateId, tokens);
      for i := 0 to |tokens|
        invariant |stack| == |expecting| + 1 && Containers(stack)
        invariant Outcome(reg, templateId, tokens, i, stack, expecting, exits) == goal
      {
        var err;
        err, stack, expecting, exits := Consume(reg, tokens, i, stack, expecting, exits);
        if err.Some? {
          return Err(err.value);
        }
      }
      r := Finish(reg, tokens, stack, expecting, exits);
    }

    /**
     * After the last token: a scope still open raises the end-of-template error, which names
     * the innermost expected closer and no line; otherwise the root is the result.
     */
    method Finish(reg: Registry, tokens: seq<Token>, stack: seq<Node>, expecting: seq<string>, exits: seq<Node>)
      returns (r: Result<Compiled, Error>)
      requires |stack| == |expecting| + 1
      ensures |expecting| > 0 ==> r == Err(SyntaxError(UnexpectedEnd(expecting[|expecting| - 1]), templateId, None))
      ensures |expecting| == 0 ==> r == Ok(Compiled(stack[0], exits))
      ensures r == Outcome(reg, templateId, tokens, |tokens|, stack, expecting, exits)
    {
      if |expecting| > 0 {
        var e := SyntaxError(UnexpectedEnd(expecting[|expecting| - 1]), templateId, None);
        ResumeFails(reg, templateId, tokens, stack, expecting, exits, |tokens|, e);
        return Err(e);
      }
      assert ParseItems(reg, templateId, tokens, |tokens|, None) == Ok(Parsed([], |tokens|, []));
      assert Children(stack[0]) + [] == Children(stack[0]);
      assert WithChildren(stack[0], Children(stack[0])) == stack[0];
      assert exits + [] == exits;
      return Ok(Compiled(stack[0], exits));
    }

    /**
     * One iteration of the loop of `Parser.parse`, on the token at `i`: a leaf is appended to
     * the innermost open node; an instruction is handled by `ConsumeInstruction`. Either the
     * outcome of the parse is unchanged, or it is the error raised here.
     */
    method Consume(reg: Registry, tokens: seq<Token>, i: nat, stack: seq<Node>, expecting: seq<string>,
                   exits: seq<Node>)
      returns (err: Option<Error>, stack': seq<Node>, expecting': seq<string>, exits': seq<Node>)
      requires i < |tokens| && |stack| == |expecting| + 1 && Containers(stack)
      ensures err.None? ==> |stack'| == |expecting'| + 1 && Containers(stack')
      ensures err.None? ==> Outcome(reg, templateId, tokens, i + 1, stack', expecting', exits')
                            == Outcome(reg, templateId, tokens, i, stack, expecting, exits)
      ensures err.Some? ==> Outcome(reg, templateId, tokens, i, stack, expecting, exits) == Err(err.value)
      ensures tokens[i].kind != Instruction ==>
        err.None? && stack' == AddChild(stack, LeafNode(tokens[i])) && expecting' == expecting && exits' == exits
    {
      var token := tokens[i];
      ghost var rest := ParseItems(reg, templateId, tokens, i + 1, Innermost(expecting));
      var node: Node;
      if token.kind == Text {
        node := TextNode(token);
      } else if token.kind == Print {
        node := PrintNode(token);
      } else if token.kind == EPrint {
        node := EscapedPrintNode(token);
      } else {
        err, stack', expecting', exits' := ConsumeInstruction(reg, tokens, i, stack, expecting, exits);
        return;
      }
      LeafStep(reg, templateId, tokens, i, Innermost(expecting));
      ResumeLeaf(reg, templateId, tokens, stack, expecting, node, rest);
      AddChildContainers(stack, node);
      err, stack', expecting', exits' := None, AddChild(stack, node), expecting, exits;
    }

    /**
     * The instruction at `i`: a registered keyword becomes a node appended to the innermost
     * open node, and a block is pushed as the new innermost one; the expected closing keyword
     * pops the innermost node after logging its `exit_scope`; anything else raises.
     */
    method ConsumeInstruction(reg: Registry, tokens: seq<Token>, i: nat, stack: seq<Node>, expecting: seq<string>,
                              exits: seq<Node>)
      returns (err: Option<Error>, stack': seq<Node>, expecting': seq<string>, exits': seq<Node>)
      requires i < |tokens| && tokens[i].kind == Instruction
      requires |stack| == |expecting| + 1 && Containers(stack)
      ensures err.None? ==> |stack'| == |expecting'| + 1 && Containers(stack')
      ensures err.None? ==> Outcome(reg, templateId, tokens, i + 1, stack', expecting', exits')
                            == Outcome(reg, templateId, tokens, i, stack, expecting, exits)
      ensures err.Some? ==> Outcome(reg, templateId, tokens, i, stack, expecting, exits) == Err(err.value)
      ensures Keyword(tokens[i]).None? ==> err == Some(IndexError)
      ensures Keyword(tokens[i]).Some? && Keyword(tokens[i]).value in reg.keywords ==>
        var entry := reg.keywords[Keyword(tokens[i]).value];
        var node := InstructionNode(entry.nodeClass, tokens[i], []);
        && err.None? && exits' == exits
        && (OpensScope(entry) ==> stack' == stack + [node] && expecting' == expecting + [entry.endword.value])
        && (!OpensScope(entry) ==> stack' == AddChild(stack, node) && expecting' == expecting)
      ensures Keyword(tokens[i]).Some? && Keyword(tokens[i]).value !in reg.keywords ==>
        var t := tokens[i];
        var kw := Keyword(t).value;
        && (kw !in reg.endwords ==> err == Some(SyntaxError(UnrecognisedInstruction(kw), t.templateId, Some(t.line))))
        && (kw in reg.endwords && expecting == [] ==>
              err == Some(SyntaxError(UnexpectedTag(kw), t.templateId, Some(t.line))))
        && (kw in reg.endwords && expecting != [] && expecting[|expecting| - 1] != kw ==>
              err == Some(SyntaxError(MismatchedTag(kw, expecting[|expecting| - 1]), t.templateId, Some(t.line))))
        && (kw in reg.endwords && expecting != [] && expecting[|expecting| - 1] == kw ==>
              && err.None? && exits' == exits + [stack[|stack| - 1]]
              && stack' == AddChild(stack[..|stack| - 1], stack[|stack| - 1])
              && expecting' == expecting[..|expecting| - 1])
    {
      var token := tokens[i];
      InstructionStep(reg, templateId, tokens, i, Innermost(expecting));
      stack', expecting', exits' := stack, expecting, exits;
      var keyword := Keyword(token);
      if keyword.None? {
        ResumeFails(reg, templateId, tokens, stack, expecting, exits, i, IndexError);
        return Some(IndexError), stack', expecting', exits';
      }
      var kw := keyword.value;
      if kw in reg.keywords {
        var entry := reg.keywords[kw];
        var node := InstructionNode(entry.nodeClass, token, []);
        if OpensScope(entry) {
          ResumeOpen(reg, templateId, tokens, stack, expecting, i);
          stack' := stack + [node];
          expecting' := expecting + [entry.endword.value];
        } else {
          ResumeLeaf(reg, templateId, tokens, stack, expecting, node,
                     ParseItems(reg, templateId, tokens, i + 1, Innermost(expecting)));
          AddChildContainers(stack, node);
          stack' := AddChild(stack, node);
        }
        return None, stack', expecting', exits';
      }
      var e: Error;
      if kw in reg.endwords {
        if |expecting| == 0 {
          e := SyntaxError(UnexpectedTag(kw), token.templateId, Some(token.line));
        } else if expecting[|expecting| - 1] != kw {
          e := SyntaxError(MismatchedTag(kw, expecting[|expecting| - 1]), token.templateId, Some(token.line));
        } else {
          var closed := stack[|stack| - 1];
          ResumeClose(reg, templateId, tokens, stack, expecting, exits, i + 1);
          AddChildContainers(stack[..|stack| - 1], closed);
          exits' := exits + [closed];
          stack' := AddChild(stack[..|stack| - 1], closed);
          expecting' := expecting[..|expecting| - 1];
          return None, stack', expecting', exits';
        }
      } else {
        e := SyntaxError(UnrecognisedInstruction(kw), token.templateId, Some(token.line));
      }
      ResumeFails(reg, templateId, tokens, stack, expecting, exits, i, e);
      return Some(e), stack', expecting', exits';
    }
  }

  /** `compile(template_string, template_id)`. */
  method Compile(reg: Registry, source: string, id: string) returns (r: Result<Compiled, Error>)
    ensures r == CompileSpec(reg, source, id)
  {
    var parser := new Parser(source, id);
    r := parser.Parse(reg);
  }
}
