/**
 * How blocks nest. A depth scan over the tokens, which knows nothing of the parser's stack,
 * finds the closer that matches each block opener; reading the tokens with it gives a tree in
 * which every block holds exactly the nodes of the tokens between its opener and that closer.
 * A successful parse returns that tree.
 */
module ParserNesting {
  import opened Wrappers
  import opened Tokens
  import opened Lexing
  import opened Parsing
  import opened ParserProperties
  import LexerProperties

  /**
   * The index of the closer that ends a scope, scanning from `k` with `depth` blocks opened
   * inside the scope and not yet closed: a block opener goes one deeper, a closer at depth 0
   * is the answer and a deeper closer closes one block. `None` when the tokens run out first.
   */
  function MatchingCloser(reg: Registry, toks: seq<Token>, k: nat, depth: nat): (m: Option<nat>)
    requires k <= |toks|
    ensures m.Some? ==> k <= m.value < |toks|
    decreases |toks| - k
  {
    if k == |toks| then None
    else if IsCloser(reg, toks[k]) then
      if depth == 0 then Some(k) else MatchingCloser(reg, toks, k + 1, depth - 1)
    else if OpensBlock(reg, toks[k]) then MatchingCloser(reg, toks, k + 1, depth + 1)
    else MatchingCloser(reg, toks, k + 1, depth)
  }

  /**
   * The nodes of the tokens in `[i, j)`, read with the depth scan alone: a leaf or a single
   * instruction is one node; a block opener is a node holding the nodes of the tokens up to
   * its matching closer, and the list carries on after that closer; closers build nothing.
   * A block whose matching closer does not come before `j` takes the rest of the range.
   */
  function Nodes(reg: Registry, toks: seq<Token>, i: nat, j: nat): seq<Node>
    requires i <= j <= |toks|
    decreases j - i
  {
    if i == j then []
    else
      var t := toks[i];
      if t.kind != Instruction then [LeafNode(t)] + Nodes(reg, toks, i + 1, j)
      else if OpensBlock(reg, t) then
        var entry := reg.keywords[Keyword(t).value];
        var m := MatchingCloser(reg, toks, i + 1, 0);
        if m.Some? && m.value < j then
          [InstructionNode(entry.nodeClass, t, Nodes(reg, toks, i + 1, m.value))] + Nodes(reg, toks, m.value + 1, j)
        else [InstructionNode(entry.nodeClass, t, Nodes(reg, toks, i + 1, j))]
      else if Keyword(t).Some? && Keyword(t).value in reg.keywords then
        [InstructionNode(reg.keywords[Keyword(t).value].nodeClass, t, [])] + Nodes(reg, toks, i + 1, j)
      else Nodes(reg, toks, i + 1, j)
  }

  /** The block opened at `k`, whose closing keyword is `w`, has no matching closer. */
  predicate Unclosed(reg: Registry, toks: seq<Token>, k: nat, w: string) {
    && k < |toks| && OpensBlock(reg, toks[k])
    && reg.keywords[Keyword(toks[k]).value].endword == Some(w)
    && MatchingCloser(reg, toks, k + 1, 0).None?
  }

  /** Where a scope's own tokens end: just before its closer, or at the end for the root. */
  function ScopeEnd(scope: Option<string>, next: nat): nat {
    if scope.Some? && next > 0 then next - 1 else next
  }

  /**
   * Once the scan from `k` at depth `d` has found its closer, the same scan one block deeper
   * carries on just after that closer.
   */
  lemma {:induction false} MatchingCloserShift(reg: Registry, toks: seq<Token>, k: nat, d: nat, e: nat)
    requires k <= |toks| && MatchingCloser(reg, toks, k, d).Some?
    ensures MatchingCloser(reg, toks, k, d + 1 + e)
         == MatchingCloser(reg, toks, MatchingCloser(reg, toks, k, d).value + 1, e)
    decreases |toks| - k
  {
    var m := MatchingCloser(reg, toks, k, d).value;
    var goal := MatchingCloser(reg, toks, k, d + 1 + e);
    if IsCloser(reg, toks[k]) {
      if d > 0 {
        assert MatchingCloser(reg, toks, k + 1, d - 1) == Some(m);
        MatchingCloserShift(reg, toks, k + 1, d - 1, e);
        assert goal == MatchingCloser(reg, toks, k + 1, d - 1 + 1 + e);
        assert goal == MatchingCloser(reg, toks, m + 1, e);
      } else {
        assert m == k;
        assert goal == MatchingCloser(reg, toks, k + 1, e);
        assert goal == MatchingCloser(reg, toks, m + 1, e);
      }
    } else if OpensBlock(reg, toks[k]) {
      assert MatchingCloser(reg, toks, k + 1, d + 1) == Some(m);
      MatchingCloserShift(reg, toks, k + 1, d + 1, e);
      assert goal == MatchingCloser(reg, toks, k + 1, d + 1 + 1 + e);
      assert goal == MatchingCloser(reg, toks, m + 1, e);
    } else {
      assert MatchingCloser(reg, toks, k + 1, d) == Some(m);
      MatchingCloserShift(reg, toks, k + 1, d, e);
      assert goal == MatchingCloser(reg, toks, k + 1, d + 1 + e);
      assert goal == MatchingCloser(reg, toks, m + 1, e);
    }
  }

  /** The scan stops only at a closer. */
  lemma {:induction false} MatchingCloserIsCloser(reg: Registry, toks: seq<Token>, k: nat, d: nat)
    requires k <= |toks| && MatchingCloser(reg, toks, k, d).Some?
    ensures IsCloser(reg, toks[MatchingCloser(reg, toks, k, d).value])
    decreases |toks| - k
  {
    if IsCloser(reg, toks[k]) {
      if d > 0 {
        MatchingCloserIsCloser(reg, toks, k + 1, d - 1);
      }
    } else if OpensBlock(reg, toks[k]) {
      MatchingCloserIsCloser(reg, toks, k + 1, d + 1);
    } else {
      MatchingCloserIsCloser(reg, toks, k + 1, d);
    }
  }

  /** A scope that parses ends at the closer the depth scan matches to it. */
  lemma {:induction false} ScopeCloser(reg: Registry, id: string, toks: seq<Token>, i: nat, kw: string)
    requires i <= |toks| && ParseItems(reg, id, toks, i, Some(kw)).Ok?
    ensures MatchingCloser(reg, toks, i, 0) == Some(ParseItems(reg, id, toks, i, Some(kw)).value.next - 1)
    decreases |toks| - i, 1
  {
    if toks[i].kind != Instruction {
      LeafStep(reg, id, toks, i, Some(kw));
      ScopeCloser(reg, id, toks, i + 1, kw);
    } else {
      InstructionCloser(reg, id, toks, i, kw);
    }
  }

  lemma {:induction false} InstructionCloser(reg: Registry, id: string, toks: seq<Token>, i: nat, kw: string)
    requires i < |toks| && toks[i].kind == Instruction
    requires ParseItems(reg, id, toks, i, Some(kw)).Ok?
    ensures MatchingCloser(reg, toks, i, 0) == Some(ParseItems(reg, id, toks, i, Some(kw)).value.next - 1)
    decreases |toks| - i, 0, 1
  {
    var t := toks[i];
    if OpensBlock(reg, t) {
      BlockCloser(reg, id, toks, i, kw);
    } else {
      InstructionStep(reg, id, toks, i, Some(kw));
      if Keyword(t).Some? && Keyword(t).value in reg.keywords {
        ScopeCloser(reg, id, toks, i + 1, kw);
      }
    }
  }

  lemma {:induction false} BlockCloser(reg: Registry, id: string, toks: seq<Token>, i: nat, kw: string)
    requires i < |toks| && OpensBlock(reg, toks[i])
    requires ParseItems(reg, id, toks, i, Some(kw)).Ok?
    ensures MatchingCloser(reg, toks, i, 0) == Some(ParseItems(reg, id, toks, i, Some(kw)).value.next - 1)
    decreases |toks| - i, 0, 0
  {
    var ew := reg.keywords[Keyword(toks[i]).value].endword.value;
    OpenStep(reg, id, toks, i, Some(kw));
    var inner := ParseItems(reg, id, toks, i + 1, Some(ew));
    ScopeCloser(reg, id, toks, i + 1, ew);
    ScopeCloser(reg, id, toks, inner.value.next, kw);
    MatchingCloserAfterBlock(reg, toks, i, inner.value.next - 1);
  }

  /** The scan from a block opener skips the block up to its matching closer `m` and carries on. */
  lemma MatchingCloserAfterBlock(reg: Registry, toks: seq<Token>, i: nat, m: nat)
    requires i < |toks| && OpensBlock(reg, toks[i]) && MatchingCloser(reg, toks, i + 1, 0) == Some(m)
    ensures MatchingCloser(reg, toks, i, 0) == MatchingCloser(reg, toks, m + 1, 0)
  {
    MatchingCloserShift(reg, toks, i + 1, 0, 0);
    MatchingCloserOpen(reg, toks, i, 0);
  }

  /** A block opener takes the scan one block deeper. */
  lemma MatchingCloserOpen(reg: Registry, toks: seq<Token>, k: nat, d: nat)
    requires k < |toks| && OpensBlock(reg, toks[k])
    ensures MatchingCloser(reg, toks, k, d) == MatchingCloser(reg, toks, k + 1, d + 1)
  {
    assert !IsCloser(reg, toks[k]);
  }

  /**
   * The nodes a scope parses to are the nodes the depth scan reads from the scope's own
   * tokens: each block holds the nodes of the tokens between its opener and its matching closer.
   */
  lemma {:induction false} ScopeNodes(reg: Registry, id: string, toks: seq<Token>, i: nat, scope: Option<string>)
    requires i <= |toks| && ParseItems(reg, id, toks, i, scope).Ok?
    ensures var p := ParseItems(reg, id, toks, i, scope).value;
      && i <= ScopeEnd(scope, p.next) <= |toks|
      && p.children == Nodes(reg, toks, i, ScopeEnd(scope, p.next))
    decreases |toks| - i, 1
  {
    if i == |toks| {
      return;
    }
    if scope.Some? {
      ScopeEndsAtCloser(reg, id, toks, i, scope.value);
    }
    if toks[i].kind != Instruction {
      LeafStep(reg, id, toks, i, scope);
      ScopeNodes(reg, id, toks, i + 1, scope);
    } else {
      InstructionNodes(reg, id, toks, i, scope);
    }
  }

  lemma {:induction false} InstructionNodes(reg: Registry, id: string, toks: seq<Token>, i: nat, scope: Option<string>)
    requires i < |toks| && toks[i].kind == Instruction
    requires ParseItems(reg, id, toks, i, scope).Ok?
    ensures var p := ParseItems(reg, id, toks, i, scope).value;
      && i <= ScopeEnd(scope, p.next) <= |toks|
      && p.children == Nodes(reg, toks, i, ScopeEnd(scope, p.next))
    decreases |toks| - i, 0, 1
  {
    var t := toks[i];
    var w := Keyword(t).value;
    if w in reg.keywords && OpensScope(reg.keywords[w]) {
      BlockNodes(reg, id, toks, i, scope);
    } else {
      InstructionStep(reg, id, toks, i, scope);
      if scope.Some? {
        ScopeEndsAtCloser(reg, id, toks, i, scope.value);
      }
      if w in reg.keywords {
        ScopeNodes(reg, id, toks, i + 1, scope);
      }
    }
  }

  lemma {:induction false} BlockNodes(reg: Registry, id: string, toks: seq<Token>, i: nat, scope: Option<string>)
    requires i < |toks| && OpensBlock(reg, toks[i])
    requires ParseItems(reg, id, toks, i, scope).Ok?
    ensures var p := ParseItems(reg, id, toks, i, scope).value;
      && i <= ScopeEnd(scope, p.next) <= |toks|
      && p.children == Nodes(reg, toks, i, ScopeEnd(scope, p.next))
    decreases |toks| - i, 0, 0
  {
    var ew := reg.keywords[Keyword(toks[i]).value].endword.value;
    OpenedBlock(reg, id, toks, i, scope);
    var next := ParseItems(reg, id, toks, i + 1, Some(ew)).value.next;
    ScopeCloser(reg, id, toks, i + 1, ew);
    ScopeNodes(reg, id, toks, i + 1, Some(ew));
    ScopeNodes(reg, id, toks, next, scope);
    BlockNodesJoin(reg, toks, i, scope, ParseItems(reg, id, toks, i, scope).value,
                   ParseItems(reg, id, toks, i + 1, Some(ew)).value, ParseItems(reg, id, toks, next, scope).value);
  }

  /** The nodes of a block's body, followed by the nodes after its closer, are the nodes of the scope. */
  lemma BlockNodesJoin(reg: Registry, toks: seq<Token>, i: nat, scope: Option<string>, p: Parsed, inner: Parsed, rest: Parsed)
    requires i < |toks| && OpensBlock(reg, toks[i])
    requires var entry := reg.keywords[Keyword(toks[i]).value];
      && p.children == [InstructionNode(entry.nodeClass, toks[i], inner.children)] + rest.children
      && p.next == rest.next
      && MatchingCloser(reg, toks, i + 1, 0) == Some(inner.next - 1)
      && inner.children == Nodes(reg, toks, i + 1, ScopeEnd(Some(entry.endword.value), inner.next))
    requires inner.next <= ScopeEnd(scope, rest.next) <= |toks|
    requires rest.children == Nodes(reg, toks, inner.next, ScopeEnd(scope, rest.next))
    ensures i <= ScopeEnd(scope, p.next) <= |toks|
    ensures p.children == Nodes(reg, toks, i, ScopeEnd(scope, p.next))
  {
    NodesBlock(reg, toks, i, inner.next - 1, ScopeEnd(scope, p.next));
  }

  /** A block opener whose matching closer `m` lies inside the range holds the nodes up to `m`. */
  lemma NodesBlock(reg: Registry, toks: seq<Token>, i: nat, m: nat, end: nat)
    requires i < |toks| && OpensBlock(reg, toks[i])
    requires MatchingCloser(reg, toks, i + 1, 0) == Some(m) && m < end <= |toks|
    ensures Nodes(reg, toks, i, end)
         == [InstructionNode(reg.keywords[Keyword(toks[i]).value].nodeClass, toks[i], Nodes(reg, toks, i + 1, m))]
            + Nodes(reg, toks, m + 1, end)
  {
    assert toks[i].kind == Instruction && i != end;
  }

  /** Every block opener inside a scope that parses has a matching closer. */
  lemma {:induction false} BlocksClosed(reg: Registry, id: string, toks: seq<Token>, i: nat, scope: Option<string>)
    requires i <= |toks| && ParseItems(reg, id, toks, i, scope).Ok?
    ensures forall k :: i <= k < ParseItems(reg, id, toks, i, scope).value.next && OpensBlock(reg, toks[k]) ==>
      MatchingCloser(reg, toks, k + 1, 0).Some?
    decreases |toks| - i, 1
  {
    if i == |toks| {
      return;
    }
    if toks[i].kind != Instruction {
      LeafStep(reg, id, toks, i, scope);
      BlocksClosed(reg, id, toks, i + 1, scope);
    } else {
      InstructionBlocksClosed(reg, id, toks, i, scope);
    }
  }

  lemma {:induction false} InstructionBlocksClosed(reg: Registry, id: string, toks: seq<Token>, i: nat,
                                                   scope: Option<string>)
    requires i < |toks| && toks[i].kind == Instruction
    requires ParseItems(reg, id, toks, i, scope).Ok?
    ensures forall k :: i <= k < ParseItems(reg, id, toks, i, scope).value.next && OpensBlock(reg, toks[k]) ==>
      MatchingCloser(reg, toks, k + 1, 0).Some?
    decreases |toks| - i, 0, 1
  {
    var t := toks[i];
    if OpensBlock(reg, t) {
      BlockBlocksClosed(reg, id, toks, i, scope);
    } else {
      InstructionStep(reg, id, toks, i, scope);
      if Keyword(t).Some? && Keyword(t).value in reg.keywords {
        BlocksClosed(reg, id, toks, i + 1, scope);
      }
    }
  }

  lemma {:induction false} BlockBlocksClosed(reg: Registry, id: string, toks: seq<Token>, i: nat,
                                             scope: Option<string>)
    requires i < |toks| && OpensBlock(reg, toks[i])
    requires ParseItems(reg, id, toks, i, scope).Ok?
    ensures forall k :: i <= k < ParseItems(reg, id, toks, i, scope).value.next && OpensBlock(reg, toks[k]) ==>
      MatchingCloser(reg, toks, k + 1, 0).Some?
    decreases |toks| - i, 0, 0
  {
    var ew := reg.keywords[Keyword(toks[i]).value].endword.value;
    OpenedBlock(reg, id, toks, i, scope);
    var inner := ParseItems(reg, id, toks, i + 1, Some(ew)).value;
    assert MatchingCloser(reg, toks, i + 1, 0).Some? by {
      ScopeCloser(reg, id, toks, i + 1, ew);
    }
    BlocksClosed(reg, id, toks, i + 1, Some(ew));
    BlocksClosed(reg, id, toks, inner.next, scope);
  }

  /**
   * The end-of-template error names the closing keyword of a block opened in the scope (or
   * of the scope itself) that the depth scan cannot close, and carries no line.
   */
  lemma {:induction false} UnexpectedEndIsUnclosed(reg: Registry, id: string, toks: seq<Token>, i: nat,
                                                   scope: Option<string>)
    requires i <= |toks|
    requires ParseItems(reg, id, toks, i, scope).Err?
    requires ParseItems(reg, id, toks, i, scope).error.SyntaxError?
    requires ParseItems(reg, id, toks, i, scope).error.kind.UnexpectedEnd?
    ensures var e := ParseItems(reg, id, toks, i, scope).error;
      && e.templateId == id && e.line == None
      && ((scope == Some(e.kind.expected) && MatchingCloser(reg, toks, i, 0).None?)
          || exists k :: i <= k && Unclosed(reg, toks, k, e.kind.expected))
    decreases |toks| - i, 1
  {
    if i < |toks| {
      if toks[i].kind != Instruction {
        LeafStep(reg, id, toks, i, scope);
        UnexpectedEndIsUnclosed(reg, id, toks, i + 1, scope);
      } else {
        InstructionUnexpectedEnd(reg, id, toks, i, scope);
      }
    }
  }

  lemma {:induction false} InstructionUnexpectedEnd(reg: Registry, id: string, toks: seq<Token>, i: nat,
                                                    scope: Option<string>)
    requires i < |toks| && toks[i].kind == Instruction
    requires ParseItems(reg, id, toks, i, scope).Err?
    requires ParseItems(reg, id, toks, i, scope).error.SyntaxError?
    requires ParseItems(reg, id, toks, i, scope).error.kind.UnexpectedEnd?
    ensures var e := ParseItems(reg, id, toks, i, scope).error;
      && e.templateId == id && e.line == None
      && ((scope == Some(e.kind.expected) && MatchingCloser(reg, toks, i, 0).None?)
          || exists k :: i <= k && Unclosed(reg, toks, k, e.kind.expected))
    decreases |toks| - i, 0, 1
  {
    if OpensBlock(reg, toks[i]) {
      BlockUnexpectedEnd(reg, id, toks, i, scope);
    } else {
      InstructionStep(reg, id, toks, i, scope);
      if Keyword(toks[i]).value in reg.keywords {
        UnexpectedEndIsUnclosed(reg, id, toks, i + 1, scope);
      }
    }
  }

  lemma {:induction false} BlockUnexpectedEnd(reg: Registry, id: string, toks: seq<Token>, i: nat,
                                              scope: Option<string>)
    requires i < |toks| && OpensBlock(reg, toks[i])
    requires ParseItems(reg, id, toks, i, scope).Err?
    requires ParseItems(reg, id, toks, i, scope).error.SyntaxError?
    requires ParseItems(reg, id, toks, i, scope).error.kind.UnexpectedEnd?
    ensures var e := ParseItems(reg, id, toks, i, scope).error;
      && e.templateId == id && e.line == None
      && ((scope == Some(e.kind.expected) && MatchingCloser(reg, toks, i, 0).None?)
          || exists k :: i <= k && Unclosed(reg, toks, k, e.kind.expected))
    decreases |toks| - i, 0, 0
  {
    var ew := reg.keywords[Keyword(toks[i]).value].endword.value;
    OpenStep(reg, id, toks, i, scope);
    var inner := ParseItems(reg, id, toks, i + 1, Some(ew));
    if inner.Err? {
      UnexpectedEndIsUnclosed(reg, id, toks, i + 1, Some(ew));
      if ew == inner.error.kind.expected && MatchingCloser(reg, toks, i + 1, 0).None? {
        assert Unclosed(reg, toks, i, ew);
      }
    } else {
      ScopeCloser(reg, id, toks, i + 1, ew);
      MatchingCloserAfterBlock(reg, toks, i, inner.value.next - 1);
      UnexpectedEndIsUnclosed(reg, id, toks, inner.value.next, scope);
    }
  }

  /**
   * A successful parse returns the root holding exactly the nodes the depth scan reads from
   * all the tokens, so every block holds the nodes of the tokens between its opener and its
   * matching closer, and every block is closed; the tree holds every non-closing token in
   * document order, and `exit_scope` was called on exactly its blocks, innermost first.
   */
  lemma ParseTreeResult(reg: Registry, id: string, toks: seq<Token>)
    requires ParseTree(reg, id, toks).Ok?
    ensures var c := ParseTree(reg, id, toks).value;
      && c.root == Root(Nodes(reg, toks, 0, |toks|))
      && Flatten(c.root.children) == DropClosers(reg, toks)
      && c.exits == ClosedBlocks(reg, c.root.children)
      && forall k :: 0 <= k < |toks| && OpensBlock(reg, toks[k]) ==> MatchingCloser(reg, toks, k + 1, 0).Some?
  {
    ScopeNodes(reg, id, toks, 0, None);
    BlocksClosed(reg, id, toks, 0, None);
    ParsedTokens(reg, id, toks, 0, None);
    ExitsArePostOrder(reg, id, toks, 0, None);
    assert toks[0..|toks|] == toks;
  }

  /**
   * The end of the template is reported with a scope still open only when some block has no
   * matching closer; the error names the closing keyword of such a block and no line. A
   * template in which some block has no matching closer never parses.
   */
  lemma UnclosedBlockAtEnd(reg: Registry, id: string, toks: seq<Token>)
    ensures var r := ParseTree(reg, id, toks);
      && (r.Err? && r.error.SyntaxError? && r.error.kind.UnexpectedEnd? ==>
            && r.error.templateId == id && r.error.line == None
            && exists k :: Unclosed(reg, toks, k, r.error.kind.expected))
      && ((exists k, w :: Unclosed(reg, toks, k, w)) ==> r.Err?)
  {
    var r := ParseItems(reg, id, toks, 0, None);
    if r.Err? {
      if r.error.SyntaxError? && r.error.kind.UnexpectedEnd? {
        UnexpectedEndIsUnclosed(reg, id, toks, 0, None);
      }
    } else {
      BlocksClosed(reg, id, toks, 0, None);
    }
  }

  /**
   * `compile`: a template compiles to the root that the depth scan reads from the lexed
   * tokens, holding every lexed token except the closing tags, in order, with `exit_scope`
   * called on its blocks innermost first; when it fails, the error names the template, and
   * it is an unclosed tag exactly when lexing failed.
   */
  lemma CompileResult(reg: Registry, source: string, id: string)
    ensures var r := CompileSpec(reg, source, id);
      && (r.Ok? ==>
            && Lex(source, id).Ok?
            && r.value.root == Root(Nodes(reg, Lex(source, id).value, 0, |Lex(source, id).value|))
            && Flatten(r.value.root.children) == DropClosers(reg, Lex(source, id).value)
            && r.value.exits == ClosedBlocks(reg, r.value.root.children))
      && (r.Err? ==> r.error == IndexError || (r.error.SyntaxError? && r.error.templateId == id))
      && (r.Err? && r.error.SyntaxError? ==> (r.error.kind.UnclosedTag? <==> Lex(source, id).Err?))
  {
    var lexed := Lex(source, id);
    if lexed.Err? {
      LexerProperties.LexErrorIsUnclosedTag(source, id, 0);
    } else {
      var toks := lexed.value;
      LexerProperties.LexedTokensWellFormed(source, id, 0);
      assert forall k :: 0 <= k < |toks| ==> toks[k] in toks;
      if ParseTree(reg, id, toks).Ok? {
        ParseTreeResult(reg, id, toks);
      } else {
        ParseErrorNamesTemplate(reg, id, toks, 0, None);
      }
    }
  }
}
