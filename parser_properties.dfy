/** What the parser promises about the tree it builds and the order in which scopes close. */
module ParserProperties {
  import opened Wrappers
  import opened Strings
  import opened Tokens
  import opened Lexing
  import opened Parsing
  import LexerProperties

  /** The tokens of a node list in document order: each node's own token, then its children's. */
  function Flatten(ns: seq<Node>): seq<Token>
  {
    if ns == [] then [] else NodeTokens(ns[0]) + Flatten(ns[1..])
  }

  function NodeTokens(n: Node): seq<Token>
  {
    match n
    case Root(cs) => Flatten(cs)
    case InstructionNode(_, t, cs) => [t] + Flatten(cs)
    case _ => [n.token]
  }

  /** The instruction token closes a scope (its keyword is registered only as a closer). */
  predicate IsCloser(reg: Registry, t: Token) {
    t.kind == Instruction && Keyword(t).Some? && Keyword(t).value !in reg.keywords
    && Keyword(t).value in reg.endwords
  }

  /** `IsCloser` is the parser's `ClosesWith`, for the token's own keyword. */
  lemma IsCloserClosesWith(reg: Registry, t: Token, kw: string)
    requires Keyword(t) == Some(kw)
    ensures IsCloser(reg, t) <==> ClosesWith(reg, t, kw)
  {
  }

  /** The tokens with every closing instruction removed. */
  function DropClosers(reg: Registry, ts: seq<Token>): seq<Token>
  {
    if ts == [] then [] else (if IsCloser(reg, ts[0]) then [] else [ts[0]]) + DropClosers(reg, ts[1..])
  }

  /** The block nodes of a node list in post-order: every block after all the blocks inside it. */
  function ClosedBlocks(reg: Registry, ns: seq<Node>): seq<Node>
  {
    if ns == [] then [] else ClosedIn(reg, ns[0]) + ClosedBlocks(reg, ns[1..])
  }

  function ClosedIn(reg: Registry, n: Node): seq<Node>
  {
    match n
    case Root(cs) => ClosedBlocks(reg, cs)
    case InstructionNode(_, t, cs) => ClosedBlocks(reg, cs) + (if OpensBlock(reg, t) then [n] else [])
    case _ => []
  }

  lemma FlattenCons(n: Node, ns: seq<Node>)
    ensures Flatten([n] + ns) == NodeTokens(n) + Flatten(ns)
  {
    assert ([n] + ns)[0] == n && ([n] + ns)[1..] == ns;
  }

  lemma ClosedBlocksCons(reg: Registry, n: Node, ns: seq<Node>)
    ensures ClosedBlocks(reg, [n] + ns) == ClosedIn(reg, n) + ClosedBlocks(reg, ns)
  {
    assert ([n] + ns)[0] == n && ([n] + ns)[1..] == ns;
  }

  lemma {:induction false} DropClosersAppend(reg: Registry, a: seq<Token>, b: seq<Token>)
    ensures DropClosers(reg, a + b) == DropClosers(reg, a) + DropClosers(reg, b)
    decreases |a|
  {
    if a == [] {
      assert a + b == b;
    } else {
      assert (a + b)[0] == a[0] && (a + b)[1..] == a[1..] + b;
      DropClosersAppend(reg, a[1..], b);
    }
  }

  /** Splits the token range `[i, k)` at `j`. */
  lemma DropClosersSplit(reg: Registry, toks: seq<Token>, i: nat, j: nat, k: nat)
    requires i <= j <= k <= |toks|
    ensures DropClosers(reg, toks[i..k]) == DropClosers(reg, toks[i..j]) + DropClosers(reg, toks[j..k])
  {
    assert toks[i..k] == toks[i..j] + toks[j..k];
    DropClosersAppend(reg, toks[i..j], toks[j..k]);
  }

  /** A scope's children end with the token that closes it, with the closing keyword it expects. */
  lemma {:induction false} ScopeEndsAtCloser(reg: Registry, id: string, toks: seq<Token>, i: nat, kw: string)
    requires i <= |toks| && ParseItems(reg, id, toks, i, Some(kw)).Ok?
    ensures var p := ParseItems(reg, id, toks, i, Some(kw)).value;
      i < p.next && ClosesWith(reg, toks[p.next - 1], kw)
    decreases |toks| - i, 1
  {
    if toks[i].kind != Instruction {
      LeafStep(reg, id, toks, i, Some(kw));
      ScopeEndsAtCloser(reg, id, toks, i + 1, kw);
    } else {
      InstructionEndsAtCloser(reg, id, toks, i, kw);
    }
  }

  lemma {:induction false} InstructionEndsAtCloser(reg: Registry, id: string, toks: seq<Token>, i: nat, kw: string)
    requires i < |toks| && toks[i].kind == Instruction
    requires ParseInstruction(reg, id, toks, i, Some(kw)).Ok?
    ensures var p := ParseInstruction(reg, id, toks, i, Some(kw)).value;
      ClosesWith(reg, toks[p.next - 1], kw)
    decreases |toks| - i, 0
  {
    var w := Keyword(toks[i]).value;
    if w in reg.keywords {
      var entry := reg.keywords[w];
      if !OpensScope(entry) {
        ScopeEndsAtCloser(reg, id, toks, i + 1, kw);
      } else {
        var inner := ParseItems(reg, id, toks, i + 1, Some(entry.endword.value)).value;
        ScopeEndsAtCloser(reg, id, toks, inner.next, kw);
      }
    }
  }

  /** A node built from `toks[i]` and the tokens up to `j`, followed by the nodes for `[j, k)`. */
  lemma DropClosersHead(reg: Registry, toks: seq<Token>, i: nat, k: nat)
    requires i < k <= |toks|
    ensures DropClosers(reg, toks[i..k])
         == (if IsCloser(reg, toks[i]) then [] else [toks[i]]) + DropClosers(reg, toks[i + 1..k])
  {
    assert toks[i..k][0] == toks[i] && toks[i..k][1..] == toks[i + 1..k];
  }

  lemma GlueTokens(reg: Registry, toks: seq<Token>, i: nat, j: nat, k: nat, n: Node, cs: seq<Node>)
    requires i < j <= k <= |toks| && !IsCloser(reg, toks[i])
    requires NodeTokens(n) == [toks[i]] + DropClosers(reg, toks[i + 1..j])
    requires Flatten(cs) == DropClosers(reg, toks[j..k])
    ensures Flatten([n] + cs) == DropClosers(reg, toks[i..k])
  {
    var a := DropClosers(reg, toks[i + 1..j]);
    var b := DropClosers(reg, toks[j..k]);
    assert Flatten([n] + cs) == [toks[i]] + a + b by {
      FlattenCons(n, cs);
    }
    assert DropClosers(reg, toks[i..k]) == [toks[i]] + (a + b) by {
      DropClosersHead(reg, toks, i, k);
      DropClosersSplit(reg, toks, i + 1, j, k);
    }
    assert [toks[i]] + a + b == [toks[i]] + (a + b);
  }

  /**
   * The tree holds every token that is not a closer, each once, in document order: closing
   * tags are the only tokens the parser consumes without building a node.
   */
  lemma {:induction false} ParsedTokens(reg: Registry, id: string, toks: seq<Token>, i: nat, scope: Option<string>)
    requires i <= |toks| && ParseItems(reg, id, toks, i, scope).Ok?
    ensures var p := ParseItems(reg, id, toks, i, scope).value;
      Flatten(p.children) == DropClosers(reg, toks[i..p.next])
    decreases |toks| - i, 1
  {
    if i == |toks| {
      return;
    }
    var t := toks[i];
    if t.kind != Instruction {
      var p := ParseItems(reg, id, toks, i, scope).value;
      var rest := ParseItems(reg, id, toks, i + 1, scope).value;
      LeafStep(reg, id, toks, i, scope);
      ParsedTokens(reg, id, toks, i + 1, scope);
      assert p.children == [LeafNode(t)] + rest.children;
      assert toks[i + 1..i + 1] == [];
      GlueTokens(reg, toks, i, i + 1, p.next, LeafNode(t), rest.children);
    } else {
      InstructionTokens(reg, id, toks, i, scope);
    }
  }

  lemma {:induction false} InstructionTokens(reg: Registry, id: string, toks: seq<Token>, i: nat, scope: Option<string>)
    requires i < |toks| && toks[i].kind == Instruction
    requires ParseInstruction(reg, id, toks, i, scope).Ok?
    ensures var p := ParseInstruction(reg, id, toks, i, scope).value;
      Flatten(p.children) == DropClosers(reg, toks[i..p.next])
    decreases |toks| - i, 0, 1
  {
    var t := toks[i];
    InstructionStep(reg, id, toks, i, scope);
    var w := Keyword(t).value;
    if w in reg.keywords && OpensScope(reg.keywords[w]) {
      BlockTokens(reg, id, toks, i, scope);
    } else if w in reg.keywords {
      var p := ParseInstruction(reg, id, toks, i, scope).value;
      var n := InstructionNode(reg.keywords[w].nodeClass, t, []);
      var rest := ParseItems(reg, id, toks, i + 1, scope).value;
      ParsedTokens(reg, id, toks, i + 1, scope);
      assert p.children == [n] + rest.children;
      assert toks[i + 1..i + 1] == [];
      GlueTokens(reg, toks, i, i + 1, p.next, n, rest.children);
    } else {
      DropClosersHead(reg, toks, i, i + 1);
      assert toks[i + 1..i + 1] == [];
    }
  }

  lemma {:induction false} BlockTokens(reg: Registry, id: string, toks: seq<Token>, i: nat, scope: Option<string>)
    requires i < |toks| && OpensBlock(reg, toks[i])
    requires ParseItems(reg, id, toks, i, scope).Ok?
    ensures var p := ParseItems(reg, id, toks, i, scope).value;
      Flatten(p.children) == DropClosers(reg, toks[i..p.next])
    decreases |toks| - i, 0, 0
  {
    var t := toks[i];
    var entry := reg.keywords[Keyword(t).value];
    OpenStep(reg, id, toks, i, scope);
    var p := ParseItems(reg, id, toks, i, scope).value;
    var inner := ParseItems(reg, id, toks, i + 1, Some(entry.endword.value)).value;
    var rest := ParseItems(reg, id, toks, inner.next, scope).value;
    var n := InstructionNode(entry.nodeClass, t, inner.children);
    ParsedTokens(reg, id, toks, i + 1, Some(entry.endword.value));
    ParsedTokens(reg, id, toks, inner.next, scope);
    assert p.children == [n] + rest.children;
    GlueTokens(reg, toks, i, inner.next, p.next, n, rest.children);
  }

  /**
   * `exit_scope` is called once on every block node and on nothing else, each block after
   * every block nested inside it and before any block that follows it.
   */
  lemma {:induction false} ExitsArePostOrder(reg: Registry, id: string, toks: seq<Token>, i: nat, scope: Option<string>)
    requires i <= |toks| && ParseItems(reg, id, toks, i, scope).Ok?
    ensures var p := ParseItems(reg, id, toks, i, scope).value;
      p.exits == ClosedBlocks(reg, p.children)
    decreases |toks| - i, 1
  {
    if i == |toks| {
      return;
    }
    var t := toks[i];
    if t.kind != Instruction {
      var p := ParseItems(reg, id, toks, i, scope).value;
      var rest := ParseItems(reg, id, toks, i + 1, scope).value;
      LeafStep(reg, id, toks, i, scope);
      ExitsArePostOrder(reg, id, toks, i + 1, scope);
      assert p.children == [LeafNode(t)] + rest.children;
      ClosedBlocksCons(reg, LeafNode(t), rest.children);
    } else {
      InstructionExits(reg, id, toks, i, scope);
    }
  }

  lemma {:induction false} InstructionExits(reg: Registry, id: string, toks: seq<Token>, i: nat, scope: Option<string>)
    requires i < |toks| && toks[i].kind == Instruction
    requires ParseInstruction(reg, id, toks, i, scope).Ok?
    ensures var p := ParseInstruction(reg, id, toks, i, scope).value;
      p.exits == ClosedBlocks(reg, p.children)
    decreases |toks| - i, 0
  {
    var p := ParseInstruction(reg, id, toks, i, scope).value;
    var t := toks[i];
    InstructionStep(reg, id, toks, i, scope);
    var w := Keyword(t).value;
    if w in reg.keywords {
      var entry := reg.keywords[w];
      if !OpensScope(entry) {
        var n := InstructionNode(entry.nodeClass, t, []);
        var rest := ParseItems(reg, id, toks, i + 1, scope).value;
        ExitsArePostOrder(reg, id, toks, i + 1, scope);
        assert p.children == [n] + rest.children;
        ClosedBlocksCons(reg, n, rest.children);
        assert ClosedIn(reg, n) == [] by { assert !OpensBlock(reg, t); }
      } else {
        var inner := ParseItems(reg, id, toks, i + 1, Some(entry.endword.value)).value;
        var rest := ParseItems(reg, id, toks, inner.next, scope).value;
        var n := InstructionNode(entry.nodeClass, t, inner.children);
        ExitsArePostOrder(reg, id, toks, i + 1, Some(entry.endword.value));
        ExitsArePostOrder(reg, id, toks, inner.next, scope);
        assert p.children == [n] + rest.children;
        ClosedBlocksCons(reg, n, rest.children);
        assert ClosedIn(reg, n) == inner.exits + [n];
      }
    }
  }

  /**
   * A parse error is raised on a token and names that token's template, or, at the end of
   * the tokens, the template being parsed; only an empty instruction tag escapes as IndexError.
   */
  lemma {:induction false} ParseErrorNamesTemplate(reg: Registry, id: string, toks: seq<Token>, i: nat, scope: Option<string>)
    requires i <= |toks| && forall k :: 0 <= k < |toks| ==> toks[k].templateId == id
    requires ParseItems(reg, id, toks, i, scope).Err?
    ensures var e := ParseItems(reg, id, toks, i, scope).error;
      e == IndexError || (e.SyntaxError? && e.templateId == id && !e.kind.UnclosedTag?)
    decreases |toks| - i, 1
  {
    if i < |toks| {
      if toks[i].kind != Instruction {
        ParseErrorNamesTemplate(reg, id, toks, i + 1, scope);
      } else {
        InstructionErrorNamesTemplate(reg, id, toks, i, scope);
      }
    }
  }

  lemma {:induction false} InstructionErrorNamesTemplate(reg: Registry, id: string, toks: seq<Token>, i: nat,
                                                         scope: Option<string>)
    requires i < |toks| && toks[i].kind == Instruction
    requires forall k :: 0 <= k < |toks| ==> toks[k].templateId == id
    requires ParseInstruction(reg, id, toks, i, scope).Err?
    ensures var e := ParseInstruction(reg, id, toks, i, scope).error;
      e == IndexError || (e.SyntaxError? && e.templateId == id && !e.kind.UnclosedTag?)
    decreases |toks| - i, 0
  {
    var t := toks[i];
    if Keyword(t).Some? && Keyword(t).value in reg.keywords {
      var entry := reg.keywords[Keyword(t).value];
      if !OpensScope(entry) {
        ParseErrorNamesTemplate(reg, id, toks, i + 1, scope);
      } else {
        var ew := Some(entry.endword.value);
        if ParseItems(reg, id, toks, i + 1, ew).Err? {
          ParseErrorNamesTemplate(reg, id, toks, i + 1, ew);
        } else {
          ParseErrorNamesTemplate(reg, id, toks, ParseItems(reg, id, toks, i + 1, ew).value.next, scope);
        }
      }
    } else if Keyword(t).Some? {
      var e := CloseScope(reg, t, Keyword(t).value, i, scope).error;
      assert !e.kind.UnclosedTag?;
    }
  }
}
