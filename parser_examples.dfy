/**
 * The parser on a small registry: `if` and `for` open blocks closed by `endif` and `endfor`,
 * `include` is a single instruction.
 */
module ParserExamples {
  import opened Wrappers
  import opened Strings
  import opened Tokens
  import opened Parsing

  const Reg := Registry(
    map["if" := Entry("IfNode", Some("endif")), "for" := Entry("ForNode", Some("endfor")),
        "include" := Entry("IncludeNode", None)],
    {"endif", "endfor"})

  function Instr(w: string, line: nat): Token {
    Token(Instruction, w, "t", line)
  }

  lemma KeywordOf(w: string, line: nat)
    requires w != [] && NoSpace(w)
    ensures Keyword(Instr(w, line)) == Some(w)
  {
    assert Instr(w, line).text == [] + w + [];
    FirstWordIsKeyword(Instr(w, line), [], w, []);
  }

  const A := Token(Text, "a", "t", 2)
  const IfBlock := InstructionNode("IfNode", Instr("if", 2), [TextNode(A)])
  const ForBlock := InstructionNode("ForNode", Instr("for", 1), [IfBlock])

  /** `{% for %}{% if %}a{% endif %}{% endfor %}` as tokens. */
  const Nested := [Instr("for", 1), Instr("if", 2), A, Instr("endif", 3), Instr("endfor", 4)]

  /** What the registry holds. */
  lemma RegistryFacts()
    ensures "if" in Reg.keywords && Reg.keywords["if"] == Entry("IfNode", Some("endif"))
    ensures "for" in Reg.keywords && Reg.keywords["for"] == Entry("ForNode", Some("endfor"))
    ensures "include" in Reg.keywords && Reg.keywords["include"] == Entry("IncludeNode", None)
    ensures "endif" !in Reg.keywords && "endfor" !in Reg.keywords && "bogus" !in Reg.keywords
    ensures "endif" in Reg.endwords && "endfor" in Reg.endwords && "bogus" !in Reg.endwords
  {
  }

  lemma NestedInner()
    ensures ParseItems(Reg, "t", Nested, 2, Some("endif")) == Ok(Parsed([TextNode(A)], 4, []))
  {
    RegistryFacts();
    KeywordOf("endif", 3);
    LeafStep(Reg, "t", Nested, 2, Some("endif"));
    InstructionStep(Reg, "t", Nested, 3, Some("endif"));
    assert [TextNode(A)] + [] == [TextNode(A)];
  }

  lemma NestedOuter()
    ensures ParseItems(Reg, "t", Nested, 1, Some("endfor")) == Ok(Parsed([IfBlock], 5, [IfBlock]))
  {
    RegistryFacts();
    KeywordOf("if", 2);
    KeywordOf("endfor", 4);
    OpenStep(Reg, "t", Nested, 1, Some("endfor"));
    NestedInner();
    InstructionStep(Reg, "t", Nested, 4, Some("endfor"));
    assert [IfBlock] + [] == [IfBlock] && [] + [IfBlock] + [] == [IfBlock];
  }

  /** Blocks nest, and the inner block is closed before the outer one. */
  lemma NestedBlocks()
    ensures ParseTree(Reg, "t", Nested) == Ok(Compiled(Root([ForBlock]), [IfBlock, ForBlock]))
  {
    RegistryFacts();
    KeywordOf("for", 1);
    OpenStep(Reg, "t", Nested, 0, None);
    NestedOuter();
    assert ParseItems(Reg, "t", Nested, 5, None) == Ok(Parsed([], 5, []));
    assert [ForBlock] + [] == [ForBlock] && [IfBlock] + [ForBlock] + [] == [IfBlock, ForBlock];
  }

  /** A single instruction opens no scope and needs no closer. */
  lemma SingleInstruction()
    ensures ParseTree(Reg, "t", [Instr("include", 1)])
      == Ok(Compiled(Root([InstructionNode("IncludeNode", Instr("include", 1), [])]), []))
  {
    RegistryFacts();
    KeywordOf("include", 1);
    InstructionStep(Reg, "t", [Instr("include", 1)], 0, None);
    var n := InstructionNode("IncludeNode", Instr("include", 1), []);
    assert [n] + [] == [n];
    assert ParseItems(Reg, "t", [Instr("include", 1)], 1, None) == Ok(Parsed([], 1, []));
  }

  /** A closer for a scope other than the innermost one is reported on its own line. */
  lemma MismatchedCloser()
    ensures ParseTree(Reg, "t", [Instr("for", 1), Instr("endif", 2)])
      == Err(SyntaxError(MismatchedTag("endif", "endfor"), "t", Some(2)))
  {
    var toks := [Instr("for", 1), Instr("endif", 2)];
    RegistryFacts();
    KeywordOf("for", 1);
    KeywordOf("endif", 2);
    OpenStep(Reg, "t", toks, 0, None);
    InstructionStep(Reg, "t", toks, 1, Some("endfor"));
  }

  /** A closer with no scope open. */
  lemma CloserAtRoot()
    ensures ParseTree(Reg, "t", [Instr("endif", 7)])
      == Err(SyntaxError(UnexpectedTag("endif"), "t", Some(7)))
  {
    RegistryFacts();
    KeywordOf("endif", 7);
    InstructionStep(Reg, "t", [Instr("endif", 7)], 0, None);
  }

  /** The end of the template with a block still open names the closer it lacks, and no line. */
  lemma UnterminatedBlock()
    ensures ParseTree(Reg, "t", [Instr("if", 1)])
      == Err(SyntaxError(UnexpectedEnd("endif"), "t", None))
  {
    RegistryFacts();
    KeywordOf("if", 1);
    OpenStep(Reg, "t", [Instr("if", 1)], 0, None);
  }

  /** A keyword in neither registry set. */
  lemma UnknownKeyword()
    ensures ParseTree(Reg, "t", [Instr("bogus", 3)])
      == Err(SyntaxError(UnrecognisedInstruction("bogus"), "t", Some(3)))
  {
    RegistryFacts();
    KeywordOf("bogus", 3);
    InstructionStep(Reg, "t", [Instr("bogus", 3)], 0, None);
  }

  /** An empty instruction tag has no keyword: Python's `split()[0]` raises IndexError. */
  lemma EmptyInstruction()
    ensures ParseTree(Reg, "t", [Instr("", 1)]) == Err(IndexError)
  {
  }
}
