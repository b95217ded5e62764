/** The literal text of a template survives compilation: the tree's TEXT nodes hold exactly it. */
module CompiledText {
  import opened Wrappers
  import opened Tokens
  import opened Lexing
  import opened Parsing
  import opened ParserProperties
  import opened LexerText
  import ParserNesting

  /** Removing the closing instructions removes no text. */
  lemma {:induction false} DropClosersKeepsText(reg: Registry, ts: seq<Token>)
    ensures TextsOf(DropClosers(reg, ts)) == TextsOf(ts)
    decreases |ts|
  {
    if ts != [] {
      var kept := if IsCloser(reg, ts[0]) then [] else [ts[0]];
      DropClosersKeepsText(reg, ts[1..]);
      TextsOfAppend(kept, DropClosers(reg, ts[1..]));
      assert kept == [] || kept == [ts[0]];
      if kept != [] {
        assert kept[1..] == [];
      }
    }
  }

  /**
   * The TEXT tokens of a compiled template's tree, read in document order, are exactly the
   * template's literal text: the characters outside its tags, in order.
   */
  lemma CompiledTemplateText(reg: Registry, source: string, id: string)
    requires CompileSpec(reg, source, id).Ok?
    ensures TextsOf(Flatten(CompileSpec(reg, source, id).value.root.children)) == Literal(source, 0)
  {
    ParserNesting.CompileResult(reg, source, id);
    DropClosersKeepsText(reg, Lex(source, id).value);
    LexedTemplateText(source, id);
  }
}
