/** Delimiters, tokens and the errors the compiler raises. */
module Tokens {
  import opened Wrappers
  import opened Strings

  const CommentStart := "{#"
  const CommentEnd := "#}"
  const PrintStart := "{{"
  const PrintEnd := "}}"
  const EPrintStart := "{{{"
  const EPrintEnd := "}}}"
  const InstructionStart := "{%"
  const InstructionEnd := "%}"

  /** The four kinds of delimited tag. */
  datatype TagKind = CommentTag | EPrintTag | PrintTag | InstructionTag

  function Opener(tag: TagKind): string
  {
    match tag
    case CommentTag => CommentStart
    case EPrintTag => EPrintStart
    case PrintTag => PrintStart
    case InstructionTag => InstructionStart
  }

  function Closer(tag: TagKind): string
  {
    match tag
    case CommentTag => CommentEnd
    case EPrintTag => EPrintEnd
    case PrintTag => PrintEnd
    case InstructionTag => InstructionEnd
  }

  /** No delimiter spans a line break, so jumping over one never changes the line. */
  lemma DelimitersHaveNoNewline(tag: TagKind)
    ensures forall k :: 0 <= k < |Opener(tag)| ==> Opener(tag)[k] != '\n'
    ensures forall k :: 0 <= k < |Closer(tag)| ==> Closer(tag)[k] != '\n'
  {
  }

  datatype TokenKind = Text | Print | EPrint | Instruction

  /** The kind of token a tag produces; a comment produces none. */
  function TokenKindOf(tag: TagKind): TokenKind
    requires tag != CommentTag
  {
    match tag
    case EPrintTag => EPrint
    case PrintTag => Print
    case InstructionTag => Instruction
  }

  /** A token: its kind, its text, the template it comes from and the line its content starts on. */
  datatype Token = Token(kind: TokenKind, text: string, templateId: string, line: nat)

  /**
   * `Token.keyword`: the first whitespace-separated word of the text. Python's
   * `text.split()[0]` raises IndexError when there is no word; that is `None` here.
   */
  function Keyword(t: Token): (r: Option<string>)
    ensures r.None? <==> AllSpace(t.text)
    ensures r.Some? ==> r.value != [] && NoSpace(r.value)
  {
    FirstWord(t.text, 0)
  }

  /** `keyword` is `text.split()[0]`, and fails exactly when `split()` returns no word. */
  lemma KeywordIsSplitHead(t: Token)
    ensures Keyword(t) == if Split(t.text) == [] then None else Some(Split(t.text)[0])
  {
    FirstWordIsSplitHead(t.text);
  }

  /** The keyword is the text's first word: only whitespace before it, whitespace or nothing after it. */
  lemma KeywordIsFirstWord(t: Token) returns (lead: string, rest: string)
    requires Keyword(t).Some?
    ensures t.text == lead + Keyword(t).value + rest
    ensures AllSpace(lead)
    ensures rest == [] || IsSpace(rest[0])
  {
    var s := t.text;
    var a := SkipSpace(s, 0);
    var b := SkipWord(s, a);
    lead, rest := s[..a], s[b..];
    FirstWordSkips(s, 0);
    assert Keyword(t).value == s[a..b];
    assert s == s[..a] + s[a..b] + s[b..];
  }

  /** Conversely, a word preceded by whitespace and followed by whitespace or nothing is the keyword. */
  lemma FirstWordIsKeyword(t: Token, lead: string, w: string, rest: string)
    requires t.text == lead + w + rest
    requires AllSpace(lead) && w != [] && NoSpace(w)
    requires rest == [] || IsSpace(rest[0])
    ensures Keyword(t) == Some(w)
  {
    var s := t.text;
    assert forall k :: 0 <= k < |lead| ==> s[k] == lead[k];
    assert forall k :: 0 <= k < |w| ==> s[|lead| + k] == w[k];
    assert rest != [] ==> s[|lead| + |w|] == rest[0];
    FirstWordSkips(s, 0);
    var a := SkipSpace(s, 0);
    assert a == |lead| by {
      assert !IsSpace(s[|lead|]);
    }
    var b := SkipWord(s, a);
    assert b == |lead| + |w| by {
      assert b >= |lead| + |w|;
    }
    assert s[a..b] == w;
  }

  /** What went wrong while compiling, as the `errors` module would report it. */
  datatype ErrorKind =
    | UnclosedTag(tag: TagKind)                           // end of input inside a tag
    | UnexpectedTag(keyword: string)                      // a closing keyword with no scope open
    | MismatchedTag(keyword: string, expected: string)    // a closing keyword for another scope
    | UnrecognisedInstruction(keyword: string)            // a keyword in neither registry set
    | UnexpectedEnd(expected: string)                     // end of input with a scope still open

  datatype Error =
    | SyntaxError(kind: ErrorKind, templateId: string, line: Option<nat>)   // TemplateSyntaxError
    | IndexError                                                             // `keyword` of an empty instruction tag
}
