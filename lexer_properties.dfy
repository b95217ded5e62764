/** What the lexer promises about the tokens it produces and the errors it raises. */
module LexerProperties {
  import opened Wrappers
  import opened Strings
  import opened Tokens
  import opened Lexing

  /** The line of a tag's body is the line of its opener: delimiters hold no newline. */
  lemma OpenerLine(s: string, i: nat, tag: TagKind)
    requires StartsWithAt(s, Opener(tag), i)
    ensures LineAt(s, i + |Opener(tag)|) == LineAt(s, i)
  {
    DelimitersHaveNoNewline(tag);
    forall k | i <= k < i + |Opener(tag)| ensures s[k] != '\n' {
      assert s[k] == Opener(tag)[k - i];
    }
    LineAtSkip(s, i, |Opener(tag)|);
  }

  /** At an index where `{{{` starts, the lexer reads an escaped print, never a print. */
  lemma EPrintBeforePrint(s: string, id: string, i: nat)
    requires i < |s| && StartsWithAt(s, EPrintStart, i)
    ensures ScanAt(s, id, i).Ok? ==>
      |ScanAt(s, id, i).value.emitted| == 1 && ScanAt(s, id, i).value.emitted[0].kind == EPrint
  {
  }

  /** `{{{x}}}` is one escaped-print token with text `x` on line 1. */
  lemma EPrintExample(id: string)
    ensures Lex("{{{x}}}", id) == Ok([Token(EPrint, "x", id, 1)])
  {
    var s := "{{{x}}}";
    assert StartsWithAt(s, EPrintStart, 0);
    assert TagAt(s, 0) == Some(EPrintTag);
    assert s[3..6][0] == 'x';
    assert !StartsWithAt(s, EPrintEnd, 3);
    assert StartsWithAt(s, EPrintEnd, 4);
    assert Find(s, EPrintEnd, 3) == Some(4);
    ScanTagClosed(s, id, 0, EPrintTag, 4);
    assert Strip(s[3..4]) == "x" by {
      StripUnique(s[3..4], [], "x", []);
    }
    assert LineAt(s, 3) == 1 by {
      OpenerLine(s, 0, EPrintTag);
      assert s[..0] == [];
    }
    assert ScanAt(s, id, 0) == Ok(Step([Token(EPrint, "x", id, 1)], 7));
    assert LexFrom(s, id, 7) == Ok([]);
    assert [Token(EPrint, "x", id, 1)] + [] == [Token(EPrint, "x", id, 1)];
  }

  /**
   * `st` is the step of a closed tag at `i`: its body runs from just after the opener to the
   * first following closer, the scan resumes just after that closer, and the token (none for
   * a comment) holds the stripped body and the line of the opener.
   */
  ghost predicate ClosedStep(s: string, id: string, i: nat, tag: TagKind, st: Step) {
    var start := i + |Opener(tag)|;
    var end := st.next - |Closer(tag)|;
    && start <= end
    && StartsWithAt(s, Closer(tag), end)
    && NoCloserIn(s, tag, start, end)
    && st.emitted == if tag == CommentTag then []
                     else [Token(TokenKindOf(tag), Strip(s[start..end]), id, LineAt(s, i))]
  }

  /** No closer of `tag` starts at an index from `start` up to, but excluding, `end`. */
  ghost predicate NoCloserIn(s: string, tag: TagKind, start: nat, end: int) {
    forall k :: start <= k < end ==> !StartsWithAt(s, Closer(tag), k)
  }

  /** A closed tag at `i` scans to a `ClosedStep`. */
  lemma ClosedTag(s: string, id: string, i: nat, tag: TagKind)
    requires StartsWithAt(s, Opener(tag), i)
    requires ScanTag(s, id, i, tag).Ok?
    ensures ClosedStep(s, id, i, tag, ScanTag(s, id, i, tag).value)
  {
    var j := Find(s, Closer(tag), i + |Opener(tag)|).value;
    ClosedTagEmits(s, id, i, tag, j);
    ClosedStepAt(s, id, i, tag, j, ScanTag(s, id, i, tag).value);
  }

  /** A step resuming after the first closer at `j` and emitting the stripped body is closed. */
  lemma ClosedStepAt(s: string, id: string, i: nat, tag: TagKind, j: nat, st: Step)
    requires i + |Opener(tag)| <= j && StartsWithAt(s, Closer(tag), j)
    requires NoCloserIn(s, tag, i + |Opener(tag)|, j)
    requires st.next == j + |Closer(tag)|
    requires st.emitted == if tag == CommentTag then []
      else [Token(TokenKindOf(tag), Strip(s[i + |Opener(tag)|..j]), id, LineAt(s, i))]
    ensures ClosedStep(s, id, i, tag, st)
  {
    assert st.next - |Closer(tag)| == j;
  }

  /** The step `ScanTag` takes for a tag whose first closer after the opener is at `j`. */
  lemma ClosedTagEmits(s: string, id: string, i: nat, tag: TagKind, j: nat)
    requires StartsWithAt(s, Opener(tag), i)
    requires Find(s, Closer(tag), i + |Opener(tag)|) == Some(j)
    ensures ScanTag(s, id, i, tag).Ok?
    ensures ScanTag(s, id, i, tag).value.next == j + |Closer(tag)|
    ensures ScanTag(s, id, i, tag).value.emitted
      == if tag == CommentTag then []
         else [Token(TokenKindOf(tag), Strip(s[i + |Opener(tag)|..j]), id, LineAt(s, i))]
  {
    ScanTagClosed(s, id, i, tag, j);
    OpenerLine(s, i, tag);
  }

  /** Unfolds `ScanTag` for a tag whose first closer after the opener is at `j`. */
  lemma ScanTagClosed(s: string, id: string, i: nat, tag: TagKind, j: nat)
    requires StartsWithAt(s, Opener(tag), i)
    requires Find(s, Closer(tag), i + |Opener(tag)|) == Some(j)
    ensures var start := i + |Opener(tag)|;
      ScanTag(s, id, i, tag)
      == Ok(Step(if tag == CommentTag then []
                 else [Token(TokenKindOf(tag), Strip(s[start..j]), id, LineAt(s, start))],
                 j + |Closer(tag)|))
  {
  }

  /**
   * A tag at `i` that is never closed fails with an unclosed-tag error carrying the template
   * id and the line of the opener, and no closer occurs anywhere after the opener.
   */
  lemma UnclosedTagLine(s: string, id: string, i: nat, tag: TagKind)
    requires StartsWithAt(s, Opener(tag), i)
    requires ScanTag(s, id, i, tag).Err?
    ensures ScanTag(s, id, i, tag).error == SyntaxError(UnclosedTag(tag), id, Some(LineAt(s, i)))
    ensures forall k :: i + |Opener(tag)| <= k < |s| ==> !StartsWithAt(s, Closer(tag), k)
  {
    OpenerLine(s, i, tag);
  }

  /** The lexer's only failure is an unclosed tag, reported with this template's id and a line. */
  lemma {:induction false} LexErrorIsUnclosedTag(s: string, id: string, i: nat)
    requires i <= |s|
    requires LexFrom(s, id, i).Err?
    ensures var e := LexFrom(s, id, i).error;
      e.SyntaxError? && e.kind.UnclosedTag? && e.templateId == id && e.line.Some?
      && LineAt(s, i) <= e.line.value <= LineAt(s, |s|)
    decreases |s| - i
  {
    var st := ScanAt(s, id, i);
    match TagAt(s, i)
    case None =>
      LexErrorIsUnclosedTag(s, id, st.value.next);
      LineAtMonotone(s, i, st.value.next);
    case Some(tag) =>
      if st.Err? {
        UnclosedTagLine(s, id, i, tag);
        LineAtMonotone(s, i, |s|);
      } else {
        LexErrorIsUnclosedTag(s, id, st.value.next);
        LineAtMonotone(s, i, st.value.next);
      }
  }

  /** The facts every token of one step satisfies. */
  ghost predicate GoodToken(s: string, id: string, lo: nat, t: Token)
    requires lo <= |s|
  {
    && t.templateId == id
    && LineAt(s, lo) <= t.line <= LineAt(s, |s|)
    && (t.kind == Text ==> t.text != [])
    && (t.kind != Text ==> Stripped(t.text))
  }

  lemma GoodTokenLower(s: string, id: string, lo: nat, hi: nat, t: Token)
    requires lo <= hi <= |s| && GoodToken(s, id, hi, t)
    ensures GoodToken(s, id, lo, t)
  {
    LineAtMonotone(s, lo, hi);
  }

  /**
   * Every token the lexer produces carries the template id and a line within the template;
   * a TEXT token is never empty (it is only read where no opener starts); the text of a
   * print, escaped-print or instruction token is stripped.
   */
  lemma {:induction false} LexedTokensWellFormed(s: string, id: string, i: nat)
    requires i <= |s|
    requires LexFrom(s, id, i).Ok?
    ensures forall t :: t in LexFrom(s, id, i).value ==> GoodToken(s, id, i, t)
    decreases |s| - i
  {
    if i < |s| {
      var st := ScanAt(s, id, i).value;
      LexedTokensWellFormed(s, id, st.next);
      LineAtMonotone(s, i, |s|);
      forall t | t in LexFrom(s, id, st.next).value ensures GoodToken(s, id, i, t) {
        GoodTokenLower(s, id, i, st.next, t);
      }
      match TagAt(s, i)
      case None =>
        LineAtMonotone(s, i, |s|);
      case Some(tag) =>
        ClosedTag(s, id, i, tag);
    }
  }

  /** One scanning step emits at most one token, on the line where the step starts. */
  lemma StepLine(s: string, id: string, i: nat)
    requires i < |s| && ScanAt(s, id, i).Ok?
    ensures var e := ScanAt(s, id, i).value.emitted;
      |e| <= 1 && forall t :: t in e ==> t.line == LineAt(s, i)
  {
    match TagAt(s, i)
    case None =>
    case Some(tag) =>
      ClosedTag(s, id, i, tag);
  }

  predicate LinesAscend(ts: seq<Token>) {
    forall a, b :: 0 <= a < b < |ts| ==> ts[a].line <= ts[b].line
  }

  lemma AscendCons(e: seq<Token>, rest: seq<Token>, line: nat)
    requires |e| <= 1 && (forall t :: t in e ==> t.line <= line)
    requires (forall t :: t in rest ==> line <= t.line) && LinesAscend(rest)
    ensures LinesAscend(e + rest)
  {
    var ts := e + rest;
    forall a, b | 0 <= a < b < |ts| ensures ts[a].line <= ts[b].line {
      if a < |e| {
        assert ts[a] in e && ts[b] == rest[b - |e|] && rest[b - |e|] in rest;
      } else {
        assert ts[a] == rest[a - |e|] && ts[b] == rest[b - |e|];
      }
    }
  }

  /** Tokens come out in line order. */
  lemma {:induction false} LexedLinesAscend(s: string, id: string, i: nat)
    requires i <= |s|
    requires LexFrom(s, id, i).Ok?
    ensures LinesAscend(LexFrom(s, id, i).value)
    decreases |s| - i
  {
    if i < |s| {
      var st := ScanAt(s, id, i).value;
      var rest := LexFrom(s, id, st.next).value;
      LexedLinesAscend(s, id, st.next);
      LexedTokensWellFormed(s, id, st.next);
      StepLine(s, id, i);
      LineAtMonotone(s, i, st.next);
      AscendCons(st.emitted, rest, LineAt(s, st.next));
    }
  }

  /** A template in which no opener occurs lexes to a single TEXT token holding all of it. */
  lemma PlainText(s: string, id: string)
    requires s != []
    requires forall k :: 0 <= k < |s| ==> !AnyOpenerAt(s, k)
    ensures Lex(s, id) == Ok([Token(Text, s, id, 1)])
  {
    assert TextEnd(s, 0) == |s|;
    assert TagAt(s, 0).None?;
    assert s[0..|s|] == s;
    assert s[..0] == [];
    assert LineAt(s, 0) == 1;
    assert ScanAt(s, id, 0) == Ok(Step([Token(Text, s, id, 1)], |s|));
    assert LexFrom(s, id, |s|) == Ok([]);
    assert [Token(Text, s, id, 1)] + [] == [Token(Text, s, id, 1)];
  }
}
