/**
 * The literal text of a template. Read character by character, the template's literal text is
 * every character outside the tags, in order, where a tag runs from its opener through the
 * first following closer. The TEXT tokens of a successful lex hold exactly that text.
 */
module LexerText {
  import opened Wrappers
  import opened Strings
  import opened Tokens
  import opened Lexing

  /** The texts of the TEXT tokens, concatenated in order. */
  function TextsOf(ts: seq<Token>): string
  {
    if ts == [] then [] else (if ts[0].kind == Text then ts[0].text else []) + TextsOf(ts[1..])
  }

  lemma {:induction false} TextsOfAppend(a: seq<Token>, b: seq<Token>)
    ensures TextsOf(a + b) == TextsOf(a) + TextsOf(b)
    decreases |a|
  {
    if a == [] {
      assert a + b == b;
    } else {
      var head := if a[0].kind == Text then a[0].text else [];
      TextsOfAppend(a[1..], b);
      assert (a + b)[0] == a[0] && (a + b)[1..] == a[1..] + b;
      assert TextsOf(a + b) == head + (TextsOf(a[1..]) + TextsOf(b));
    }
  }

  /** Where the literal text resumes after `tag`, opened at `i`: just past its first closer, if any. */
  function TagClose(s: string, i: nat, tag: TagKind): (r: Option<nat>)
    requires StartsWithAt(s, Opener(tag), i)
    ensures r.Some? ==> i < r.value <= |s|
  {
    match Find(s, Closer(tag), i + |Opener(tag)|)
    case None => None
    case Some(j) => Some(j + |Closer(tag)|)
  }

  /**
   * The literal text of `s` from index `i`, one character at a time: a character where no
   * opener starts is copied, and at an opener the whole tag, through the first following
   * closer, is skipped. An opener that is never closed ends the literal text there.
   */
  function Literal(s: string, i: nat): (r: string)
    requires i <= |s|
    ensures |r| <= |s| - i
    decreases |s| - i
  {
    if i == |s| then []
    else match TagAt(s, i)
      case None => [s[i]] + Literal(s, i + 1)
      case Some(tag) =>
        match TagClose(s, i, tag)
        case None => []
        case Some(n) => Literal(s, n)
  }

  /** Where no opener starts, the literal text begins with that character. */
  lemma LiteralChar(s: string, i: nat)
    requires i < |s| && TagAt(s, i).None?
    ensures Literal(s, i) == [s[i]] + Literal(s, i + 1)
  {
  }

  lemma ConsSlice(s: string, i: nat, e: nat, rest: string)
    requires i < e <= |s|
    ensures [s[i]] + (s[i + 1..e] + rest) == s[i..e] + rest
  {
    assert s[i..e] == [s[i]] + s[i + 1..e];
  }

  /** Over a stretch where no opener starts, the literal text is the stretch itself. */
  lemma {:induction false} LiteralPlain(s: string, i: nat, e: nat)
    requires i <= e <= |s|
    requires forall k :: i <= k < e ==> !AnyOpenerAt(s, k)
    ensures Literal(s, i) == s[i..e] + Literal(s, e)
    decreases e - i
  {
    if i < e {
      LiteralPlain(s, i + 1, e);
      LiteralChar(s, i);
      ConsSlice(s, i, e, Literal(s, e));
    }
  }

  /** A tag step emits no TEXT token. */
  lemma TagStepNoText(s: string, id: string, i: nat)
    requires i < |s| && TagAt(s, i).Some? && ScanAt(s, id, i).Ok?
    ensures TextsOf(ScanAt(s, id, i).value.emitted) == []
  {
    assert forall t :: t in ScanAt(s, id, i).value.emitted ==> t.kind != Text;
  }

  /** A closed tag's scanning step resumes where the literal text resumes. */
  lemma TagStepResumes(s: string, id: string, i: nat, tag: TagKind)
    requires StartsWithAt(s, Opener(tag), i) && ScanTag(s, id, i, tag).Ok?
    ensures TagClose(s, i, tag) == Some(ScanTag(s, id, i, tag).value.next)
  {
  }

  /** At a tag closed before `n`, the literal text resumes at `n`. */
  lemma LiteralSkipsTag(s: string, i: nat, tag: TagKind, n: nat)
    requires i < |s| && TagAt(s, i) == Some(tag) && TagClose(s, i, tag) == Some(n)
    ensures Literal(s, i) == Literal(s, n)
  {
  }

  /** A text step emits the stretch up to the next opener, which is also where the literal text goes. */
  lemma TextStepText(s: string, id: string, i: nat)
    requires i < |s| && TagAt(s, i).None?
    ensures var st := ScanAt(s, id, i).value;
      && TextsOf(st.emitted) == s[i..st.next]
      && Literal(s, i) == s[i..st.next] + Literal(s, st.next)
  {
    LiteralPlain(s, i, TextEnd(s, i));
  }

  /**
   * The TEXT tokens of a successful lex, concatenated in order, are exactly the template's
   * literal text: nothing outside the tags is lost, reordered or duplicated, and nothing
   * inside a tag leaks into a TEXT token.
   */
  lemma {:induction false} LexedText(s: string, id: string, i: nat)
    requires i <= |s| && LexFrom(s, id, i).Ok?
    ensures TextsOf(LexFrom(s, id, i).value) == Literal(s, i)
    decreases |s| - i
  {
    if i < |s| {
      var st := ScanAt(s, id, i).value;
      LexedText(s, id, st.next);
      TextsOfAppend(st.emitted, LexFrom(s, id, st.next).value);
      if TagAt(s, i).Some? {
        var tag := TagAt(s, i).value;
        TagStepNoText(s, id, i);
        TagStepResumes(s, id, i, tag);
        LiteralSkipsTag(s, i, tag, st.next);
      } else {
        TextStepText(s, id, i);
      }
    }
  }

  /** A template that lexes: the text of its TEXT tokens is its literal text. */
  lemma LexedTemplateText(s: string, id: string)
    requires Lex(s, id).Ok?
    ensures TextsOf(Lex(s, id).value) == Literal(s, 0)
  {
    LexedText(s, id, 0);
  }
}
