/**
 * The lexer: a single left-to-right scan of the template that cuts it into TEXT, PRINT,
 * EPRINT and INSTRUCTION tokens. The functions give the meaning of one scanning step and of
 * the whole scan; the class `Lexer` is the imperative scanner, proved to agree with them.
 */
module Lexing {
  import opened Wrappers
  import opened Strings
  import opened Tokens

  /** Some opening delimiter starts at index `i`. */
  predicate AnyOpenerAt(s: string, i: nat) {
    StartsWithAt(s, CommentStart, i) || StartsWithAt(s, EPrintStart, i)
    || StartsWithAt(s, PrintStart, i) || StartsWithAt(s, InstructionStart, i)
  }

  /**
   * The tag that starts at index `i`, tried in the order comment, escaped print, print,
   * instruction; `{{{` is tried before its prefix `{{`.
   */
  function TagAt(s: string, i: nat): (r: Option<TagKind>)
    ensures r.Some? ==> StartsWithAt(s, Opener(r.value), i)
    ensures r.None? <==> !AnyOpenerAt(s, i)
    ensures StartsWithAt(s, EPrintStart, i) ==> r == Some(EPrintTag)
  {
    if StartsWithAt(s, CommentStart, i) then
      assert s[i + 1] == '#';
      Some(CommentTag)
    else if StartsWithAt(s, EPrintStart, i) then Some(EPrintTag)
    else if StartsWithAt(s, PrintStart, i) then Some(PrintTag)
    else if StartsWithAt(s, InstructionStart, i) then Some(InstructionTag)
    else None
  }

  /** The first occurrence of `target` starting at or after `i`, as the scanning loops find it. */
  function Find(s: string, target: string, i: nat): (r: Option<nat>)
    requires i <= |s|
    ensures r.Some? ==> i <= r.value < |s| && StartsWithAt(s, target, r.value)
    ensures forall k :: i <= k < (if r.Some? then r.value else |s|) ==> !StartsWithAt(s, target, k)
    decreases |s| - i
  {
    if i == |s| then None
    else if StartsWithAt(s, target, i) then Some(i)
    else Find(s, target, i + 1)
  }

  /** Skipping positions where `target` does not start leaves the search result unchanged. */
  lemma {:induction false} FindPast(s: string, target: string, i: nat, j: nat)
    requires i <= j <= |s|
    requires forall k :: i <= k < j ==> !StartsWithAt(s, target, k)
    ensures Find(s, target, i) == Find(s, target, j)
    decreases j - i
  {
    if i < j {
      FindPast(s, target, i + 1, j);
    }
  }

  /** The first index at or after `i` where an opening delimiter starts, or `|s|`. */
  function TextEnd(s: string, i: nat): (j: nat)
    requires i <= |s|
    ensures i <= j <= |s|
    ensures forall k :: i <= k < j ==> !AnyOpenerAt(s, k)
    ensures j < |s| ==> AnyOpenerAt(s, j)
    decreases |s| - i
  {
    if i == |s| || AnyOpenerAt(s, i) then i else TextEnd(s, i + 1)
  }

  /** What one scanning step emits (no token or one) and where the scan resumes. */
  datatype Step = Step(emitted: seq<Token>, next: nat)

  /**
   * Scanning a tag opened at `i`: the body runs from just past the opener to the first
   * following closer; a comment emits nothing, any other tag one token with the stripped body
   * and the line of the opener. Without a closer the tag is unclosed, reported at that line.
   */
  function ScanTag(s: string, id: string, i: nat, tag: TagKind): (r: Result<Step, Error>)
    requires StartsWithAt(s, Opener(tag), i)
    ensures r.Ok? ==> i < r.value.next <= |s|
  {
    var start := i + |Opener(tag)|;
    match Find(s, Closer(tag), start)
    case None => Err(SyntaxError(UnclosedTag(tag), id, Some(LineAt(s, start))))
    case Some(j) =>
      var emitted := if tag == CommentTag then []
                     else [Token(TokenKindOf(tag), Strip(s[start..j]), id, LineAt(s, start))];
      Ok(Step(emitted, j + |Closer(tag)|))
  }

  /** Scanning literal text at `i`, where no opener starts: one TEXT token up to the next opener. */
  function ScanText(s: string, id: string, i: nat): (r: Step)
    requires i < |s| && !AnyOpenerAt(s, i)
    ensures i < r.next <= |s| && r.next == TextEnd(s, i)
    ensures r.emitted == [Token(Text, s[i..r.next], id, LineAt(s, i))]
  {
    var j := TextEnd(s, i);
    Step([Token(Text, s[i..j], id, LineAt(s, i))], j)
  }

  /** One step of the scan at index `i`. */
  function ScanAt(s: string, id: string, i: nat): (r: Result<Step, Error>)
    requires i < |s|
    ensures r.Ok? ==> i < r.value.next <= |s|
  {
    match TagAt(s, i)
    case Some(tag) => ScanTag(s, id, i, tag)
    case None => Ok(ScanText(s, id, i))
  }

  /** The tokens of `s` from index `i` on, or the first error. */
  function LexFrom(s: string, id: string, i: nat): Result<seq<Token>, Error>
    requires i <= |s|
    decreases |s| - i
  {
    if i == |s| then Ok([])
    else match ScanAt(s, id, i)
      case Err(e) => Err(e)
      case Ok(st) =>
        match LexFrom(s, id, st.next)
        case Err(e) => Err(e)
        case Ok(rest) => Ok(st.emitted + rest)
  }

  /** `Lexer(s, id).tokenize()`. */
  function Lex(s: string, id: string): Result<seq<Token>, Error>
  {
    LexFrom(s, id, 0)
  }

  function Prepend(done: seq<Token>, r: Result<seq<Token>, Error>): Result<seq<Token>, Error>
  {
    match r
    case Ok(ts) => Ok(done + ts)
    case Err(e) => Err(e)
  }

  lemma PrependTwice(done: seq<Token>, more: seq<Token>, r: Result<seq<Token>, Error>)
    ensures Prepend(done + more, r) == Prepend(done, Prepend(more, r))
  {
    if r.Ok? {
      assert done + more + r.value == done + (more + r.value);
    }
  }

  /** The scanner of `ibis/compiler.py`, with its cursor, line counter and token list. */
  class Lexer {
    const source: string
    const templateId: string
    var tokens: seq<Token>
    var index: nat
    var line: nat

    /** The cursor lies in the template and the line counter is the line the cursor is on. */
    ghost predicate Valid()
      reads this
    {
      index <= |source| && line == LineAt(source, index)
    }

    constructor (source: string, templateId: string)
      ensures Valid()
      ensures this.source == source && this.templateId == templateId
      ensures tokens == [] && index == 0 && line == 1
    {
      this.source := source;
      this.templateId := templateId;
      tokens := [];
      index := 0;
      line := 1;
    }

    /**
     * After a scanning step from `before`, the lexer is where `step` says; or it reports the
     * step's error, having searched to the end of the source without adding a token.
     */
    ghost predicate Took(step: Result<Step, Error>, before: seq<Token>, err: Option<Error>)
      reads this
    {
      && (step.Ok? <==> err.None?)
      && (step.Err? ==> err == Some(step.error))
      && (step.Ok? ==> Valid() && index == step.value.next && tokens == before + step.value.emitted)
      && (step.Err? ==> Valid() && index == |source| && tokens == before)
    }

    /** `match`: the target occurs in the template at the cursor. */
    predicate Match(target: string)
      reads this
      ensures Match(target) ==> index + |target| <= |source| && source[index..index + |target|] == target
      ensures !Match(target) && index + |target| <= |source| ==> exists k :: 0 <= k < |target| && source[index + k] != target[k]
    {
      StartsWithAt(source, target, index)
    }

    /** Consumes one character, counting a newline. */
    method Advance()
      requires Valid() && index < |source|
      modifies this
      ensures Valid() && tokens == old(tokens)
      ensures index == old(index) + 1
      ensures line == old(line) + (if source[old(index)] == '\n' then 1 else 0)
    {
      LineAtStep(source, index);
      if source[index] == '\n' {
        line := line + 1;
      }
      index := index + 1;
    }

    /** Skips the opener of `tag` at the cursor; the line does not change. */
    method SkipOpener(tag: TagKind)
      requires Valid() && Match(Opener(tag))
      modifies this
      ensures Valid() && tokens == old(tokens) && line == old(line)
      ensures index == old(index) + |Opener(tag)|
    {
      DelimitersHaveNoNewline(tag);
      LineAtSkip(source, index, |Opener(tag)|);
      index := index + |Opener(tag)|;
    }

    /** Skips the closer of `tag` at the cursor; the line does not change. */
    method SkipCloser(tag: TagKind)
      requires Valid() && Match(Closer(tag))
      modifies this
      ensures Valid() && tokens == old(tokens) && line == old(line)
      ensures index == old(index) + |Closer(tag)|
    {
      DelimitersHaveNoNewline(tag);
      LineAtSkip(source, index, |Closer(tag)|);
      index := index + |Closer(tag)|;
    }

    /**
     * The scanning loop shared by the four tag readers: advances the cursor, a character at a
     * time, to the first occurrence of `closer`, or to the end of the template.
     */
    method SeekCloser(closer: string) returns (found: bool)
      requires Valid()
      modifies this
      ensures Valid() && tokens == old(tokens)
      ensures found == Find(source, closer, old(index)).Some?
      ensures found ==> index == Find(source, closer, old(index)).value && Match(closer)
      ensures !found ==> index == |source|
    {
      while index < |source|
        invariant Valid() && old(index) <= index
        invariant forall k :: old(index) <= k < index ==> !StartsWithAt(source, closer, k)
        invariant tokens == old(tokens)
        decreases |source| - index
      {
        if Match(closer) {
          FindPast(source, closer, old(index), index);
          return true;
        }
        Advance();
      }
      FindPast(source, closer, old(index), index);
      return false;
    }

    /** `read_comment_tag`: skips a comment and emits nothing. */
    method ReadCommentTag() returns (err: Option<Error>)
      requires Valid() && Match(CommentStart)
      modifies this
      ensures Took(ScanTag(source, templateId, old(index), CommentTag), old(tokens), err)
    {
      SkipOpener(CommentTag);
      var startLine := line;
      var found := SeekCloser(CommentEnd);
      if found {
        SkipCloser(CommentTag);
        return None;
      }
      return Some(SyntaxError(UnclosedTag(CommentTag), templateId, Some(startLine)));
    }

    /** `read_eprint_tag`: emits one EPrint token holding the stripped body. */
    method ReadEPrintTag() returns (err: Option<Error>)
      requires Valid() && Match(EPrintStart)
      modifies this
      ensures Took(ScanTag(source, templateId, old(index), EPrintTag), old(tokens), err)
    {
      SkipOpener(EPrintTag);
      var startIndex := index;
      var startLine := line;
      var found := SeekCloser(EPrintEnd);
      if found {
        var text := Strip(source[startIndex..index]);
        tokens := tokens + [Token(EPrint, text, templateId, startLine)];
        SkipCloser(EPrintTag);
        return None;
      }
      return Some(SyntaxError(UnclosedTag(EPrintTag), templateId, Some(startLine)));
    }

    /** `read_print_tag`: emits one Print token holding the stripped body. */
    method ReadPrintTag() returns (err: Option<Error>)
      requires Valid() && Match(PrintStart)
      modifies this
      ensures Took(ScanTag(source, templateId, old(index), PrintTag), old(tokens), err)
    {
      SkipOpener(PrintTag);
      var startIndex := index;
      var startLine := line;
      var found := SeekCloser(PrintEnd);
      if found {
        var text := Strip(source[startIndex..index]);
        tokens := tokens + [Token(Print, text, templateId, startLine)];
        SkipCloser(PrintTag);
        return None;
      }
      return Some(SyntaxError(UnclosedTag(PrintTag), templateId, Some(startLine)));
    }

    /** `read_instruction_tag`: emits one Instruction token holding the stripped body. */
    method ReadInstructionTag() returns (err: Option<Error>)
      requires Valid() && Match(InstructionStart)
      modifies this
      ensures Took(ScanTag(source, templateId, old(index), InstructionTag), old(tokens), err)
    {
      SkipOpener(InstructionTag);
      var startIndex := index;
      var startLine := line;
      var found := SeekCloser(InstructionEnd);
      if found {
        var text := Strip(source[startIndex..index]);
        tokens := tokens + [Token(Instruction, text, templateId, startLine)];
        SkipCloser(InstructionTag);
        return None;
      }
      return Some(SyntaxError(UnclosedTag(InstructionTag), templateId, Some(startLine)));
    }

    /** `read_text`: literal text up to the next opener or the end; only entered where no opener starts. */
    method ReadText()
      requires Valid() && index < |source| && !AnyOpenerAt(source, index)
      modifies this
      ensures Valid()
      ensures var st := ScanText(source, templateId, old(index));
        index == st.next && tokens == old(tokens) + st.emitted
    {
      var startIndex := index;
      var startLine := line;
      while index < |source|
        invariant Valid() && startIndex <= index
        invariant TextEnd(source, index) == TextEnd(source, startIndex)
        invariant tokens == old(tokens) && startIndex == old(index) && startLine == LineAt(source, startIndex)
        decreases |source| - index
      {
        if Match(CommentStart) {
          break;
        } else if Match(EPrintStart) {
          break;
        } else if Match(PrintStart) {
          break;
        } else if Match(InstructionStart) {
          break;
        }
        Advance();
      }
      var text := source[startIndex..index];
      tokens := tokens + [Token(Text, text, templateId, startLine)];
    }

    /** `tokenize`: scans from the cursor to the end of the template. */
    method Tokenize() returns (r: Result<seq<Token>, Error>)
      requires Valid()
      modifies this
      ensures r == Prepend(old(tokens), LexFrom(source, templateId, old(index)))
      ensures Valid() && index == |source|
      ensures r.Ok? ==> tokens == r.value
    {
      while index < |source|
        invariant Valid()
        invariant Prepend(tokens, LexFrom(source, templateId, index))
               == Prepend(old(tokens), LexFrom(source, templateId, old(index)))
        decreases |source| - index
      {
        ghost var before := tokens;
        ghost var step := ScanAt(source, templateId, index);
        var err: Option<Error> := None;
        if Match(CommentStart) {
          err := ReadCommentTag();
        } else if Match(EPrintStart) {
          err := ReadEPrintTag();
        } else if Match(PrintStart) {
          err := ReadPrintTag();
        } else if Match(InstructionStart) {
          err := ReadInstructionTag();
        } else {
          ReadText();
        }
        if err.Some? {
          return Err(err.value);
        }
        PrependTwice(before, step.value.emitted, LexFrom(source, templateId, index));
      }
      assert tokens + [] == tokens;
      return Ok(tokens);
    }
  }
}
