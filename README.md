# A verified model of the ibis template compiler

`ibis/compiler.py` is the front end of the ibis template engine. It turns template source
text into a tree of nodes in two stages:

- The **lexer** (`Lexer.tokenize`) makes one pass over the text and cuts it into TEXT, PRINT
  (`{{ … }}`), EPRINT (`{{{ … }}}`) and INSTRUCTION (`{% … %}`) tokens.
  - It drops comments (`{# … #}`).
  - It strips the whitespace around a tag's body.
  - It counts lines one character at a time.
  - It fails when a tag is never closed, naming the line on which the tag opened.
- The **parser** (`Parser.parse`) walks the tokens with a stack of open nodes and a parallel
  stack of the closing keywords they expect.
  - It looks each instruction's keyword up in the registry of the `nodes` module.
  - It opens a scope for a block instruction and closes it when the matching closer arrives,
    calling `exit_scope` on the node as it closes.
  - It raises a syntax error on a closer with no scope open, on a closer for a scope other
    than the innermost, on an unknown keyword, and at the end of input with a scope still open.

Each stage is modelled twice.

- The **reference meaning** is a set of functions:
  - `Lexing.LexFrom`, built from one scanning step `Lexing.ScanAt`;
  - `Parsing.ParseItems`, a recursive descent with one call per open scope.
- The **imperative model** follows the source's own shape:
  - the class `Lexing.Lexer` keeps the source's fields `tokens` and `index`, and its field
    `line_number` as `line`; it has one method per `read_*` method, with its while-loops;
  - the class `Parsing.Parser` has the stack loop of `parse`.

Each method is proved to compute exactly its reference function. The lexer's class
invariant `Valid()` states the line-counting invariant: `line` is one more than the number
of newlines before `index`. The properties the source promises are then proved about the
reference functions:

- delimiter priority;
- tag contents, and the line a token reports;
- the unclosed-tag error;
- no empty TEXT token;
- which tokens the tree holds, and how blocks nest;
- the order of `exit_scope` calls;
- which error each failing case raises.

Modules:

- `Wrappers`: `Option` and `Result`.
- `Strings`: Python's `str.isspace`, `strip()`, `split()`, `startswith` at an index, and line
  counting.
- `Tokens`: the delimiter constants, `Token`, `Token.keyword`, and the errors.
- `Lexing` and `LexerProperties`: the lexer and what is proved about it.
- `Parsing`, `ParserProperties` and `ParserExamples`: the parser, what is proved about it,
  and worked examples on a registry with `if`/`endif`, `for`/`endfor` and a single `include`.
- `ParserNesting`: a depth scan over the tokens, independent of the parser's stack, that
  finds the closer matching each block opener, and the tree read with it. A successful parse
  returns that tree. The end-of-template error arises only for blocks it cannot close, and a
  template with such a block never parses.
- `LexerText` and `CompiledText`: the template's literal text, read character by character
  (every character outside the tags, in order), and the proof that the TEXT tokens of the
  lexed template, and of the compiled tree, hold exactly that text.

The registry (`nodes.instruction_keywords` and `nodes.instruction_endwords`) is a parameter.
It maps a keyword to the name of its node class and an optional closing keyword. Nodes are
a datatype. An `exit_scope` call is recorded as the closed node appended to a log
(`Compiled.exits`), so that the order in which scopes close can be stated.

The text of a TEXT token always has at least one character. `read_text` is entered only
where no opener starts (`ibis/compiler.py:49-59`). Its loop therefore always advances at
least once before it can stop (`ibis/compiler.py:132-141`). Two adjacent tags therefore
produce no TEXT token between them: `LexerProperties.LexedTokensWellFormed` proves that no
TEXT token is empty.

`Lexer.match` is the predicate `Lexing.Lexer.Match`.

## Model

| member | source | states |
|---|---|---|
| `Strings.StartsWithAt` | ibis/compiler.py:62-65 | `startswith(target, i)` holds exactly when the target fits at `i` and agrees with the text character by character |
| `Strings.IsSpace` | ibis/compiler.py:35 | the whitespace of `split()` and `strip()`: exactly the characters for which CPython's `str.isspace()` holds |
| `Strings.Strip` | ibis/compiler.py:90 | `strip()` returns a string with no whitespace at either end, empty exactly when the input is all whitespace |
| `Strings.StripSplit` | ibis/compiler.py:105 | the input is the stripped text with only whitespace before and after it |
| `Strings.StripUnique` | ibis/compiler.py:120 | text surrounded by whitespace strips to exactly that text whenever it has no whitespace at its ends |
| `Strings.StripIdempotent` | ibis/compiler.py:90 | stripping twice is stripping once |
| `Strings.Split` | ibis/compiler.py:35 | `split()` returns non-empty words that contain no whitespace, and returns no word exactly when the text is all whitespace |
| `Strings.FirstWord` | ibis/compiler.py:35 | the first word of a text is missing exactly when the text is all whitespace, and is otherwise non-empty with no whitespace |
| `Strings.FirstWordIsSplitHead` | ibis/compiler.py:35 | the first word is the head of `split()`, and missing exactly when `split()` returns no word |
| `Strings.LineAtStep` | ibis/compiler.py:67-70 | consuming one character moves to the next line exactly when that character is a newline |
| `Strings.LineAtSkip` | ibis/compiler.py:72-79 | jumping over characters that contain no newline leaves the line unchanged |
| `Strings.LineAtMonotone` | ibis/compiler.py:46-70 | the line of a later index is never smaller |
| `Tokens.DelimitersHaveNoNewline` | ibis/compiler.py:5-13 | no opener or closer contains a newline |
| `Tokens.Keyword` | ibis/compiler.py:33-35 | `keyword` fails (the IndexError) exactly when the text is all whitespace, and otherwise is a non-empty word containing no whitespace |
| `Tokens.KeywordIsFirstWord` | ibis/compiler.py:33-35 | the keyword is the text's first word: only whitespace before it, whitespace or the end after it |
| `Tokens.FirstWordIsKeyword` | ibis/compiler.py:33-35 | conversely, a word preceded by whitespace and followed by whitespace or the end is the keyword |
| `Tokens.KeywordIsSplitHead` | ibis/compiler.py:33-35 | `keyword` is `split()[0]` as written: nothing when `split()` returns no word, otherwise its first word |
| `Lexing.TagAt` | ibis/compiler.py:50-57 | the opener found at an index really starts there; no tag is found exactly when no opener starts there; `{{{` is always read as an escaped print |
| `Lexing.Find` | ibis/compiler.py:88-94 | the search for a closer returns the first index at or after the start where the closer begins, or nothing if it never begins |
| `Lexing.TextEnd` | ibis/compiler.py:129-141 | a TEXT token's text runs up to the first later index where some opener starts, or to the end |
| `Lexing.ScanTag` | ibis/compiler.py:72-127 | scanning a tag that is closed moves strictly forward and stays within the text |
| `Lexing.ScanText` | ibis/compiler.py:129-143 | literal text yields one TEXT token holding the unstripped slice from the start index up to the next opener or the end, with the line it begins on |
| `Lexing.ScanAt` | ibis/compiler.py:48-59 | every scanning step that succeeds moves strictly forward |
| `Lexing.LexFrom` | ibis/compiler.py:48-60 | the reference meaning of `tokenize` from an index: the tokens of each scanning step in order, or the first step's error; `Lexer.Tokenize` is proved to compute it |
| `Lexing.Lex` | ibis/compiler.py:48-60 | the reference meaning of `tokenize` on a whole template, lexed from index 0 |
| `Lexing.Lexer.Match` | ibis/compiler.py:62-65 | `match` holds exactly when the target occurs in the template at the cursor |
| `Lexing.Lexer.constructor` | ibis/compiler.py:41-46 | a new lexer has no tokens, index 0 and line 1, and satisfies the line invariant |
| `Lexing.Lexer.Advance` | ibis/compiler.py:67-70 | `advance` moves the index by one and counts a newline, keeping the line invariant |
| `Lexing.Lexer.SkipOpener` | ibis/compiler.py:84-85 | jumping over an opener moves the index by the opener's length and leaves the line unchanged |
| `Lexing.Lexer.SkipCloser` | ibis/compiler.py:92 | jumping over a closer moves the index by the closer's length and leaves the line unchanged |
| `Lexing.Lexer.SeekCloser` | ibis/compiler.py:88-94 | the loop of a `read_*_tag` method stops at the closer's first occurrence, or at the end of the text when there is none |
| `Lexing.Lexer.ReadCommentTag` | ibis/compiler.py:72-82 | `read_comment_tag` leaves the lexer exactly where the comment step says, appending nothing, or raises its unclosed-tag error having appended nothing, with the index at the end of the template |
| `Lexing.Lexer.ReadEPrintTag` | ibis/compiler.py:84-97 | `read_eprint_tag` appends exactly the EPRINT token of the tag step and moves past `}}}`, or raises its unclosed-tag error having appended nothing, with the index at the end of the template |
| `Lexing.Lexer.ReadPrintTag` | ibis/compiler.py:99-112 | `read_print_tag` appends exactly the PRINT token of the tag step and moves past `}}`, or raises its unclosed-tag error having appended nothing, with the index at the end of the template |
| `Lexing.Lexer.ReadInstructionTag` | ibis/compiler.py:114-127 | `read_instruction_tag` appends exactly the INSTRUCTION token of the tag step and moves past `%}`, or raises its unclosed-tag error having appended nothing, with the index at the end of the template |
| `Lexing.Lexer.ReadText` | ibis/compiler.py:129-143 | `read_text` appends exactly the TEXT token of the text step and stops where it ends |
| `Lexing.Lexer.Tokenize` | ibis/compiler.py:48-60 | `tokenize` returns the tokens already collected followed by the reference lexing of the rest of the text, or the first error; it leaves the index at the end of the text, and on success the returned list is the lexer's own `tokens` |
| `LexerProperties.OpenerLine` | ibis/compiler.py:84-87 | the line recorded after the opener is the line of the opener itself |
| `LexerProperties.EPrintBeforePrint` | ibis/compiler.py:50-57 | input starting with `{{{` yields an EPRINT token, never a PRINT one |
| `LexerProperties.EPrintExample` | ibis/compiler.py:52-53 | `{{{x}}}` lexes to a single EPRINT token with text `x` on line 1 |
| `LexerProperties.ClosedTag` | ibis/compiler.py:84-93 | a closed tag ends at the first occurrence of its closer, the scan resumes just after it, and its token holds the stripped body and the opener's line; a comment emits nothing |
| `LexerProperties.ClosedTagEmits` | ibis/compiler.py:84-97 | with the first closer after the opener at `j`, the tag step resumes at `j` plus the closer's length and emits the stripped body between opener and `j` on the opener's line |
| `LexerProperties.UnclosedTagLine` | ibis/compiler.py:80-82 | an unclosed tag is reported with the template id and the line of the opener, and its closer occurs nowhere after the opener |
| `LexerProperties.LexErrorIsUnclosedTag` | ibis/compiler.py:72-127 | the lexer's only failure is an unclosed tag, reported with the template id and a line within the template |
| `LexerProperties.LexedTokensWellFormed` | ibis/compiler.py:84-143 | every token carries the template id and a line within the template; TEXT tokens are never empty; tag tokens are stripped |
| `LexerProperties.LexedLinesAscend` | ibis/compiler.py:48-60 | the tokens come out in non-decreasing line order |
| `LexerProperties.PlainText` | ibis/compiler.py:129-143 | text in which no opener occurs lexes to one TEXT token holding all of it, on line 1 |
| `LexerText.TagClose` | ibis/compiler.py:72-127 | the literal text resumes after a tag just past its first closer, which lies beyond the opener and within the template |
| `LexerText.Literal` | ibis/compiler.py:48-60 | the literal text from an index, read one character at a time, is never longer than what remains of the template |
| `LexerText.LexedText` | ibis/compiler.py:48-143 | the TEXT tokens of a successful lex from any index, concatenated in order, are exactly the literal text from that index: every character outside the tags, none inside them |
| `LexerText.LexedTemplateText` | ibis/compiler.py:48-60 | the TEXT tokens of a lexed template, concatenated, are exactly its literal text |
| `LexerText.TextStepText` | ibis/compiler.py:129-143 | a text step's TEXT token holds the stretch up to the next opener, which is also the start of the literal text |
| `LexerText.TagStepNoText` | ibis/compiler.py:72-127 | a tag step emits no TEXT token |
| `CompiledText.DropClosersKeepsText` | ibis/compiler.py:182-185 | the closing instructions the tree omits hold no literal text |
| `CompiledText.CompiledTemplateText` | ibis/compiler.py:17-18 | the TEXT nodes of a compiled template's tree, read in document order, hold exactly the template's literal text |
| `Parsing.ParseItems` | ibis/compiler.py:158-196 | parsing a scope consumes tokens forward and within bounds; the root scope consumes every token |
| `Parsing.ParseInstruction` | ibis/compiler.py:165-189 | an instruction that parses consumes at least its own token and stays within bounds |
| `Parsing.OpensScope` | ibis/compiler.py:169 | `if endword:`: an instruction opens a scope exactly when its registered endword is present and non-empty |
| `Parsing.CloseScope` | ibis/compiler.py:172-189 | an unregistered keyword succeeds exactly when it is a registered closer equal to the innermost expected one, and then consumes only its own token; otherwise it raises, on the token's template id and line, UnexpectedTag when no scope is open, MismatchedTag naming the expected closer when another scope is innermost, and UnrecognisedInstruction when the keyword is in neither registry set |
| `Parsing.ParseTree` | ibis/compiler.py:158-196 | the reference meaning of the loop of `parse`: the root holding the nodes of the root scope, with the `exit_scope` log, or the first error; `Parser.ParseTokens` is proved to compute it |
| `Parsing.Parser.constructor` | ibis/compiler.py:150-152 | the parser keeps the template text and id |
| `Parsing.Parser.Parse` | ibis/compiler.py:154-158 | `parse` lexes the template, fails with the lexer's error when lexing fails, and otherwise returns the parse of the tokens |
| `Parsing.Parser.ParseTokens` | ibis/compiler.py:155-196 | the stack loop returns exactly what the recursive descent returns: the same root and the same `exit_scope` order, or the same error |
| `Parsing.Parser.Consume` | ibis/compiler.py:159-189 | one iteration of the loop keeps `len(stack) == len(expecting) + 1` and leaves the outcome of the parse unchanged, or raises the error the parse raises; a TEXT, PRINT or EPRINT token is appended to the innermost open node and nothing else changes |
| `Parsing.Parser.ConsumeInstruction` | ibis/compiler.py:165-189 | an empty keyword raises IndexError; a registered keyword appends its node to the innermost open node, and a block with a truthy endword is pushed with its endword expected; the expected closer logs `exit_scope` on the innermost node and pops it and its endword; a closer with nothing open raises UnexpectedTag, a closer for another scope MismatchedTag naming `expecting[-1]`, any other keyword UnrecognisedInstruction, each on the token's line; each step leaves the outcome of the parse unchanged or raises the error the parse raises |
| `Parsing.Parser.Finish` | ibis/compiler.py:191-196 | after the last token a scope still open raises the end-of-template error naming `expecting[-1]` with the template id and no line; otherwise the root is returned with the `exit_scope` log |
| `Parsing.Compile` | ibis/compiler.py:17-18 | `compile` is `Parser(template_string, template_id).parse()` |
| `Parsing.CompileSpec` | ibis/compiler.py:17-18 | the reference meaning of `compile`: lex, then parse, failing with the lexer's error first |
| `ParserProperties.ScopeEndsAtCloser` | ibis/compiler.py:177-185 | a scope that parses ends with a token whose keyword is the closer it expected and is registered only as a closer |
| `ParserProperties.ParsedTokens` | ibis/compiler.py:159-185 | the nodes of a parsed scope hold every token it consumed except the closers, each once, in document order |
| `ParserProperties.ExitsArePostOrder` | ibis/compiler.py:182-185 | `exit_scope` is called once on each block node and on nothing else, inner blocks before the block around them |
| `ParserProperties.IsCloserClosesWith` | ibis/compiler.py:172-185 | the closing instructions the tree omits are exactly the tokens whose keyword the parser treats as a closer: registered as an endword and not as a keyword |
| `ParserProperties.ParseErrorNamesTemplate` | ibis/compiler.py:173-194 | a parse error is either the IndexError of an empty instruction tag's keyword or a syntax error that names the template, and never an unclosed tag |
| `ParserNesting.MatchingCloser` | ibis/compiler.py:169-185 | the depth scan for the closer that ends a scope returns an index at or after its start and within the tokens, or nothing |
| `ParserNesting.MatchingCloserShift` | ibis/compiler.py:169-185 | once the scan has found a scope's closer, the scan one block deeper carries on just after that closer |
| `ParserNesting.MatchingCloserIsCloser` | ibis/compiler.py:172 | the scan stops only at a token whose keyword is registered only as a closer |
| `ParserNesting.ScopeCloser` | ibis/compiler.py:169-185 | a scope that parses ends at the closer the depth scan matches to it |
| `ParserNesting.ScopeNodes` | ibis/compiler.py:159-185 | the nodes a scope parses to are the nodes the depth scan reads from its tokens: every block holds exactly the nodes of the tokens between its opener and its matching closer |
| `ParserNesting.BlocksClosed` | ibis/compiler.py:169-185 | every block opener inside a scope that parses has a matching closer |
| `ParserNesting.UnexpectedEndIsUnclosed` | ibis/compiler.py:191-194 | the end-of-template error carries the template id and no line, and names the closer of the scope itself or of a block opened in it that has no matching closer |
| `ParserNesting.ParseTreeResult` | ibis/compiler.py:154-196 | a successful parse returns the root holding exactly the nodes the depth scan reads from all the tokens (so blocks nest as their matching closers say), every non-closing token in document order, its blocks exited innermost first, and every block closed |
| `ParserNesting.UnclosedBlockAtEnd` | ibis/compiler.py:191-194 | the end-of-template error arises only when some block has no matching closer, names that block's closing keyword and no line; and a template with such a block never parses |
| `ParserNesting.CompileResult` | ibis/compiler.py:17-18 | a compiled template is the tree the depth scan reads from the lexed tokens, holding every lexed non-closing token, its blocks exited innermost first; a failure is the IndexError of an empty instruction tag or a syntax error that names the template, and is an unclosed tag exactly when lexing failed |
| `ParserExamples.NestedBlocks` | ibis/compiler.py:165-185 | `for`, `if`, text, `endif`, `endfor` nest as written, and `if` is exited before `for` |
| `ParserExamples.SingleInstruction` | ibis/compiler.py:165-171 | an instruction without a closing keyword is a childless node and opens no scope |
| `ParserExamples.MismatchedCloser` | ibis/compiler.py:177-181 | `endif` inside `for` is rejected on its own line, naming `endfor` as expected |
| `ParserExamples.CloserAtRoot` | ibis/compiler.py:173-176 | `endif` with no scope open is rejected on its own line |
| `ParserExamples.UnterminatedBlock` | ibis/compiler.py:191-194 | an `if` never closed is rejected at the end with `endif` expected and no line |
| `ParserExamples.UnknownKeyword` | ibis/compiler.py:186-189 | a keyword in neither registry set is rejected on its own line |
| `ParserExamples.EmptyInstruction` | ibis/compiler.py:165 | an empty instruction tag has no keyword and raises IndexError |

## Left out

- The `nodes` module is not part of this model: the node classes, the contents of the
  registry and the bodies of `exit_scope`. The registry is a parameter. Nodes are a datatype
  that records the node class's name. An `exit_scope` call is an entry in the `exits` log.
  An `exit_scope` body that raises is therefore not modelled, and neither is a node class
  whose constructor raises: building a node always succeeds, which the proofs about errors
  (`ParserProperties.ParseErrorNamesTemplate`, `ParserNesting.CompileResult`) rely on.
- The `errors` module and the message texts are not modelled. An error is a datatype
  holding the error kind, the keyword(s) a message names, the template id and the optional
  line.
- `Token.__str__` is debug display only and is not modelled.
- `Parsing.Parser.ParseTokens`: the source appends a block node to its parent when the block
  opens and keeps filling it through the shared reference. The model has no aliasing: it
  appends the finished node when the block closes, which yields the same tree.
- `Parsing.Parser.ParseTokens`: the source calls `exit_scope` on the node while it is still
  being built and the call could change it. The log records the node as it is when it
  closes, and `exit_scope` is assumed to change nothing.
- The `exits` log is returned only with a successful parse. The calls already made before
  a syntax error are not reported.
- `Lexing.Lexer.SeekCloser`, `SkipOpener` and `SkipCloser` are factored out of the bodies
  of the `read_*_tag` methods.
- `Parsing.Parser.Parse`: the loop of `parse` is factored out into `ParseTokens`, and
  its body into `Consume` and `ConsumeInstruction`.
- Python exceptions are results. A `TemplateSyntaxError` is `Err(SyntaxError(…))`. The
  IndexError of `keyword` on an empty instruction tag is `Err(IndexError)`.
- Strings are Dafny strings, whose characters exclude the lone surrogates a Python string
  can hold; a template containing one is not modelled. Whitespace is the set of characters
  for which CPython's `str.isspace()` holds.
- Strings.Split: only the shape of `split()`'s words is specified (non-empty, no whitespace,
  none exactly for all-whitespace text), not that they are the text's maximal runs in order.
  The core reads only `split()[0]`: `Tokens.KeywordIsSplitHead` ties `keyword` to it, and
  `Tokens.KeywordIsFirstWord` and `Tokens.FirstWordIsKeyword` characterise it in full.
- The converse of the parse's error cases, that every template whose keywords are all
  registered and whose closers all match by depth parses, is not proved.
