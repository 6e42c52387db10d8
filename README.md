# analyzer — a verified model of the `var` declaration recogniser

The `analyzer` library recognises one Pascal-like declaration statement such
as `var a, b: byte, m: array[1:10,5:9] of word;`. It checks the syntax and
the semantics together, and it builds a symbol table that maps each declared
name to a type descriptor. It works in four layers, all in `src/lib.rs`:

1. `tokenize` cuts the text into lexemes.
   - Runs of alphanumeric characters form one lexeme each.
   - Spaces are dropped.
   - Every other character is a lexeme of its own.
2. Two character automata classify a lexeme:
   - `is_integer`: an optional sign followed by digits;
   - `is_identifier`: a letter followed by letters or digits.
3. `analyze` runs a token-level automaton with 17 live states. It keeps:
   - a table of bound names;
   - a set of names still waiting for their type;
   - a flag and a buffer for collecting the text of an array type;
   - the pending lower bound of a range.

   It returns the table, or the first error. An error carries its kind
   (syntax or semantic), its position and its span.
4. Three pure helpers:
   - `is_integer_in_range` (a 16-bit range test on a 32-bit parse);
   - `is_simple_type`;
   - `is_keyword`.

The Dafny modules follow those layers:

| module | file | what it holds |
|---|---|---|
| `Lexemes` | `lexemes.dfy` | tokens, errors, ASCII character classes, the vocabulary, the two membership tests |
| `Classifiers` | `classifiers.dfy` | the two automata as `while` loops proved against regular-language predicates; the numeric reading of a literal and the range test |
| `Tokenizer` | `tokenizer.dfy` | `tokenize` as a `for` loop proved to return a tokenization of its input |
| `Analyzer` | `analyzer.dfy` | `analyze` as a `while` loop over the working variables, proved equal to a functional specification `Analysis` built from a one-token `Step` |
| `AnalyzerFacts` | `analyzer_facts.dfy` | what `Analysis` guarantees: where errors are reported, how a statement ends, what a successful table contains, the checks of single states |
| `Bindings` | `bindings.dfy` | which tokens each table entry comes from: the last declaration of the name, the first type after it, and the words of that type |
| `Scenarios` | `scenarios.dfy` | the library's test cases, and whole statements traced token by token |

The model keeps the behaviour of the code as written. Some of it differs from
what one might expect:

- **Letter case of names.**
  - A pending name is kept with its original spelling, and that spelling
    becomes the table key.
  - The duplicate check against the table looks up the *lower-cased* word.
  - So a pending duplicate is caught by exact text. A table duplicate is
    caught only when the stored key is in lower case: `var A: byte, A: word;`
    is accepted, and `A` ends up bound to `word`. `Scenarios.UpperCaseRedeclared`
    states this for the whole statement; `Scenarios.UpperCaseKeyDoesNotBlock`,
    `Scenarios.RedeclarationReplaces` and `Scenarios.LowerCaseKeyBlocks` state
    the single steps.
- **Text of an array type.**
  - The descriptor is the lexemes of the type written together, with one
    space added only *after* `of`: `array[2:10,10:40]of byte`.
  - The words `array` and `of` and the element type keep the case they were
    written in.
  - A simple type outside an array is stored lower-cased.
- **Empty brackets.** `[` must be followed by an integer, so `[]` is a
  syntax error.
- **Early exit.** The loop stops as soon as `Finish` is reached. Tokens after
  the first accepted `;` are never looked at.
- **No third dimension.** After the second range only `]` is accepted.
- **No negative bounds from text.** `tokenize` makes `-` and `+` tokens of
  their own, so a tokenized statement never holds a signed integer
  (`Tokenizer.TokenizedIntegersUnsigned`): `[-5:5]` is a syntax error at the
  `-`. Negative bounds, and the sign branch of `is_integer`, are reached only
  by token lists built by hand.

Each imperative routine of the source is a Dafny `method` with the same loop.
Each method is proved equal to a specification function, or to a predicate
that says outright what the result is:

- `IsInteger` and `IsIdentifier` match their regular-language predicates;
- `Tokenize` returns a tokenization;
- `Analyze` returns `Analysis(tokens)`.

The properties the library promises are proved as lemmas about those
specifications.

## Model

| member | source | states |
|---|---|---|
| Lexemes.SimpleTypesLowerCase | src/lib.rs:607-614 | `is_simple_type` matches text exactly against six lower-case names: every simple type is its own lower-case, `Byte` is not a simple type, and its lower-case is |
| Lexemes.ReservedWords | src/lib.rs:616-623 | a word is reserved exactly when it is a simple-type name or one of `var`, `array`, `of` (both directions) |
| Classifiers.IsInteger | src/lib.rs:110-166 | the Start/Uint/Digits automaton accepts exactly an optional `+`/`-` followed by one or more ASCII digits |
| Classifiers.IsIdentifier | src/lib.rs:168-213 | the Start/Chars automaton accepts exactly one letter followed by letters or digits |
| Classifiers.IntegerInRangeIff | src/lib.rs:600-605 | the range test holds exactly for a literal whose value lies in [-32768, 32767]; a literal too large for 32 bits fails it |
| Classifiers.ParseI16Succeeds | src/lib.rs:396-400 | once a word is an integer literal and passes the range test, the 16-bit parse yields its value, so the `unreachable!()` branches are unreachable |
| Tokenizer.ScanSpace | src/lib.rs:84-89 | a space pushes the pending run, which cannot be extended, as a lexeme at its start offset, and is itself dropped |
| Tokenizer.ScanPunctuation | src/lib.rs:90-96 | any other non-alphanumeric character pushes the pending run, then becomes a one-character token at its own offset |
| Tokenizer.ScanAlphanumeric | src/lib.rs:98-100 | an alphanumeric character extends the run, which stays placed at its start and unextendable to the left |
| Tokenizer.ScanEnd | src/lib.rs:103-107 | at the end of the text the pending run is pushed, and the token list is then a tokenization of the whole text |
| Tokenizer.TokenizedIntegersUnsigned | src/lib.rs:90-95 | a sign is always a one-character token, so every token of a tokenization that is an integer literal is all digits |
| Tokenizer.Tokenize | src/lib.rs:78-108 | always `Ok`. The words in order spell the text without its spaces. Every token is found at its position and is either a one-character non-space, non-alphanumeric token or a maximal alphanumeric run. Tokens do not overlap and come in increasing position |
| Analyzer.Bind | src/lib.rs:342-346 | binding the pending names adds exactly them as keys, maps each to the descriptor, and leaves every other entry unchanged |
| Analyzer.BindPending | src/lib.rs:342-344 | the loop over the pending set builds exactly `Bind` of the table |
| Analyzer.Turn | src/lib.rs:279-587 | the per-state `match` of one loop turn gives the same outcome as the specification `Dispatch`, for all 17 live states |
| Analyzer.LowerBound | src/lib.rs:390-414 | a lower bound is checked as an integer, then for its range, then parsed as `i16` and kept, as `LowerBoundStep` says |
| Analyzer.UpperBound | src/lib.rs:426-457 | an upper bound is checked as the lower one, and must exceed the kept lower bound, as `UpperBoundStep` says |
| Analyzer.Analyze | src/lib.rs:215-598 | the loop returns exactly `Analysis(tokens)`: the table once `Finish` is reached, the first rejected token's error, or the end-of-stream error |
| AnalyzerFacts.FinishIgnoresRest | src/lib.rs:249 | once a prefix of the stream reaches `Finish`, appending any tokens leaves the outcome unchanged |
| AnalyzerFacts.StepErrorAt | src/lib.rs:284-583 | every rejection of a token is reported at that token's position and spans its text |
| AnalyzerFacts.FeedErrorAt | src/lib.rs:249-591 | a failed run failed on one token, every token before it was accepted, and the error points at that token |
| AnalyzerFacts.AnalysisErrorAt | src/lib.rs:249-591 | an error result is either the end-of-stream error, exactly when every token was accepted, or the rejection of the first refused token, at its position and length |
| AnalyzerFacts.EndOfStreamAt | src/lib.rs:251-266 | the outcome of an empty stream is a syntax error at 0 with span 0. When every token is accepted and no `;` has ended the statement, the outcome is a syntax error one character past the last token, span 1 |
| AnalyzerFacts.StepStops | src/lib.rs:366-378 | a turn stops the automaton exactly when it reads `;` in `SimpleType` or `ArrayType`, and it then stops in `Finish` |
| AnalyzerFacts.FeedStopsAt | src/lib.rs:249-591 | a run that stops, stops on one token after accepting every token before it |
| AnalyzerFacts.SuccessEndsAtSemicolon | src/lib.rs:369-370 | a success is reached on a `;` read in `SimpleType` or `ArrayType`, and the table is that of the tokens up to it |
| AnalyzerFacts.NotOfWord | src/lib.rs:272-277 | no integer, one-character word or simple type lower-cases to `of`, so the only space in an array text is the one after `of` |
| AnalyzerFacts.StepKeepsInv | src/lib.rs:279-587 | every accepted turn keeps the invariant: the table renders valid descriptors, pending names are valid, and the collected text is the array type read so far |
| AnalyzerFacts.FeedKeepsInv | src/lib.rs:249-591 | every accepted run keeps that invariant |
| AnalyzerFacts.TableWellFormed | src/lib.rs:340-353 | on success nothing is pending. Every bound name is an identifier of at most 8 characters that is not reserved. Every value is the text of a valid descriptor: a lower-case simple type, or an array of one or two increasing 16-bit ranges with one space after `of`. Which descriptor belongs to which name is `Bindings.TableValues` |
| AnalyzerFacts.StepDeclares | src/lib.rs:291-326 | a turn adds to the known names, bound or pending, exactly the word read in `Definition` |
| AnalyzerFacts.FeedDeclares | src/lib.rs:249-591 | a run adds to the known names exactly the words read in `Definition` |
| AnalyzerFacts.TableKeys | src/lib.rs:341-564 | on success the table's keys are exactly the words declared in `Definition`: pending names enter the table when a simple type is read in `Type` (341-346) or an element type in `Of` (554-564) |
| AnalyzerFacts.DefinitionChecks | src/lib.rs:291-326 | a name is accepted exactly when it is a valid identifier of at most 8 characters, not reserved, not pending by exact text and not a key by lower-cased text. The checks run identifier, length, reserved, taken; only the first is a syntax error |
| AnalyzerFacts.ReservedInAnyCase | src/lib.rs:300-306 | a reserved word in any letter case is a semantic error at the token |
| AnalyzerFacts.TypeNameReserved | src/lib.rs:300-306 | in `Definition`, an identifier of at most 8 characters whose lower-case is a simple type is a semantic error at the token: no name can be spelt like a type |
| Bindings.DeclareTraced | src/lib.rs:291-326 | a name accepted in `Definition` is pending since this token, and each entry already in the table keeps its origin |
| Bindings.CollectingTraced | src/lib.rs:272-277 | inside an array type, the collected text spells the tokens from the `array` token up to the one just read, with one space after each `of`, and no token in between was read in `Definition` |
| Bindings.TypeTraced | src/lib.rs:340-355 | in `Type`, a simple type binds every pending name to the lower-cased word, with its declaration as origin. `array` starts the collected text at this token |
| Bindings.ArrayOpened | src/lib.rs:349-353 | `array` read in `Type` starts the collected text at this token, which becomes the only token read in `Type` since each pending declaration |
| Bindings.ElementTraced | src/lib.rs:554-564 | in `Of`, the element type binds every pending name to the words from the `array` token through the element type. Each of those names was declared before the `array` token |
| Bindings.TableValues | src/lib.rs:268-587 | on success, each entry of name `n` comes from the last token that declares `n` (read in `Definition`) and the first binding token after it. When that token is read in `Type` the entry is its lower-cased word. When it is read in `Of` the entry is the words from the `array` token through the element type, with one space after `of`. Between the declaration and the binding token no token is read in `Type`, except that `array` token |
| AnalyzerFacts.BoundOutOfRange | src/lib.rs:392-394 | a bound that is an integer literal outside [-32768, 32767] is a semantic error spanning the literal |
| AnalyzerFacts.LowerBoundChecks | src/lib.rs:390-414 | a lower bound is accepted exactly when it is a 16-bit literal, and its value is kept. A non-integer is a syntax error |
| AnalyzerFacts.UpperBoundChecks | src/lib.rs:426-457 | an upper bound is accepted exactly when it is a 16-bit literal above the kept lower bound. One at or below it is a semantic error |
| AnalyzerFacts.EmptyBracketsRejected | src/lib.rs:390-413 | `]` right after `[` is a syntax error |
| AnalyzerFacts.SecondRangeCloses | src/lib.rs:532-542 | after the second range only `]` is accepted, and it leads to `RangesEnd` |
| Scenarios.IntegerCases | tests/test_is_integer.rs:3-51 | `0`, `121`, `-21` are integer literals; the empty word, `+`, `-`, a space, `pdd`, `-123bba`, `-13.69` are not |
| Scenarios.IdentifierCases | tests/test_is_identifier.rs:3-66 | `k`, `pdd`, `accum`, `accum2` are identifiers; the empty word, `0`, `121`, `-21`, `+`, `-`, a space, `-123bba`, `-13.69` are not |
| Scenarios.MissingSemicolonText | src/lib.rs:78-108 | the tokens `var`@0, `a`@4, `:`@5, `byte`@7 are a tokenization of `var a: byte` |
| Scenarios.MissingSemicolonAtEnd | src/lib.rs:260-266 | `var a: byte` with no `;` fails with a syntax error at offset 11, one past `byte`, span 1 |
| Scenarios.DuplicatePending | src/lib.rs:308-316 | `var a,a: byte;` fails with a semantic error at the second `a` |
| Scenarios.UpperCaseKeyDoesNotBlock | src/lib.rs:308-310 | with `A` in the table, a new `A` is still accepted, because the lookup uses `a` |
| Scenarios.RedeclarationReplaces | src/lib.rs:342-344 | binding `A` again replaces its type |
| Scenarios.UpperCaseRedeclared | src/lib.rs:308-346 | `var A: byte, A: word;` is accepted and binds `A` to `word` |
| Scenarios.LowerCaseKeyBlocks | src/lib.rs:308-316 | with `a` in the table, `A` is refused as already taken |
| Scenarios.BoundTooLarge | src/lib.rs:390-394 | the lower bound `111112` is a semantic out-of-range error over its six characters |
| Scenarios.ReadOf | src/lib.rs:272-277 | `of` read while collecting enters the array text followed by one space |
| Scenarios.TwoDimensionalArray | src/lib.rs:272-277 | `var x: array[2:10,10:40] of byte;` binds `x` to `array[2:10,10:40]of byte` |

## Left out

- `src/main.rs` is not part of this model: it only prints a hard-coded sample.
- The `println!` dump of the table (src/lib.rs:593-595) and the `Display` implementation of errors (src/lib.rs:11-15) are output only.
- Error message wording: the model records the kind, a `Cause` tag naming the failed check, the position and the span.
- Unicode: letters, digits and lower-casing are ASCII only.
  - On ASCII text, the source's byte lengths and character offsets agree; the model does not cover the text where they differ.
- The iteration order of the source's `HashMap`/`HashSet` is not modelled. Binding the pending names in any order gives the same table, and `BindPending` is proved for whichever order it picks.
- The source's `range_left_bound` is an `i16`; here it is an `int`.
  - Only values that passed the 16-bit parse are ever stored in it (`StepKeepsInv` keeps this), so no wrap-around can occur.
- The loop of `analyze` keeps its locals. The body of its `match` is the method `Turn`, which takes and returns those locals packed into a `Context`.
- The source's `State::Error` is kept in the state type. The source never enters it: every error returns at once.
