/** Values shared by the tokenizer, the classifiers and the declaration
    validator: lexemes, positioned errors, the character classes and the
    fixed vocabulary of the `var` statement (src/lib.rs:4-76, 600-623). */
module Lexemes {

  /** A lexeme and the character offset of its first character. */
  datatype Token = Token(word: string, position: nat)

  /** The two kinds of failure; the source tells them apart only by the
      prefix of the message. */
  datatype ErrorKind = Syntax | Semantic

  /** Which check rejected the input. It stands in for the text of the
      source's message, whose exact wording is not modelled. */
  datatype Cause =
    | MissingVarKeyword          // the token stream is empty
    | MissingSemicolon           // the stream ended before a terminating `;`
    | ExpectedVar
    | InvalidIdentifier
    | IdentifierTooLong
    | ReservedWord
    | AlreadyTaken
    | ExpectedCommaOrColon
    | ExpectedTypeKeyword
    | ExpectedCommaOrSemicolon
    | ExpectedOpenBracket
    | ExpectedInteger
    | IntegerOutOfRange
    | BoundsNotIncreasing
    | ExpectedColon
    | ExpectedCommaOrCloseBracket
    | ExpectedCloseBracket
    | ExpectedOf
    | ExpectedSimpleType
    | ExpectedSemicolonOrComma

  /** A positioned error: `position` and `tokenLength` delimit the text a
      front end highlights. */
  datatype LexerError = LexerError(kind: ErrorKind, cause: Cause, position: nat, tokenLength: nat)

  datatype Result<T> = Ok(value: T) | Err(error: LexerError)

  datatype Option<T> = None | Some(value: T)

  /** The error the source reports for a token: at its position, spanning its text. */
  function At(kind: ErrorKind, cause: Cause, tok: Token): LexerError {
    LexerError(kind, cause, tok.position, |tok.word|)
  }

  // Character classes, restricted to ASCII.

  predicate IsDigit(c: char) { '0' <= c <= '9' }

  predicate IsAlpha(c: char) { 'a' <= c <= 'z' || 'A' <= c <= 'Z' }

  predicate IsAlphanumeric(c: char) { IsAlpha(c) || IsDigit(c) }

  function LowerChar(c: char): char {
    if 'A' <= c <= 'Z' then (c as int + 32) as char else c
  }

  /** ASCII lower-casing, as `to_lowercase` does on ASCII text. */
  function Lower(s: string): string {
    seq(|s|, i requires 0 <= i < |s| => LowerChar(s[i]))
  }

  // The vocabulary of the statement.

  const MaxIdentifierLength: nat := 8

  const SimpleTypes: seq<string> := ["byte", "word", "integer", "real", "char", "double"]

  const Keywords: seq<string> := ["var", "byte", "word", "integer", "real", "char", "double", "array", "of"]

  /** The linear search of `is_simple_type`. */
  predicate IsSimpleType(s: string) { s in SimpleTypes }

  /** The linear search of `is_keyword`. */
  predicate IsKeyword(s: string) { s in Keywords }

  /** The reserved words are the simple-type names and the three words of
      the statement itself, `var`, `array` and `of`, and nothing else. */
  lemma ReservedWords(s: string)
    ensures IsKeyword(s) <==> IsSimpleType(s) || s == "var" || s == "array" || s == "of"
  {
  }

  /** The search compares text exactly, and every simple-type name is in
      lower case: a type written with capitals is found only once it is
      lower-cased. */
  lemma SimpleTypesLowerCase(s: string)
    ensures IsSimpleType(s) ==> Lower(s) == s
    ensures !IsSimpleType("Byte") && IsSimpleType(Lower("Byte"))
  {
    assert Lower("byte") == "byte" && Lower("word") == "word" && Lower("integer") == "integer";
    assert Lower("real") == "real" && Lower("char") == "char" && Lower("double") == "double";
    assert Lower("Byte") == "byte";
  }
}
