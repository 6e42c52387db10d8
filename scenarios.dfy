/** Concrete inputs and what the model does with them: the cases of
    tests/test_is_integer.rs and tests/test_is_identifier.rs, and complete
    `var` statements given as token lists (for the first, `MissingSemicolonText`
    shows that the list is a tokenization of the statement's text). */
module Scenarios {
  import opened Lexemes
  import opened Classifiers
  import opened Analyzer
  import Tokenizer

  /** The accepted and rejected strings of tests/test_is_integer.rs. */
  lemma IntegerCases()
    ensures IsIntegerLiteral("0") && IsIntegerLiteral("121") && IsIntegerLiteral("-21")
    ensures !IsIntegerLiteral("") && !IsIntegerLiteral("+") && !IsIntegerLiteral("-") && !IsIntegerLiteral(" ")
    ensures !IsIntegerLiteral("pdd") && !IsIntegerLiteral("-123bba") && !IsIntegerLiteral("-13.69")
  {
    assert !IsDigit("+"[0]) && !IsDigit("-"[0]) && !IsDigit(" "[0]) && !IsDigit("pdd"[0]);
    assert !AllDigits("-123bba"[1..]) by { assert "-123bba"[1..][3] == 'b'; }
    assert !AllDigits("-13.69"[1..]) by { assert "-13.69"[1..][2] == '.'; }
    assert AllDigits("-21"[1..]) by { assert "-21"[1..] == "21"; }
  }

  /** The accepted and rejected strings of tests/test_is_identifier.rs. */
  lemma IdentifierCases()
    ensures IsIdentifierText("k") && IsIdentifierText("pdd") && IsIdentifierText("accum") && IsIdentifierText("accum2")
    ensures !IsIdentifierText("") && !IsIdentifierText("0") && !IsIdentifierText("121") && !IsIdentifierText("-21")
    ensures !IsIdentifierText("+") && !IsIdentifierText("-") && !IsIdentifierText(" ")
    ensures !IsIdentifierText("-123bba") && !IsIdentifierText("-13.69")
  {
  }

  /** Feeding one accepted token. */
  lemma FeedSkip(c: Context, ts: seq<Token>, i: nat, next: Context)
    requires i < |ts| && !c.state.Terminal() && Step(c, ts[i]) == Ok(next)
    ensures Feed(c, ts[i..]) == Feed(next, ts[i + 1..])
  {
    assert ts[i..][0] == ts[i] && ts[i..][1..] == ts[i + 1..];
  }

  /** `var` opens the statement. */
  lemma FeedVar(ts: seq<Token>, i: nat)
    requires i < |ts| && ts[i].word == "var"
    ensures Feed(Initial, ts[i..]) == Feed(Initial.(state := Definition), ts[i + 1..])
  {
    assert Lower("var") == "var";
    FeedSkip(Initial, ts, i, Initial.(state := Definition));
  }

  /** A first name is declared in a fresh statement. */
  lemma FeedName(ts: seq<Token>, i: nat, name: string)
    requires i < |ts| && ts[i].word == name
    requires IsIdentifierText(name) && |name| <= MaxIdentifierLength && !IsKeyword(Lower(name))
    ensures Feed(Initial.(state := Definition), ts[i..])
         == Feed(Initial.(state := Identifier, pending := {name}), ts[i + 1..])
  {
    assert Initial.pending + {name} == {name};
    FeedSkip(Initial.(state := Definition), ts, i, Initial.(state := Identifier, pending := {name}));
  }

  /** `:` after the names asks for their type. */
  lemma FeedColon(c: Context, ts: seq<Token>, i: nat)
    requires c.state == Identifier && !c.collecting && i < |ts| && ts[i].word == ":"
    ensures Feed(c, ts[i..]) == Feed(c.(state := Type), ts[i + 1..])
  {
    FeedSkip(c, ts, i, c.(state := Type));
  }

  /** `,` after a name asks for one more. */
  lemma FeedComma(c: Context, ts: seq<Token>, i: nat)
    requires c.state == Identifier && !c.collecting && i < |ts| && ts[i].word == ","
    ensures Feed(c, ts[i..]) == Feed(c.(state := Definition), ts[i + 1..])
  {
    FeedSkip(c, ts, i, c.(state := Definition));
  }

  /** `,` after a simple type starts the next group of names. */
  lemma FeedNext(c: Context, ts: seq<Token>, i: nat)
    requires c.state == SimpleType && !c.collecting && i < |ts| && ts[i].word == ","
    ensures Feed(c, ts[i..]) == Feed(c.(state := Definition), ts[i + 1..])
  {
    FeedSkip(c, ts, i, c.(state := Definition));
  }

  /** `word` binds the pending names. */
  lemma FeedWord(c: Context, ts: seq<Token>, i: nat)
    requires c.state == Type && !c.collecting && i < |ts| && ts[i].word == "word"
    ensures Feed(c, ts[i..])
         == Feed(c.(state := SimpleType, identifiers := Bind(c.identifiers, c.pending, "word"), pending := {}), ts[i + 1..])
  {
    assert Lower("word") == "word" && IsSimpleType("word");
    FeedSkip(c, ts, i, c.(state := SimpleType, identifiers := Bind(c.identifiers, c.pending, "word"), pending := {}));
  }

  /** `byte` binds the pending names. */
  lemma FeedByte(c: Context, ts: seq<Token>, i: nat)
    requires c.state == Type && !c.collecting && i < |ts| && ts[i].word == "byte"
    ensures Feed(c, ts[i..])
         == Feed(c.(state := SimpleType, identifiers := Bind(c.identifiers, c.pending, "byte"), pending := {}), ts[i + 1..])
  {
    assert Lower("byte") == "byte" && IsSimpleType("byte");
    FeedSkip(c, ts, i, c.(state := SimpleType, identifiers := Bind(c.identifiers, c.pending, "byte"), pending := {}));
  }

  lemma NameA()
    ensures IsIdentifierText("a") && |"a"| <= MaxIdentifierLength && !IsKeyword(Lower("a"))
  {
    assert Lower("a") == "a";
  }

  /** `var a: byte` — every token is accepted but no `;` follows: the
      error points one character past `byte`. */
  lemma MissingSemicolonAtEnd(ts: seq<Token>)
    requires ts == [Token("var", 0), Token("a", 4), Token(":", 5), Token("byte", 7)]
    ensures Analysis(ts) == Err(LexerError(Syntax, MissingSemicolon, 11, 1))
  {
    var named := Initial.(state := Identifier, pending := {"a"});
    var bound := Initial.(state := SimpleType, identifiers := Bind(map[], {"a"}, "byte"));
    assert ts[0..] == ts;
    FeedVar(ts, 0);
    NameA();
    FeedName(ts, 1, "a");
    FeedColon(named, ts, 2);
    FeedByte(named.(state := Type), ts, 3);
    assert |ts[4..]| == 0;
    assert Feed(bound, ts[4..]) == Ok(bound);
  }

  /** The token list above is a tokenization of `var a: byte`. */
  lemma MissingSemicolonText(ts: seq<Token>)
    requires ts == [Token("var", 0), Token("a", 4), Token(":", 5), Token("byte", 7)]
    ensures Tokenizer.IsTokenization("var a: byte", ts)
  {
    SpacesDropped();
    FourWords(ts);
  }

  lemma FourWords(ts: seq<Token>)
    requires |ts| == 4 && ts[0].word == "var" && ts[1].word == "a" && ts[2].word == ":" && ts[3].word == "byte"
    ensures Tokenizer.Words(ts) == "vara:byte"
  {
    Tokenizer.WordsAppend([], ts[0]);
    Tokenizer.WordsAppend(ts[..1], ts[1]);
    Tokenizer.WordsAppend(ts[..2], ts[2]);
    Tokenizer.WordsAppend(ts[..3], ts[3]);
    assert [] + [ts[0]] == ts[..1] && ts[..1] + [ts[1]] == ts[..2];
    assert ts[..2] + [ts[2]] == ts[..3] && ts[..3] + [ts[3]] == ts;
  }

  lemma SpacesDropped()
    ensures Tokenizer.WithoutSpaces("var a: byte") == "vara:byte"
  {
    var s := "var a: byte";
    FirstSpaces(s);
    assert s[..|s|] == s;
    Tokenizer.WithoutSpacesStep(s, 6);
    assert Tokenizer.WithoutSpaces(s[..7]) == "vara:";
    Tokenizer.WithoutSpacesStep(s, 7);
    assert Tokenizer.WithoutSpaces(s[..8]) == "vara:b";
    Tokenizer.WithoutSpacesStep(s, 8);
    assert Tokenizer.WithoutSpaces(s[..9]) == "vara:by";
    Tokenizer.WithoutSpacesStep(s, 9);
    assert Tokenizer.WithoutSpaces(s[..10]) == "vara:byt";
    Tokenizer.WithoutSpacesStep(s, 10);
  }

  lemma FirstSpaces(s: string)
    requires s == "var a: byte"
    ensures Tokenizer.WithoutSpaces(s[..6]) == "vara:"
  {
    FirstWord(s);
    Tokenizer.WithoutSpacesStep(s, 3);
    assert Tokenizer.WithoutSpaces(s[..4]) == "var";
    Tokenizer.WithoutSpacesStep(s, 4);
    assert Tokenizer.WithoutSpaces(s[..5]) == "vara";
    Tokenizer.WithoutSpacesStep(s, 5);
  }

  lemma FirstWord(s: string)
    requires s == "var a: byte"
    ensures Tokenizer.WithoutSpaces(s[..3]) == "var"
  {
    assert s[..0] == [];
    Tokenizer.WithoutSpacesStep(s, 0);
    Tokenizer.WithoutSpacesStep(s, 1);
    assert Tokenizer.WithoutSpaces(s[..2]) == "va";
    Tokenizer.WithoutSpacesStep(s, 2);
  }

  /** `var a,a: byte;` — the second `a` is already pending: the error
      points at it. */
  lemma DuplicatePending(ts: seq<Token>)
    requires ts == [Token("var", 0), Token("a", 4), Token(",", 5), Token("a", 6), Token(":", 7),
                    Token("byte", 9), Token(";", 13)]
    ensures Analysis(ts) == Err(LexerError(Semantic, AlreadyTaken, 6, 1))
  {
    var named := Initial.(state := Identifier, pending := {"a"});
    assert ts[0..] == ts;
    FeedVar(ts, 0);
    NameA();
    FeedName(ts, 1, "a");
    FeedComma(named, ts, 2);
    Taken(named.(state := Definition), ts[3]);
    assert ts[3..][0] == ts[3];
  }

  /** A pending name cannot be declared again. */
  lemma Taken(c: Context, tok: Token)
    requires c == Initial.(state := Definition, pending := {"a"}) && tok == Token("a", 6)
    ensures Step(c, tok) == Err(LexerError(Semantic, AlreadyTaken, 6, 1))
  {
    assert Lower("a") == "a" && !IsKeyword("a") && IsIdentifierText("a");
  }

  /** The table lookup uses the lower-cased word: a name stored in upper
      case does not block its own redeclaration ... */
  lemma UpperCaseKeyDoesNotBlock(c: Context, tok: Token)
    requires c.state == Definition && c.identifiers == map["A" := "byte"] && c.pending == {} && !c.collecting
    requires tok.word == "A"
    ensures Step(c, tok) == Ok(c.(state := Identifier, pending := {"A"}))
  {
    assert Lower("A") == "a" && !IsKeyword("a") && IsIdentifierText("A");
    assert c.pending + {"A"} == {"A"};
  }

  /** ... and the redeclaration replaces its type ... */
  lemma RedeclarationReplaces()
    ensures Bind(map["A" := "byte"], {"A"}, "word") == map["A" := "word"]
  {
  }

  lemma NameUpperA()
    ensures IsIdentifierText("A") && |"A"| <= MaxIdentifierLength && !IsKeyword(Lower("A"))
  {
    assert Lower("A") == "a";
  }

  const Redeclaration: seq<Token> := [
    Token("var", 0), Token("A", 4), Token(":", 5), Token("byte", 7), Token(",", 11),
    Token("A", 13), Token(":", 14), Token("word", 16), Token(";", 20)]

  /** `var A: byte` */
  lemma FirstGroup(ts: seq<Token>)
    requires 4 <= |ts| && ts[0].word == "var" && ts[1].word == "A" && ts[2].word == ":" && ts[3].word == "byte"
    ensures Feed(Initial, ts) == Feed(Initial.(state := SimpleType, identifiers := Bind(map[], {"A"}, "byte")), ts[4..])
  {
    var named := Initial.(state := Identifier, pending := {"A"});
    assert ts[0..] == ts;
    FeedVar(ts, 0);
    NameUpperA();
    FeedName(ts, 1, "A");
    FeedColon(named, ts, 2);
    FeedByte(named.(state := Type), ts, 3);
  }

  /** `, A: word;` */
  lemma SecondGroup(ts: seq<Token>)
    requires |ts| == 9 && ts[4].word == "," && ts[5].word == "A" && ts[6].word == ":" && ts[7].word == "word"
    requires ts[8].word == ";"
    ensures Feed(Initial.(state := SimpleType, identifiers := Bind(map[], {"A"}, "byte")), ts[4..])
         == Ok(Initial.(state := State.Finish, identifiers := map["A" := "word"]))
  {
    var again := Initial.(state := Definition, identifiers := map["A" := "byte"]);
    assert Bind(map[], {"A"}, "byte") == map["A" := "byte"];
    FeedNext(again.(state := SimpleType), ts, 4);
    UpperCaseKeyDoesNotBlock(again, ts[5]);
    FeedSkip(again, ts, 5, again.(state := Identifier, pending := {"A"}));
    FeedColon(again.(state := Identifier, pending := {"A"}), ts, 6);
    FeedWord(again.(state := Type, pending := {"A"}), ts, 7);
    RedeclarationReplaces();
    StatementEnd(ts, Initial.(state := SimpleType, identifiers := map["A" := "word"]), 8);
  }

  /** `var A: byte, A: word;` is accepted: the upper-case key `A` is not
      found under `a`, so `A` is declared again and bound to `word`. */
  lemma UpperCaseRedeclared(ts: seq<Token>)
    requires ts == Redeclaration
    ensures Analysis(ts) == Ok(map["A" := "word"])
  {
    FirstGroup(ts);
    SecondGroup(ts);
  }

  /** ... while a name stored in lower case blocks the upper-case spelling. */
  lemma LowerCaseKeyBlocks(c: Context, tok: Token)
    requires c.state == Definition && c.identifiers == map["a" := "byte"] && c.pending == {} && !c.collecting
    requires tok.word == "A"
    ensures Step(c, tok) == Err(At(Semantic, AlreadyTaken, tok))
  {
    assert Lower("A") == "a" && !IsKeyword("a") && IsIdentifierText("A");
  }

  /** `111112` as a range bound: out of 16-bit range, reported over its six
      characters. */
  lemma BoundTooLarge(c: Context)
    requires c.state == RangesStart
    ensures Step(c, Token("111112", 13)) == Err(LexerError(Semantic, IntegerOutOfRange, 13, 6))
  {
    assert IsIntegerLiteral("111112");
    IntegerInRangeIff("111112");
    ValueOfLiteral();
  }

  lemma ValueOfLiteral()
    ensures Value("111112") == 111112
  {
    assert "111112"[..5] == "11111" && "11111"[..4] == "1111" && "1111"[..3] == "111";
    assert "111"[..2] == "11" && "11"[..1] == "1" && "1"[..0] == "";
    assert DigitsValue("111") == 111;
  }

  // `var x: array[2:10,10:40] of byte;`, token by token.

  const ArrayStatement: seq<Token> := [
    Token("var", 0), Token("x", 4), Token(":", 5), Token("array", 7), Token("[", 12),
    Token("2", 13), Token(":", 14), Token("10", 15), Token(",", 17), Token("10", 18),
    Token(":", 20), Token("40", 21), Token("]", 23), Token("of", 25), Token("byte", 28),
    Token(";", 32)]

  /** The context inside the array type of `x`, with its collected text. */
  function Inside(state: State, text: string, bound: int): Context {
    Context(state, map[], {"x"}, true, text, bound)
  }

  /** A token other than `of` read while collecting is appended as it is. */
  lemma Collected(c: Context, tok: Token, next: Context)
    requires !c.state.Terminal() && c.collecting && Lower(tok.word) != "of"
    requires Dispatch(c.(arrayType := c.arrayType + tok.word), tok) == Ok(next)
    ensures Step(c, tok) == Ok(next)
  {
    assert Collect(c, tok.word) == c.arrayType + tok.word + "";
    assert c.arrayType + tok.word + "" == c.arrayType + tok.word;
  }

  lemma SmallLiterals()
    ensures IsIntegerLiteral("2") && Value("2") == 2 && IsIntegerInRange("2") && Lower("2") != "of"
    ensures IsIntegerLiteral("10") && Value("10") == 10 && IsIntegerInRange("10") && Lower("10") != "of"
    ensures IsIntegerLiteral("40") && Value("40") == 40 && IsIntegerInRange("40") && Lower("40") != "of"
  {
    assert "10"[..1] == "1" && "40"[..1] == "4" && "1"[..0] == "" && "4"[..0] == "";
    IntegerInRangeIff("2");
    IntegerInRangeIff("10");
    IntegerInRangeIff("40");
    assert |Lower("2")| == 1 && Lower("10")[1] == '0' && Lower("40")[1] == '0';
  }

  lemma PunctuationNotOf()
    ensures Lower("[") != "of" && Lower(":") != "of" && Lower(",") != "of" && Lower("]") != "of"
  {
    assert |Lower("[")| == 1 && |Lower(":")| == 1 && |Lower(",")| == 1 && |Lower("]")| == 1;
  }

  lemma NameX()
    ensures IsIdentifierText("x") && |"x"| <= MaxIdentifierLength && !IsKeyword(Lower("x"))
  {
    assert Lower("x") == "x";
  }

  /** `var x :` */
  lemma ArrayDeclared(ts: seq<Token>)
    requires 3 <= |ts| && ts[0].word == "var" && ts[1].word == "x" && ts[2].word == ":"
    ensures Feed(Initial, ts) == Feed(Initial.(state := Type, pending := {"x"}), ts[3..])
  {
    assert ts[0..] == ts;
    FeedVar(ts, 0);
    NameX();
    FeedName(ts, 1, "x");
    FeedColon(Initial.(state := Identifier, pending := {"x"}), ts, 2);
  }

  lemma ReadArray(ts: seq<Token>)
    requires ts == ArrayStatement
    ensures Feed(Initial.(state := Type, pending := {"x"}), ts[3..]) == Feed(Inside(Array, "array", 0), ts[4..])
  {
    assert Lower("array") == "array" && !IsSimpleType("array");
    assert Collect(Initial.(state := Type, pending := {"x"}), "array") == "";
    assert "" + "array" == "array";
    FeedSkip(Initial.(state := Type, pending := {"x"}), ts, 3, Inside(Array, "array", 0));
  }

  lemma ReadOpenBracket(ts: seq<Token>)
    requires ts == ArrayStatement
    ensures Feed(Inside(Array, "array", 0), ts[4..]) == Feed(Inside(RangesStart, "array[", 0), ts[5..])
  {
    PunctuationNotOf();
    assert "array" + "[" == "array[";
    assert Dispatch(Inside(Array, "array[", 0), Token("[", 12)) == Ok(Inside(RangesStart, "array[", 0));
    Collected(Inside(Array, "array", 0), Token("[", 12), Inside(RangesStart, "array[", 0));
    FeedSkip(Inside(Array, "array", 0), ts, 4, Inside(RangesStart, "array[", 0));
  }

  lemma ReadTwo(ts: seq<Token>)
    requires ts == ArrayStatement
    ensures Feed(Inside(RangesStart, "array[", 0), ts[5..]) == Feed(Inside(FirstRangeBeginValue, "array[2", 2), ts[6..])
  {
    SmallLiterals();
    assert "array[" + "2" == "array[2";
    assert Dispatch(Inside(RangesStart, "array[2", 0), Token("2", 13)) == Ok(Inside(FirstRangeBeginValue, "array[2", 2));
    Collected(Inside(RangesStart, "array[", 0), Token("2", 13), Inside(FirstRangeBeginValue, "array[2", 2));
    FeedSkip(Inside(RangesStart, "array[", 0), ts, 5, Inside(FirstRangeBeginValue, "array[2", 2));
  }

  lemma ReadFirstColon(ts: seq<Token>)
    requires ts == ArrayStatement
    ensures Feed(Inside(FirstRangeBeginValue, "array[2", 2), ts[6..]) == Feed(Inside(FirstRangeDelimiter, "array[2:", 2), ts[7..])
  {
    PunctuationNotOf();
    assert "array[2" + ":" == "array[2:";
    assert Dispatch(Inside(FirstRangeBeginValue, "array[2:", 2), Token(":", 14)) == Ok(Inside(FirstRangeDelimiter, "array[2:", 2));
    Collected(Inside(FirstRangeBeginValue, "array[2", 2), Token(":", 14), Inside(FirstRangeDelimiter, "array[2:", 2));
    FeedSkip(Inside(FirstRangeBeginValue, "array[2", 2), ts, 6, Inside(FirstRangeDelimiter, "array[2:", 2));
  }

  lemma ReadFirstTen(ts: seq<Token>)
    requires ts == ArrayStatement
    ensures Feed(Inside(FirstRangeDelimiter, "array[2:", 2), ts[7..]) == Feed(Inside(FirstRangeEndValue, "array[2:10", 2), ts[8..])
  {
    SmallLiterals();
    assert "array[2:" + "10" == "array[2:10";
    assert Dispatch(Inside(FirstRangeDelimiter, "array[2:10", 2), Token("10", 15)) == Ok(Inside(FirstRangeEndValue, "array[2:10", 2));
    Collected(Inside(FirstRangeDelimiter, "array[2:", 2), Token("10", 15), Inside(FirstRangeEndValue, "array[2:10", 2));
    FeedSkip(Inside(FirstRangeDelimiter, "array[2:", 2), ts, 7, Inside(FirstRangeEndValue, "array[2:10", 2));
  }

  lemma ReadComma(ts: seq<Token>)
    requires ts == ArrayStatement
    ensures Feed(Inside(FirstRangeEndValue, "array[2:10", 2), ts[8..]) == Feed(Inside(RangesDelimiter, "array[2:10,", 2), ts[9..])
  {
    PunctuationNotOf();
    assert "array[2:10" + "," == "array[2:10,";
    assert Dispatch(Inside(FirstRangeEndValue, "array[2:10,", 2), Token(",", 17)) == Ok(Inside(RangesDelimiter, "array[2:10,", 2));
    Collected(Inside(FirstRangeEndValue, "array[2:10", 2), Token(",", 17), Inside(RangesDelimiter, "array[2:10,", 2));
    FeedSkip(Inside(FirstRangeEndValue, "array[2:10", 2), ts, 8, Inside(RangesDelimiter, "array[2:10,", 2));
  }

  lemma ReadSecondTen(ts: seq<Token>)
    requires ts == ArrayStatement
    ensures Feed(Inside(RangesDelimiter, "array[2:10,", 2), ts[9..]) == Feed(Inside(SecondRangeBeginValue, "array[2:10,10", 10), ts[10..])
  {
    SmallLiterals();
    assert "array[2:10," + "10" == "array[2:10,10";
    assert Dispatch(Inside(RangesDelimiter, "array[2:10,10", 2), Token("10", 18)) == Ok(Inside(SecondRangeBeginValue, "array[2:10,10", 10));
    Collected(Inside(RangesDelimiter, "array[2:10,", 2), Token("10", 18), Inside(SecondRangeBeginValue, "array[2:10,10", 10));
    FeedSkip(Inside(RangesDelimiter, "array[2:10,", 2), ts, 9, Inside(SecondRangeBeginValue, "array[2:10,10", 10));
  }

  lemma ReadSecondColon(ts: seq<Token>)
    requires ts == ArrayStatement
    ensures Feed(Inside(SecondRangeBeginValue, "array[2:10,10", 10), ts[10..]) == Feed(Inside(SecondRangeDelimiter, "array[2:10,10:", 10), ts[11..])
  {
    PunctuationNotOf();
    assert "array[2:10,10" + ":" == "array[2:10,10:";
    assert Dispatch(Inside(SecondRangeBeginValue, "array[2:10,10:", 10), Token(":", 20)) == Ok(Inside(SecondRangeDelimiter, "array[2:10,10:", 10));
    Collected(Inside(SecondRangeBeginValue, "array[2:10,10", 10), Token(":", 20), Inside(SecondRangeDelimiter, "array[2:10,10:", 10));
    FeedSkip(Inside(SecondRangeBeginValue, "array[2:10,10", 10), ts, 10, Inside(SecondRangeDelimiter, "array[2:10,10:", 10));
  }

  lemma ReadForty(ts: seq<Token>)
    requires ts == ArrayStatement
    ensures Feed(Inside(SecondRangeDelimiter, "array[2:10,10:", 10), ts[11..]) == Feed(Inside(SecondRangeEndValue, "array[2:10,10:40", 10), ts[12..])
  {
    SmallLiterals();
    assert "array[2:10,10:" + "40" == "array[2:10,10:40";
    assert Dispatch(Inside(SecondRangeDelimiter, "array[2:10,10:40", 10), Token("40", 21)) == Ok(Inside(SecondRangeEndValue, "array[2:10,10:40", 10));
    Collected(Inside(SecondRangeDelimiter, "array[2:10,10:", 10), Token("40", 21), Inside(SecondRangeEndValue, "array[2:10,10:40", 10));
    FeedSkip(Inside(SecondRangeDelimiter, "array[2:10,10:", 10), ts, 11, Inside(SecondRangeEndValue, "array[2:10,10:40", 10));
  }

  lemma ReadCloseBracket(ts: seq<Token>)
    requires ts == ArrayStatement
    ensures Feed(Inside(SecondRangeEndValue, "array[2:10,10:40", 10), ts[12..]) == Feed(Inside(RangesEnd, "array[2:10,10:40]", 10), ts[13..])
  {
    PunctuationNotOf();
    assert "array[2:10,10:40" + "]" == "array[2:10,10:40]";
    assert Dispatch(Inside(SecondRangeEndValue, "array[2:10,10:40]", 10), Token("]", 23)) == Ok(Inside(RangesEnd, "array[2:10,10:40]", 10));
    Collected(Inside(SecondRangeEndValue, "array[2:10,10:40", 10), Token("]", 23), Inside(RangesEnd, "array[2:10,10:40]", 10));
    FeedSkip(Inside(SecondRangeEndValue, "array[2:10,10:40", 10), ts, 12, Inside(RangesEnd, "array[2:10,10:40]", 10));
  }

  /** `of` is collected with one space after it and none before it. */
  lemma ReadOf(ts: seq<Token>)
    requires ts == ArrayStatement
    ensures Feed(Inside(RangesEnd, "array[2:10,10:40]", 10), ts[13..]) == Feed(Inside(Of, "array[2:10,10:40]of ", 10), ts[14..])
  {
    var c := Inside(RangesEnd, "array[2:10,10:40]", 10);
    assert Lower("of") == "of";
    assert Collect(c, "of") == "array[2:10,10:40]of ";
    assert Dispatch(Inside(RangesEnd, "array[2:10,10:40]of ", 10), Token("of", 25)) == Ok(Inside(Of, "array[2:10,10:40]of ", 10));
    FeedSkip(Inside(RangesEnd, "array[2:10,10:40]", 10), ts, 13, Inside(Of, "array[2:10,10:40]of ", 10));
  }

  /** The element type completes the text, which is bound to `x`. */
  lemma ReadElement(ts: seq<Token>)
    requires ts == ArrayStatement
    ensures Feed(Inside(Of, "array[2:10,10:40]of ", 10), ts[14..]) == Feed(Context(ArrayType, map["x" := "array[2:10,10:40]of byte"], {}, false, "", 10), ts[15..])
  {
    var text := "array[2:10,10:40]of byte";
    assert Lower("byte") == "byte" && IsSimpleType("byte");
    assert "array[2:10,10:40]of " + "byte" == text;
    assert Bind(map[], {"x"}, text) == map["x" := text];
    assert Dispatch(Inside(Of, text, 10), Token("byte", 28)) == Ok(Context(ArrayType, map["x" := text], {}, false, "", 10));
    Collected(Inside(Of, "array[2:10,10:40]of ", 10), Token("byte", 28), Context(ArrayType, map["x" := text], {}, false, "", 10));
    FeedSkip(Inside(Of, "array[2:10,10:40]of ", 10), ts, 14, Context(ArrayType, map["x" := "array[2:10,10:40]of byte"], {}, false, "", 10));
  }

  /** `array [ 2 : 10 , 10 : 40 ]` */
  lemma ArrayRanges(ts: seq<Token>)
    requires ts == ArrayStatement
    ensures Feed(Initial.(state := Type, pending := {"x"}), ts[3..])
         == Feed(Inside(RangesEnd, "array[2:10,10:40]", 10), ts[13..])
  {
    ReadArray(ts);
    ReadOpenBracket(ts);
    ReadTwo(ts);
    ReadFirstColon(ts);
    ReadFirstTen(ts);
    ReadComma(ts);
    ReadSecondTen(ts);
    ReadSecondColon(ts);
    ReadForty(ts);
    ReadCloseBracket(ts);
  }

  /** `of byte ;` */
  lemma ArrayClosed(ts: seq<Token>)
    requires ts == ArrayStatement
    ensures Feed(Inside(RangesEnd, "array[2:10,10:40]", 10), ts[13..])
         == Ok(Context(State.Finish, map["x" := "array[2:10,10:40]of byte"], {}, false, "", 10))
  {
    ReadOf(ts);
    ReadElement(ts);
    StatementEnd(ts, Context(ArrayType, map["x" := "array[2:10,10:40]of byte"], {}, false, "", 10), 15);
  }

  /** A final `;` after a type ends the statement. */
  lemma StatementEnd(ts: seq<Token>, c: Context, i: nat)
    requires c.state in {SimpleType, ArrayType} && !c.collecting && i + 1 == |ts| && ts[i].word == ";"
    ensures Feed(c, ts[i..]) == Ok(c.(state := State.Finish))
  {
    FeedSkip(c, ts, i, c.(state := State.Finish));
  }

  /** The whole statement: `x` is bound to the array text, which has no
      space before `of` and one after it. */
  lemma TwoDimensionalArray(ts: seq<Token>)
    requires ts == ArrayStatement
    ensures Analysis(ts) == Ok(map["x" := "array[2:10,10:40]of byte"])
  {
    ArrayDeclared(ts);
    ArrayRanges(ts);
    ArrayClosed(ts);
  }
}
