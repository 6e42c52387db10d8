/** `analyze` (src/lib.rs:215-598): a token-level automaton that checks the
    syntax and the semantics of one `var` statement together and builds the
    symbol table on the way.

    `Step` gives one turn of the source's loop as a function of the working
    context; `Analysis` runs it over a token sequence and is the
    specification the imperative `Analyze` method is proved against. */
module Analyzer {
  import opened Lexemes
  import Classifiers

  /** The automaton's states. `Error` is declared and tested by the loop
      guard but never entered: every failure returns at once. */
  datatype State =
    | Start | Definition | Identifier | Type | SimpleType | Array
    | RangesStart | RangesEnd | FirstRangeBeginValue | FirstRangeDelimiter
    | FirstRangeEndValue | RangesDelimiter | SecondRangeBeginValue
    | SecondRangeDelimiter | SecondRangeEndValue | Of | ArrayType
    | Error | Finish
  {
    predicate Terminal() { this == Error || this == Finish }
  }

  /** Identifier name to type descriptor. */
  type SymbolTable = map<string, string>

  /** The working state of one run: the automaton's state, the table built
      so far, the names still waiting for a type, whether the array type
      text is being collected, that text, and the pending lower bound
      (an `i16` in the source; always in range here, see `Inv`). */
  datatype Context = Context(
    state: State,
    identifiers: SymbolTable,
    pending: set<string>,
    collecting: bool,
    arrayType: string,
    leftBound: int)

  const Initial := Context(Start, map[], {}, false, "", 0)

  /** Binds every pending name to `desc`, keeping the other entries. */
  function Bind(identifiers: SymbolTable, pending: set<string>, desc: string): (m: SymbolTable)
    ensures m.Keys == identifiers.Keys + pending
    ensures forall n :: n in pending ==> m[n] == desc
    ensures forall n :: n in identifiers && n !in pending ==> m[n] == identifiers[n]
  {
    identifiers + map n | n in pending :: desc
  }

  /** The `Definition` state: a new name is checked for being an
      identifier, for its length, for being reserved, and for being taken,
      in this order. */
  function DefinitionStep(c: Context, tok: Token): Result<Context> {
    var word := tok.word;
    if Classifiers.IsIdentifierText(word) then
      if |word| > MaxIdentifierLength then Err(At(Semantic, IdentifierTooLong, tok))
      else if IsKeyword(Lower(word)) then Err(At(Semantic, ReservedWord, tok))
      else if word in c.pending || Lower(word) in c.identifiers then Err(At(Semantic, AlreadyTaken, tok))
      else Ok(c.(state := Identifier, pending := c.pending + {word}))
    else
      Err(At(Syntax, InvalidIdentifier, tok))
  }

  /** The states that expect the lower bound of a range. */
  function LowerBoundStep(c: Context, tok: Token, next: State): Result<Context> {
    var word := tok.word;
    if Classifiers.IsIntegerLiteral(word) then
      if !Classifiers.IsIntegerInRange(word) then Err(At(Semantic, IntegerOutOfRange, tok))
      else match Classifiers.ParseI16(word)
        case Some(v) => Ok(c.(state := next, leftBound := v))
        case None => assert false; Err(At(Semantic, IntegerOutOfRange, tok))
    else
      Err(At(Syntax, ExpectedInteger, tok))
  }

  /** The states that expect the upper bound of a range, which must exceed
      the pending lower bound. */
  function UpperBoundStep(c: Context, tok: Token, next: State): Result<Context> {
    var word := tok.word;
    if Classifiers.IsIntegerLiteral(word) then
      if !Classifiers.IsIntegerInRange(word) then Err(At(Semantic, IntegerOutOfRange, tok))
      else match Classifiers.ParseI16(word)
        case Some(v) =>
          if v <= c.leftBound then Err(At(Semantic, BoundsNotIncreasing, tok))
          else Ok(c.(state := next))
        case None => assert false; Err(At(Semantic, IntegerOutOfRange, tok))
    else
      Err(At(Syntax, ExpectedInteger, tok))
  }

  /** The array type text after `word` is read: while collecting, the
      word is appended, followed by one space when it is `of`. */
  function Collect(c: Context, word: string): string {
    if c.collecting then c.arrayType + word + (if Lower(word) == "of" then " " else "") else c.arrayType
  }

  /** One turn of the loop on one token: the array type text is extended
      first, then the state decides. */
  function Step(c: Context, tok: Token): Result<Context>
    requires !c.state.Terminal()
  {
    Dispatch(c.(arrayType := Collect(c, tok.word)), tok)
  }

  /** The `match state` of one turn. */
  function Dispatch(c: Context, tok: Token): Result<Context>
    requires !c.state.Terminal()
  {
    var word := tok.word;
    var lower := Lower(word);
    match c.state
    case Start =>
      if lower == "var" then Ok(c.(state := Definition)) else Err(At(Syntax, ExpectedVar, tok))
    case Definition =>
      DefinitionStep(c, tok)
    case Identifier =>
      if word == "," then Ok(c.(state := Definition))
      else if word == ":" then Ok(c.(state := Type))
      else Err(At(Syntax, ExpectedCommaOrColon, tok))
    case Type =>
      if IsSimpleType(lower) then
        Ok(c.(state := SimpleType, identifiers := Bind(c.identifiers, c.pending, lower), pending := {}))
      else if lower == "array" then
        Ok(c.(state := Array, collecting := true, arrayType := c.arrayType + word))
      else Err(At(Syntax, ExpectedTypeKeyword, tok))
    case SimpleType =>
      if word == "," then Ok(c.(state := Definition))
      else if word == ";" then Ok(c.(state := Finish))
      else Err(At(Syntax, ExpectedCommaOrSemicolon, tok))
    case Array =>
      if word == "[" then Ok(c.(state := RangesStart)) else Err(At(Syntax, ExpectedOpenBracket, tok))
    case RangesStart =>
      LowerBoundStep(c, tok, FirstRangeBeginValue)
    case FirstRangeBeginValue =>
      if word == ":" then Ok(c.(state := FirstRangeDelimiter)) else Err(At(Syntax, ExpectedColon, tok))
    case FirstRangeDelimiter =>
      UpperBoundStep(c, tok, FirstRangeEndValue)
    case FirstRangeEndValue =>
      if word == "," then Ok(c.(state := RangesDelimiter))
      else if word == "]" then Ok(c.(state := RangesEnd))
      else Err(At(Syntax, ExpectedCommaOrCloseBracket, tok))
    case RangesDelimiter =>
      LowerBoundStep(c, tok, SecondRangeBeginValue)
    case SecondRangeBeginValue =>
      if word == ":" then Ok(c.(state := SecondRangeDelimiter)) else Err(At(Syntax, ExpectedColon, tok))
    case SecondRangeDelimiter =>
      UpperBoundStep(c, tok, SecondRangeEndValue)
    case SecondRangeEndValue =>
      if word == "]" then Ok(c.(state := RangesEnd)) else Err(At(Syntax, ExpectedCloseBracket, tok))
    case RangesEnd =>
      if lower == "of" then Ok(c.(state := Of)) else Err(At(Syntax, ExpectedOf, tok))
    case Of =>
      if IsSimpleType(lower) then
        Ok(c.(state := ArrayType, identifiers := Bind(c.identifiers, c.pending, c.arrayType),
              pending := {}, arrayType := "", collecting := false))
      else Err(At(Syntax, ExpectedSimpleType, tok))
    case ArrayType =>
      if word == ";" then Ok(c.(state := Finish))
      else if word == "," then Ok(c.(state := Definition))
      else Err(At(Syntax, ExpectedSemicolonOrComma, tok))
  }

  /** Feeds the tokens to the automaton until it stops, fails, or runs out
      of tokens. */
  function Feed(c: Context, ts: seq<Token>): Result<Context>
    decreases |ts|
  {
    if c.state.Terminal() || |ts| == 0 then Ok(c)
    else match Step(c, ts[0])
      case Err(e) => Err(e)
      case Ok(c') => Feed(c', ts[1..])
  }

  /** The error for a stream that ends before the statement does. */
  function EndOfStream(ts: seq<Token>): LexerError {
    if |ts| == 0 then LexerError(Syntax, MissingVarKeyword, 0, 0)
    else
      var last := ts[|ts| - 1];
      LexerError(Syntax, MissingSemicolon, last.position + |last.word|, 1)
  }

  /** What `analyze` returns for `ts`. */
  function Analysis(ts: seq<Token>): Result<SymbolTable> {
    match Feed(Initial, ts)
    case Err(e) => Err(e)
    case Ok(c) => if c.state.Terminal() then Ok(c.identifiers) else Err(EndOfStream(ts))
  }

  /** The `for identifier in pending_identifiers.iter()` loop that binds
      each pending name to a type descriptor. */
  method BindPending(identifiers: SymbolTable, pending: set<string>, desc: string) returns (m: SymbolTable)
    ensures m == Bind(identifiers, pending, desc)
  {
    m := identifiers;
    var rest := pending;
    while rest != {}
      invariant rest <= pending
      invariant m == identifiers + map n | n in pending - rest :: desc
      decreases rest
    {
      var n :| n in rest;
      BindOneMore(identifiers, pending - rest, n, desc);
      assert pending - (rest - {n}) == (pending - rest) + {n};
      m := m[n := desc];
      rest := rest - {n};
    }
    assert pending - rest == pending;
  }

  lemma BindOneMore(identifiers: SymbolTable, bound: set<string>, n: string, desc: string)
    ensures (identifiers + map k | k in bound :: desc)[n := desc] == identifiers + map k | k in bound + {n} :: desc
  {
  }

  /** The `match state` of one turn, on the working variables. */
  method Turn(c: Context, tok: Token) returns (res: Result<Context>)
    requires !c.state.Terminal()
    ensures res == Dispatch(c, tok)
  {
    var word := tok.word;
    var lower := Lower(word);
    match c.state {
      case Start =>
        if lower == "var" {
          res := Ok(c.(state := Definition));
        } else {
          res := Err(At(Syntax, ExpectedVar, tok));
        }
      case Definition =>
        var isIdentifier := Classifiers.IsIdentifier(word);
        if !isIdentifier {
          res := Err(At(Syntax, InvalidIdentifier, tok));
        } else if |word| > MaxIdentifierLength {
          res := Err(At(Semantic, IdentifierTooLong, tok));
        } else if IsKeyword(lower) {
          res := Err(At(Semantic, ReservedWord, tok));
        } else if word in c.pending || lower in c.identifiers {
          res := Err(At(Semantic, AlreadyTaken, tok));
        } else {
          res := Ok(c.(state := Identifier, pending := c.pending + {word}));
        }
      case Identifier =>
        if word == "," {
          res := Ok(c.(state := Definition));
        } else if word == ":" {
          res := Ok(c.(state := Type));
        } else {
          res := Err(At(Syntax, ExpectedCommaOrColon, tok));
        }
      case Type =>
        if IsSimpleType(lower) {
          var identifiers := BindPending(c.identifiers, c.pending, lower);
          res := Ok(c.(state := SimpleType, identifiers := identifiers, pending := {}));
        } else if lower == "array" {
          res := Ok(c.(state := Array, collecting := true, arrayType := c.arrayType + word));
        } else {
          res := Err(At(Syntax, ExpectedTypeKeyword, tok));
        }
      case SimpleType =>
        if word == "," {
          res := Ok(c.(state := Definition));
        } else if word == ";" {
          res := Ok(c.(state := State.Finish));
        } else {
          res := Err(At(Syntax, ExpectedCommaOrSemicolon, tok));
        }
      case Array =>
        if word == "[" {
          res := Ok(c.(state := RangesStart));
        } else {
          res := Err(At(Syntax, ExpectedOpenBracket, tok));
        }
      case RangesStart =>
        res := LowerBound(c, tok, FirstRangeBeginValue);
      case FirstRangeBeginValue =>
        if word == ":" {
          res := Ok(c.(state := FirstRangeDelimiter));
        } else {
          res := Err(At(Syntax, ExpectedColon, tok));
        }
      case FirstRangeDelimiter =>
        res := UpperBound(c, tok, FirstRangeEndValue);
      case FirstRangeEndValue =>
        if word == "," {
          res := Ok(c.(state := RangesDelimiter));
        } else if word == "]" {
          res := Ok(c.(state := RangesEnd));
        } else {
          res := Err(At(Syntax, ExpectedCommaOrCloseBracket, tok));
        }
      case RangesDelimiter =>
        res := LowerBound(c, tok, SecondRangeBeginValue);
      case SecondRangeBeginValue =>
        if word == ":" {
          res := Ok(c.(state := SecondRangeDelimiter));
        } else {
          res := Err(At(Syntax, ExpectedColon, tok));
        }
      case SecondRangeDelimiter =>
        res := UpperBound(c, tok, SecondRangeEndValue);
      case SecondRangeEndValue =>
        if word == "]" {
          res := Ok(c.(state := RangesEnd));
        } else {
          res := Err(At(Syntax, ExpectedCloseBracket, tok));
        }
      case RangesEnd =>
        if lower == "of" {
          res := Ok(c.(state := Of));
        } else {
          res := Err(At(Syntax, ExpectedOf, tok));
        }
      case Of =>
        if IsSimpleType(lower) {
          var identifiers := BindPending(c.identifiers, c.pending, c.arrayType);
          res := Ok(c.(state := ArrayType, identifiers := identifiers, pending := {}, arrayType := "", collecting := false));
        } else {
          res := Err(At(Syntax, ExpectedSimpleType, tok));
        }
      case ArrayType =>
        if word == ";" {
          res := Ok(c.(state := State.Finish));
        } else if word == "," {
          res := Ok(c.(state := Definition));
        } else {
          res := Err(At(Syntax, ExpectedSemicolonOrComma, tok));
        }
    }
  }

  /** Reading the lower bound of a range: checked as an integer, then for
      its range, then parsed as `i16` and kept. */
  method LowerBound(c: Context, tok: Token, next: State) returns (res: Result<Context>)
    ensures res == LowerBoundStep(c, tok, next)
  {
    var isInteger := Classifiers.IsInteger(tok.word);
    if !isInteger {
      return Err(At(Syntax, ExpectedInteger, tok));
    }
    if !Classifiers.IsIntegerInRange(tok.word) {
      return Err(At(Semantic, IntegerOutOfRange, tok));
    }
    var parsed := Classifiers.ParseI16(tok.word);
    if parsed.None? {
      assert false;
    }
    res := Ok(c.(state := next, leftBound := parsed.value));
  }

  /** Reading the upper bound of a range: as for the lower bound, and it
      must exceed the lower bound kept before. */
  method UpperBound(c: Context, tok: Token, next: State) returns (res: Result<Context>)
    ensures res == UpperBoundStep(c, tok, next)
  {
    var isInteger := Classifiers.IsInteger(tok.word);
    if !isInteger {
      return Err(At(Syntax, ExpectedInteger, tok));
    }
    if !Classifiers.IsIntegerInRange(tok.word) {
      return Err(At(Semantic, IntegerOutOfRange, tok));
    }
    var parsed := Classifiers.ParseI16(tok.word);
    if parsed.None? {
      assert false;
    }
    if parsed.value <= c.leftBound {
      return Err(At(Semantic, BoundsNotIncreasing, tok));
    }
    res := Ok(c.(state := next));
  }

  /** `analyze`: one pass over the tokens, returning the table or the first
      error. */
  method Analyze(tokens: seq<Token>) returns (r: Result<SymbolTable>)
    ensures r == Analysis(tokens)
  {
    var identifiers: SymbolTable := map[];
    var pending: set<string> := {};
    var state := State.Start;
    var i: nat := 0;
    var collecting := false;
    var arrayType: string := "";
    var rangeLeftBound: int := 0;

    while state != State.Error && state != State.Finish
      invariant i <= |tokens|
      invariant Feed(Initial, tokens)
             == Feed(Context(state, identifiers, pending, collecting, arrayType, rangeLeftBound), tokens[i..])
      decreases |tokens| - i
    {
      if i == |tokens| {
        if |tokens| == 0 {
          return Err(LexerError(Syntax, MissingVarKeyword, 0, 0));
        }
        var last := tokens[|tokens| - 1];
        return Err(LexerError(Syntax, MissingSemicolon, last.position + |last.word|, 1));
      }
      var tok := tokens[i];
      ghost var before := Context(state, identifiers, pending, collecting, arrayType, rangeLeftBound);
      if collecting {
        arrayType := arrayType + tok.word;
        if Lower(tok.word) == "of" {
          arrayType := arrayType + " ";
        }
      }
      var outcome := Turn(Context(state, identifiers, pending, collecting, arrayType, rangeLeftBound), tok);
      TurnIsStep(before, tok, arrayType, outcome);
      match outcome {
        case Err(e) =>
          FeedStops(before, tokens, i, e);
          return Err(e);
        case Ok(c) =>
          FeedAdvances(before, tokens, i, c);
          state, identifiers, pending := c.state, c.identifiers, c.pending;
          collecting, arrayType, rangeLeftBound := c.collecting, c.arrayType, c.leftBound;
      }
      i := i + 1;
    }
    return Ok(identifiers);
  }

  /** The working variables after the array text is extended, dispatched
      on, give one `Step`. */
  lemma TurnIsStep(c: Context, tok: Token, arrayType: string, outcome: Result<Context>)
    requires !c.state.Terminal()
    requires arrayType == Collect(c, tok.word)
    requires outcome == Dispatch(c.(arrayType := arrayType), tok)
    ensures outcome == Step(c, tok)
  {
  }

  /** A turn that fails ends the feed with its error. */
  lemma FeedStops(c: Context, tokens: seq<Token>, i: nat, e: LexerError)
    requires i < |tokens| && !c.state.Terminal() && Step(c, tokens[i]) == Err(e)
    ensures Feed(c, tokens[i..]) == Err(e)
  {
  }

  /** A turn that succeeds leaves the rest of the feed to the next context. */
  lemma FeedAdvances(c: Context, tokens: seq<Token>, i: nat, c': Context)
    requires i < |tokens| && !c.state.Terminal() && Step(c, tokens[i]) == Ok(c')
    ensures Feed(c, tokens[i..]) == Feed(c', tokens[i + 1..])
  {
    assert tokens[i..][1..] == tokens[i + 1..];
  }
}
