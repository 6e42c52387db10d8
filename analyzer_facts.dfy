/** What `analyze` (src/lib.rs:215-598) guarantees, stated about its
    specification `Analysis` and proved from `Step`. */
module AnalyzerFacts {
  import opened Lexemes
  import Classifiers
  import opened Analyzer

  // Running the automaton over a sequence in two parts.

  /** Feeding `ts + rest` is feeding `ts`, then feeding `rest` to what is left. */
  lemma {:induction false} FeedAppend(c: Context, ts: seq<Token>, rest: seq<Token>)
    ensures Feed(c, ts + rest) == match Feed(c, ts)
      case Err(e) => Err(e)
      case Ok(c') => Feed(c', rest)
    decreases |ts|
  {
    if c.state.Terminal() || |ts| == 0 {
      assert ts + rest == rest || c.state.Terminal();
    } else {
      assert (ts + rest)[0] == ts[0];
      assert (ts + rest)[1..] == ts[1..] + rest;
      match Step(c, ts[0])
      case Err(e) =>
      case Ok(c') => FeedAppend(c', ts[1..], rest);
    }
  }

  /** A stopped automaton ignores further tokens. */
  lemma FeedTerminal(c: Context, ts: seq<Token>)
    requires c.state.Terminal()
    ensures Feed(c, ts) == Ok(c)
  {
  }

  /** Once a prefix has reached `Finish`, the tokens after it are never
      examined: the outcome is that of the prefix. */
  lemma FinishIgnoresRest(ts: seq<Token>, rest: seq<Token>)
    requires Feed(Initial, ts).Ok? && Feed(Initial, ts).value.state == State.Finish
    ensures Analysis(ts + rest) == Analysis(ts)
  {
    FeedAppend(Initial, ts, rest);
    FeedTerminal(Feed(Initial, ts).value, rest);
  }

  // Where a rejection is reported.

  /** Every rejection of a token is reported at that token: its position,
      spanning its text. */
  lemma StepErrorAt(c: Context, tok: Token)
    requires !c.state.Terminal() && Step(c, tok).Err?
    ensures Step(c, tok).error.position == tok.position
    ensures Step(c, tok).error.tokenLength == |tok.word|
  {
  }

  /** A failed feed failed on one token `ts[k]`: everything before it was
      accepted, and the error is that token's rejection. */
  lemma {:induction false} FeedErrorAt(c: Context, ts: seq<Token>) returns (k: nat)
    requires Feed(c, ts).Err?
    ensures k < |ts|
    ensures Feed(c, ts[..k]).Ok? && !Feed(c, ts[..k]).value.state.Terminal()
    ensures Step(Feed(c, ts[..k]).value, ts[k]) == Feed(c, ts)
    ensures Feed(c, ts).error.position == ts[k].position
    ensures Feed(c, ts).error.tokenLength == |ts[k].word|
    decreases |ts|
  {
    assert ts[..0] == [];
    match Step(c, ts[0])
    case Err(e) =>
      k := 0;
      StepErrorAt(c, ts[0]);
    case Ok(c') =>
      var j := FeedErrorAt(c', ts[1..]);
      k := j + 1;
      assert ts[..k][0] == ts[0];
      assert ts[..k][1..] == ts[1..][..j];
      assert ts[k] == ts[1..][j];
  }

  /** The error `analyze` returns: either the stream ended with every token
      accepted and no `;` reached (`k == |ts|`), or token `k` was the first
      one rejected and the error points at it. */
  lemma AnalysisErrorAt(ts: seq<Token>) returns (k: nat)
    requires Analysis(ts).Err?
    ensures k <= |ts|
    ensures k == |ts| <==> Feed(Initial, ts).Ok?
    ensures k == |ts| ==> Analysis(ts).error == EndOfStream(ts)
    ensures k < |ts| ==>
      && Feed(Initial, ts[..k]).Ok?
      && !Feed(Initial, ts[..k]).value.state.Terminal()
      && Step(Feed(Initial, ts[..k]).value, ts[k]) == Err(Analysis(ts).error)
      && Analysis(ts).error.position == ts[k].position
      && Analysis(ts).error.tokenLength == |ts[k].word|
  {
    if Feed(Initial, ts).Ok? {
      k := |ts|;
    } else {
      k := FeedErrorAt(Initial, ts);
    }
  }

  /** The two end-of-stream errors: an empty stream is reported at 0 with
      no span; otherwise one character just past the last token. */
  lemma EndOfStreamAt(ts: seq<Token>)
    ensures |ts| == 0 ==> Analysis(ts) == Err(LexerError(Syntax, MissingVarKeyword, 0, 0))
    ensures |ts| > 0 && Feed(Initial, ts).Ok? && !Feed(Initial, ts).value.state.Terminal() ==>
      var last := ts[|ts| - 1];
      Analysis(ts) == Err(LexerError(Syntax, MissingSemicolon, last.position + |last.word|, 1))
  {
  }

  // How the statement ends.

  /** A turn stops the automaton exactly when it reads `;` in `SimpleType`
      or `ArrayType`; it then stops in `Finish`. */
  lemma StepStops(c: Context, tok: Token)
    requires !c.state.Terminal()
    ensures (Step(c, tok).Ok? && Step(c, tok).value.state.Terminal())
        <==> ((c.state == SimpleType || c.state == ArrayType) && tok.word == ";")
    ensures Step(c, tok).Ok? && Step(c, tok).value.state.Terminal() ==> Step(c, tok).value.state == State.Finish
  {
  }

  /** A feed that stops, stops on one token `ts[k]` after accepting all
      the tokens before it. */
  lemma {:induction false} FeedStopsAt(c: Context, ts: seq<Token>) returns (k: nat)
    requires !c.state.Terminal() && Feed(c, ts).Ok? && Feed(c, ts).value.state.Terminal()
    ensures k < |ts|
    ensures Feed(c, ts[..k]).Ok? && !Feed(c, ts[..k]).value.state.Terminal()
    ensures Step(Feed(c, ts[..k]).value, ts[k]) == Feed(c, ts)
    decreases |ts|
  {
    assert ts[..0] == [];
    var c' := Step(c, ts[0]).value;
    if c'.state.Terminal() {
      k := 0;
    } else {
      var j := FeedStopsAt(c', ts[1..]);
      k := j + 1;
      assert ts[..k][0] == ts[0] && ts[..k][1..] == ts[1..][..j];
      assert ts[k] == ts[1..][j];
    }
  }

  /** Feeding one more token to an accepted prefix gives that token's turn. */
  lemma FeedOneMore(c: Context, ts: seq<Token>, k: nat)
    requires k < |ts| && Feed(c, ts[..k]).Ok? && !Feed(c, ts[..k]).value.state.Terminal()
    requires Step(Feed(c, ts[..k]).value, ts[k]).Ok?
    ensures Feed(c, ts[..k + 1]) == Step(Feed(c, ts[..k]).value, ts[k])
  {
    assert ts[..k + 1] == ts[..k] + [ts[k]];
    FeedAppend(c, ts[..k], [ts[k]]);
    assert [ts[k]][1..] == [];
  }

  /** A statement is accepted only on a `;` read after a complete
      declaration (in `SimpleType` or `ArrayType`), and the outcome is that
      of the tokens up to that `;`. */
  lemma SuccessEndsAtSemicolon(ts: seq<Token>) returns (k: nat)
    requires Analysis(ts).Ok?
    ensures k < |ts| && ts[k].word == ";"
    ensures Feed(Initial, ts[..k]).Ok?
    ensures Feed(Initial, ts[..k]).value.state == SimpleType || Feed(Initial, ts[..k]).value.state == ArrayType
    ensures Analysis(ts[..k + 1]) == Analysis(ts)
  {
    k := FeedStopsAt(Initial, ts);
    StepStops(Feed(Initial, ts[..k]).value, ts[k]);
    FeedOneMore(Initial, ts, k);
  }

  // What a successful run binds.

  /** The two bounds of one range, as written. */
  datatype Bound = Bound(low: string, high: string)

  /** A type descriptor: a simple type, or an array of a simple type over
      one or two ranges, with the words `array` and `of` as written. */
  datatype Descriptor =
    | Simple(name: string)
    | ArrayOf(arrayWord: string, ranges: seq<Bound>, ofWord: string, element: string)

  /** An integer literal whose value fits in 16 bits. */
  predicate InI16(w: string) {
    Classifiers.IsIntegerLiteral(w) && Classifiers.I16Min <= Classifiers.Value(w) <= Classifiers.I16Max
  }

  /** Both bounds fit in 16 bits and the lower one is the smaller. */
  predicate ValidBound(b: Bound) {
    InI16(b.low) && InI16(b.high) && Classifiers.Value(b.low) < Classifiers.Value(b.high)
  }

  predicate ValidRanges(rs: seq<Bound>) {
    forall i :: 0 <= i < |rs| ==> ValidBound(rs[i])
  }

  /** A name the `Definition` state accepts into an empty context. */
  predicate ValidName(n: string) {
    Classifiers.IsIdentifierText(n) && |n| <= MaxIdentifierLength && !IsKeyword(Lower(n))
  }

  /** A lower-case simple type, or a well-formed array of at most two ranges. */
  predicate ValidDescriptor(d: Descriptor) {
    match d
    case Simple(name) => IsSimpleType(name)
    case ArrayOf(arrayWord, ranges, ofWord, element) =>
      && Lower(arrayWord) == "array" && 1 <= |ranges| <= 2 && ValidRanges(ranges)
      && Lower(ofWord) == "of" && IsSimpleType(Lower(element))
  }

  function RangeText(b: Bound): string {
    b.low + ":" + b.high
  }

  /** The ranges, separated by commas. */
  function RangesText(rs: seq<Bound>): string {
    if |rs| == 0 then ""
    else if |rs| == 1 then RangeText(rs[0])
    else RangeText(rs[0]) + "," + RangesText(rs[1..])
  }

  /** The text stored for a descriptor: the simple type, or the lexemes of
      the array type run together with one space after `of`. */
  function Render(d: Descriptor): string {
    match d
    case Simple(name) => name
    case ArrayOf(arrayWord, ranges, ofWord, element) =>
      arrayWord + "[" + RangesText(ranges) + "]" + ofWord + " " + element
  }

  /** Every name in the table is a valid name bound to the rendering of a
      valid descriptor. */
  predicate TableRendered(identifiers: SymbolTable, descs: map<string, Descriptor>) {
    && identifiers.Keys == descs.Keys
    && forall n :: n in identifiers ==>
         ValidName(n) && ValidDescriptor(descs[n]) && identifiers[n] == Render(descs[n])
  }

  /** The states between `array` and the element type, where the array
      type text is collected. */
  predicate Collecting(s: State) {
    || s == Array || s == RangesStart || s == FirstRangeBeginValue || s == FirstRangeDelimiter
    || s == FirstRangeEndValue || s == RangesDelimiter || s == SecondRangeBeginValue
    || s == SecondRangeDelimiter || s == SecondRangeEndValue || s == RangesEnd || s == Of
  }

  /** The array type read so far: its `array` word, the finished ranges,
      the lower bound of the open range and the `of` word. */
  datatype Draft = Draft(arrayWord: string, done: seq<Bound>, low: string, ofWord: string)

  /** The collected text is the draft written out, state by state, and the
      kept lower bound is the value of the open range's lower bound. */
  predicate Drafted(c: Context, d: Draft) {
    var head := d.arrayWord + "[";
    match c.state
    case Array => |d.done| == 0 && c.arrayType == d.arrayWord
    case RangesStart => |d.done| == 0 && c.arrayType == head
    case FirstRangeBeginValue =>
      |d.done| == 0 && InI16(d.low) && c.leftBound == Classifiers.Value(d.low) && c.arrayType == head + d.low
    case FirstRangeDelimiter =>
      |d.done| == 0 && InI16(d.low) && c.leftBound == Classifiers.Value(d.low) && c.arrayType == head + d.low + ":"
    case FirstRangeEndValue => |d.done| == 1 && c.arrayType == head + RangesText(d.done)
    case RangesDelimiter => |d.done| == 1 && c.arrayType == head + RangesText(d.done) + ","
    case SecondRangeBeginValue =>
      && |d.done| == 1 && InI16(d.low) && c.leftBound == Classifiers.Value(d.low)
      && c.arrayType == head + RangesText(d.done) + "," + d.low
    case SecondRangeDelimiter =>
      && |d.done| == 1 && InI16(d.low) && c.leftBound == Classifiers.Value(d.low)
      && c.arrayType == head + RangesText(d.done) + "," + d.low + ":"
    case SecondRangeEndValue => |d.done| == 2 && c.arrayType == head + RangesText(d.done)
    case RangesEnd => 1 <= |d.done| <= 2 && c.arrayType == head + RangesText(d.done) + "]"
    case Of =>
      && 1 <= |d.done| <= 2 && Lower(d.ofWord) == "of"
      && c.arrayType == head + RangesText(d.done) + "]" + d.ofWord + " "
    case _ => true
  }

  /** What justifies a context: the descriptors behind its table and the
      draft behind its array text. */
  datatype Witness = Witness(descs: map<string, Descriptor>, draft: Draft)

  /** The invariant of the automaton's working state. */
  predicate Inv(c: Context, w: Witness) {
    && c.state != State.Error
    && TableRendered(c.identifiers, w.descs)
    && (forall n :: n in c.pending ==> ValidName(n))
    && (c.state == State.Start || c.state == SimpleType || c.state == ArrayType || c.state == State.Finish ==> c.pending == {})
    && (c.collecting <==> Collecting(c.state))
    && (!c.collecting ==> c.arrayType == "")
    && (Collecting(c.state) ==> Lower(w.draft.arrayWord) == "array" && ValidRanges(w.draft.done))
    && Drafted(c, w.draft)
  }

  lemma InitialInv()
    ensures Inv(Initial, Witness(map[], Draft("", [], "", "")))
  {
  }

  /** None of the words the collecting states accept lower-cases to `of`,
      except `of` itself: no stray space enters the array text. */
  lemma NotOfWord(w: string)
    requires Classifiers.IsIntegerLiteral(w) || |w| == 1 || IsSimpleType(Lower(w))
    ensures Lower(w) != "of"
  {
    if Classifiers.IsIntegerLiteral(w) && |w| == 2 {
      assert Classifiers.AllDigits(w) || w[1..][0] == w[1];
      assert Lower(w)[1] == LowerChar(w[1]);
    }
  }

  lemma RangesTextSnoc(rs: seq<Bound>, b: Bound)
    requires |rs| <= 1
    ensures RangesText(rs + [b]) == if |rs| == 0 then RangeText(b) else RangesText(rs) + "," + RangeText(b)
  {
    if |rs| == 1 {
      assert (rs + [b])[1..] == [b];
    }
  }

  /** `Definition`: the new name joins the pending set. */
  lemma KeepDefinition(c: Context, tok: Token, w: Witness)
    requires c.state == Definition && Inv(c, w) && Step(c, tok).Ok?
    ensures Inv(Step(c, tok).value, w)
  {
    assert Step(c, tok) == Ok(c.(state := Identifier, pending := c.pending + {tok.word}));
  }

  /** The separators outside a type: only the state changes. */
  lemma KeepSeparator(c: Context, tok: Token, w: Witness)
    requires c.state in {State.Start, Identifier, SimpleType, ArrayType}
    requires Inv(c, w) && Step(c, tok).Ok?
    ensures Inv(Step(c, tok).value, w)
  {
    var s := Step(c, tok).value.state;
    assert Step(c, tok) == Ok(c.(state := s));
    assert s in {Definition, Type, State.Finish};
  }

  /** Binding the pending names to one valid descriptor keeps the table
      rendered. */
  lemma BindKeepsTable(identifiers: SymbolTable, pending: set<string>, descs: map<string, Descriptor>, d: Descriptor)
    requires TableRendered(identifiers, descs) && ValidDescriptor(d)
    requires forall n :: n in pending ==> ValidName(n)
    ensures TableRendered(Bind(identifiers, pending, Render(d)), descs + map n | n in pending :: d)
  {
    var m := Bind(identifiers, pending, Render(d));
    var ds := descs + map n | n in pending :: d;
    assert ds.Keys == descs.Keys + pending;
    forall n | n in m ensures ValidName(n) && ValidDescriptor(ds[n]) && m[n] == Render(ds[n]) {
      if n in pending {
        assert ds[n] == d;
      } else {
        assert ds[n] == descs[n];
      }
    }
  }

  /** `Type`: a simple type binds the pending names; `array` opens a draft. */
  lemma KeepType(c: Context, tok: Token, w: Witness) returns (w': Witness)
    requires c.state == Type && Inv(c, w) && Step(c, tok).Ok?
    ensures Inv(Step(c, tok).value, w')
  {
    var lower := TypeStep(c, tok);
    if IsSimpleType(lower) {
      w' := w.(descs := w.descs + map n | n in c.pending :: Simple(lower));
      BindKeepsTable(c.identifiers, c.pending, w.descs, Simple(lower));
      SettledInv(c.(state := SimpleType, identifiers := Bind(c.identifiers, c.pending, lower), pending := {}), w');
    } else {
      w' := w.(draft := Draft(tok.word, [], "", ""));
      OpenedInv(c, tok.word, w');
    }
  }

  /** A context between statements' types: nothing pending, nothing collected. */
  lemma SettledInv(c: Context, w: Witness)
    requires c.state == SimpleType || c.state == ArrayType
    requires TableRendered(c.identifiers, w.descs) && c.pending == {} && !c.collecting && c.arrayType == ""
    ensures Inv(c, w)
  {
  }

  /** The context right after `array`. */
  lemma OpenedInv(c: Context, word: string, w: Witness)
    requires TableRendered(c.identifiers, w.descs) && (forall n :: n in c.pending ==> ValidName(n))
    requires Lower(word) == "array" && w.draft == Draft(word, [], "", "")
    ensures Inv(c.(state := Array, collecting := true, arrayType := word), w)
  {
  }

  /** The context after an accepted type word. */
  lemma TypeStep(c: Context, tok: Token) returns (lower: string)
    requires c.state == Type && !c.collecting && c.arrayType == "" && Step(c, tok).Ok?
    ensures lower == Lower(tok.word)
    ensures IsSimpleType(lower) ==>
      Step(c, tok) == Ok(c.(state := SimpleType, identifiers := Bind(c.identifiers, c.pending, lower), pending := {}))
    ensures !IsSimpleType(lower) ==>
      lower == "array" && Step(c, tok) == Ok(c.(state := Array, collecting := true, arrayType := tok.word))
  {
    lower := Lower(tok.word);
    assert Collect(c, tok.word) == "";
    if !IsSimpleType(lower) {
      assert "" + tok.word == tok.word;
    }
  }

  /** The one-character words inside the array type: `[`, `:`, `,`, `]`. */
  lemma KeepPunctuation(c: Context, tok: Token, w: Witness)
    requires c.state in {Array, FirstRangeBeginValue, FirstRangeEndValue, SecondRangeBeginValue, SecondRangeEndValue}
    requires Inv(c, w) && Step(c, tok).Ok?
    ensures Inv(Step(c, tok).value, w)
  {
    assert |tok.word| == 1;
    NotOfWord(tok.word);
    assert Collect(c, tok.word) == c.arrayType + tok.word;
    var s := Step(c, tok).value.state;
    assert Step(c, tok) == Ok(c.(state := s, arrayType := c.arrayType + tok.word));
    PunctuationDrafted(c, tok.word, w.draft, s);
  }

  lemma PunctuationDrafted(c: Context, p: string, d: Draft, next: State)
    requires Drafted(c, d)
    requires || (c.state == Array && p == "[" && next == RangesStart)
             || (c.state == FirstRangeBeginValue && p == ":" && next == FirstRangeDelimiter)
             || (c.state == FirstRangeEndValue && p == "," && next == RangesDelimiter)
             || (c.state == FirstRangeEndValue && p == "]" && next == RangesEnd)
             || (c.state == SecondRangeBeginValue && p == ":" && next == SecondRangeDelimiter)
             || (c.state == SecondRangeEndValue && p == "]" && next == RangesEnd)
    ensures Drafted(c.(state := next, arrayType := c.arrayType + p), d)
  {
  }

  /** The lower bound of a range is kept in the draft and in the context. */
  lemma KeepLowerBound(c: Context, tok: Token, w: Witness) returns (w': Witness)
    requires c.state == RangesStart || c.state == RangesDelimiter
    requires Inv(c, w) && Step(c, tok).Ok?
    ensures Inv(Step(c, tok).value, w')
  {
    var lit := tok.word;
    var next := if c.state == RangesStart then FirstRangeBeginValue else SecondRangeBeginValue;
    assert Classifiers.IsIntegerLiteral(lit) && Classifiers.IsIntegerInRange(lit);
    NotOfWord(lit);
    Classifiers.IntegerInRangeIff(lit);
    Classifiers.ParseI16Succeeds(lit);
    assert Collect(c, lit) == c.arrayType + lit;
    var c' := c.(state := next, arrayType := c.arrayType + lit, leftBound := Classifiers.Value(lit));
    assert Step(c, tok) == Ok(c');
    w' := w.(draft := w.draft.(low := lit));
    LowerBoundDrafted(c, lit, w.draft, next);
  }

  lemma LowerBoundDrafted(c: Context, lit: string, d: Draft, next: State)
    requires c.state == RangesStart || c.state == RangesDelimiter
    requires next == if c.state == RangesStart then FirstRangeBeginValue else SecondRangeBeginValue
    requires Drafted(c, d) && InI16(lit)
    ensures Drafted(c.(state := next, arrayType := c.arrayType + lit, leftBound := Classifiers.Value(lit)), d.(low := lit))
  {
  }

  /** The upper bound of a range closes it, above its lower bound. */
  lemma KeepUpperBound(c: Context, tok: Token, w: Witness) returns (w': Witness)
    requires c.state == FirstRangeDelimiter || c.state == SecondRangeDelimiter
    requires Inv(c, w) && Step(c, tok).Ok?
    ensures Inv(Step(c, tok).value, w')
  {
    var lit := tok.word;
    var next := if c.state == FirstRangeDelimiter then FirstRangeEndValue else SecondRangeEndValue;
    assert Classifiers.IsIntegerLiteral(lit) && Classifiers.IsIntegerInRange(lit);
    NotOfWord(lit);
    Classifiers.IntegerInRangeIff(lit);
    Classifiers.ParseI16Succeeds(lit);
    assert Classifiers.Value(lit) > c.leftBound;
    assert Collect(c, lit) == c.arrayType + lit;
    var c' := c.(state := next, arrayType := c.arrayType + lit);
    assert Step(c, tok) == Ok(c');
    var b := Bound(w.draft.low, lit);
    w' := w.(draft := w.draft.(done := w.draft.done + [b]));
    UpperBoundDrafted(c, lit, w.draft, next);
  }

  lemma UpperBoundDrafted(c: Context, lit: string, d: Draft, next: State)
    requires c.state == FirstRangeDelimiter || c.state == SecondRangeDelimiter
    requires next == if c.state == FirstRangeDelimiter then FirstRangeEndValue else SecondRangeEndValue
    requires Drafted(c, d) && ValidRanges(d.done) && InI16(lit) && Classifiers.Value(lit) > c.leftBound
    ensures Drafted(c.(state := next, arrayType := c.arrayType + lit), d.(done := d.done + [Bound(d.low, lit)]))
    ensures ValidRanges(d.done + [Bound(d.low, lit)])
  {
    var b := Bound(d.low, lit);
    assert ValidBound(b);
    RangesTextSnoc(d.done, b);
    if c.state == FirstRangeDelimiter {
      FirstRangeClosed(c.arrayType, lit, d);
    } else {
      SecondRangeClosed(c.arrayType, lit, d);
    }
  }

  lemma FirstRangeClosed(text: string, lit: string, d: Draft)
    requires |d.done| == 0 && text == d.arrayWord + "[" + d.low + ":"
    ensures text + lit == d.arrayWord + "[" + RangesText(d.done + [Bound(d.low, lit)])
  {
    RangesTextSnoc(d.done, Bound(d.low, lit));
  }

  lemma SecondRangeClosed(text: string, lit: string, d: Draft)
    requires |d.done| == 1 && text == d.arrayWord + "[" + RangesText(d.done) + "," + d.low + ":"
    ensures text + lit == d.arrayWord + "[" + RangesText(d.done + [Bound(d.low, lit)])
  {
    RangesTextSnoc(d.done, Bound(d.low, lit));
  }

  /** `of` enters the array text followed by one space. */
  lemma KeepOf(c: Context, tok: Token, w: Witness) returns (w': Witness)
    requires Inv(c, w) && c.state == RangesEnd && Step(c, tok).Ok?
    ensures Inv(Step(c, tok).value, w')
  {
    w' := w.(draft := w.draft.(ofWord := tok.word));
    var head := w.draft.arrayWord + "[";
    assert Step(c, tok).value.arrayType == head + RangesText(w.draft.done) + "]" + tok.word + " ";
  }

  /** The element type completes the array text, which the pending names
      are bound to. */
  lemma KeepElement(c: Context, tok: Token, w: Witness) returns (w': Witness)
    requires c.state == Of && Inv(c, w) && Step(c, tok).Ok?
    ensures Inv(Step(c, tok).value, w')
  {
    ElementStep(c, tok);
    w' := ElementKeepsInv(c, tok.word, w);
  }

  /** The context after an accepted element type. */
  lemma ElementStep(c: Context, tok: Token)
    requires c.state == Of && c.collecting && Step(c, tok).Ok?
    ensures IsSimpleType(Lower(tok.word))
    ensures Step(c, tok) == Ok(c.(state := ArrayType, identifiers := Bind(c.identifiers, c.pending, c.arrayType + tok.word),
                                  pending := {}, arrayType := "", collecting := false))
  {
    assert IsSimpleType(Lower(tok.word));
    NotOfWord(tok.word);
    assert Collect(c, tok.word) == c.arrayType + tok.word;
  }

  lemma ElementKeepsInv(c: Context, element: string, w: Witness) returns (w': Witness)
    requires c.state == Of && Inv(c, w) && IsSimpleType(Lower(element))
    ensures Inv(c.(state := ArrayType, identifiers := Bind(c.identifiers, c.pending, c.arrayType + element),
                   pending := {}, arrayType := "", collecting := false), w')
  {
    var d := w.draft;
    var desc := ArrayOf(d.arrayWord, d.done, d.ofWord, element);
    assert ValidDescriptor(desc);
    ElementCompletes(c.arrayType, d, element);
    w' := w.(descs := w.descs + map n | n in c.pending :: desc);
    BindKeepsTable(c.identifiers, c.pending, w.descs, desc);
    SettledInv(c.(state := ArrayType, identifiers := Bind(c.identifiers, c.pending, Render(desc)),
                  pending := {}, arrayType := "", collecting := false), w');
  }

  /** The element type written after `of ` completes the array descriptor. */
  lemma ElementCompletes(text: string, d: Draft, element: string)
    requires text == d.arrayWord + "[" + RangesText(d.done) + "]" + d.ofWord + " "
    ensures text + element == Render(ArrayOf(d.arrayWord, d.done, d.ofWord, element))
  {
  }

  /** Every accepted turn keeps the invariant. */
  lemma StepKeepsInv(c: Context, tok: Token, w: Witness) returns (w': Witness)
    requires Inv(c, w) && !c.state.Terminal() && Step(c, tok).Ok?
    ensures Inv(Step(c, tok).value, w')
  {
    match c.state
    case Type => w' := KeepType(c, tok, w);
    case RangesStart => w' := KeepLowerBound(c, tok, w);
    case RangesDelimiter => w' := KeepLowerBound(c, tok, w);
    case FirstRangeDelimiter => w' := KeepUpperBound(c, tok, w);
    case SecondRangeDelimiter => w' := KeepUpperBound(c, tok, w);
    case RangesEnd => w' := KeepOf(c, tok, w);
    case Of => w' := KeepElement(c, tok, w);
    case Array => w' := w; KeepPunctuation(c, tok, w);
    case FirstRangeBeginValue => w' := w; KeepPunctuation(c, tok, w);
    case FirstRangeEndValue => w' := w; KeepPunctuation(c, tok, w);
    case SecondRangeBeginValue => w' := w; KeepPunctuation(c, tok, w);
    case SecondRangeEndValue => w' := w; KeepPunctuation(c, tok, w);
    case Definition => w' := w; KeepDefinition(c, tok, w);
    case Start => w' := w; KeepSeparator(c, tok, w);
    case Identifier => w' := w; KeepSeparator(c, tok, w);
    case SimpleType => w' := w; KeepSeparator(c, tok, w);
    case ArrayType => w' := w; KeepSeparator(c, tok, w);
  }

  /** Every accepted run keeps the invariant. */
  lemma {:induction false} FeedKeepsInv(c: Context, ts: seq<Token>, w: Witness) returns (w': Witness)
    requires Inv(c, w) && Feed(c, ts).Ok?
    ensures Inv(Feed(c, ts).value, w')
    decreases |ts|
  {
    if c.state.Terminal() || |ts| == 0 {
      w' := w;
    } else {
      var v := StepKeepsInv(c, ts[0], w);
      w' := FeedKeepsInv(Step(c, ts[0]).value, ts[1..], v);
    }
  }

  /** On success every name in the table is an identifier of at most
      eight characters that is not a reserved word, bound either to its
      lower-cased simple type or to the text of a well-formed array type
      of one or two increasing 16-bit ranges; and no name is left pending. */
  lemma TableWellFormed(ts: seq<Token>) returns (descs: map<string, Descriptor>)
    requires Analysis(ts).Ok?
    ensures descs.Keys == Analysis(ts).value.Keys
    ensures forall n :: n in descs ==>
      && ValidName(n) && ValidDescriptor(descs[n])
      && Analysis(ts).value[n] == Render(descs[n])
    ensures Feed(Initial, ts).value.state == State.Finish && Feed(Initial, ts).value.pending == {}
  {
    InitialInv();
    var w := FeedKeepsInv(Initial, ts, Witness(map[], Draft("", [], "", "")));
    descs := w.descs;
  }

  // Which names end up in the table.

  /** The words read in the `Definition` state before the automaton stops. */
  function Declared(c: Context, ts: seq<Token>): set<string>
    decreases |ts|
  {
    if c.state.Terminal() || |ts| == 0 then {}
    else match Step(c, ts[0])
      case Err(_) => {}
      case Ok(c') => (if c.state == Definition then {ts[0].word} else {}) + Declared(c', ts[1..])
  }

  /** A turn adds to the names known (bound or pending) exactly the word
      read in `Definition`. */
  lemma StepDeclares(c: Context, tok: Token)
    requires !c.state.Terminal() && Step(c, tok).Ok?
    ensures Step(c, tok).value.identifiers.Keys + Step(c, tok).value.pending
         == c.identifiers.Keys + c.pending + (if c.state == Definition then {tok.word} else {})
  {
  }

  lemma {:induction false} FeedDeclares(c: Context, ts: seq<Token>)
    requires Feed(c, ts).Ok?
    ensures Feed(c, ts).value.identifiers.Keys + Feed(c, ts).value.pending
         == c.identifiers.Keys + c.pending + Declared(c, ts)
    decreases |ts|
  {
    if !c.state.Terminal() && |ts| != 0 {
      StepDeclares(c, ts[0]);
      FeedDeclares(Step(c, ts[0]).value, ts[1..]);
    }
  }

  /** On success the table's names are exactly the names declared: every
      word read in `Definition` is bound, and nothing else is. */
  lemma TableKeys(ts: seq<Token>)
    requires Analysis(ts).Ok?
    ensures Analysis(ts).value.Keys == Declared(Initial, ts)
  {
    FeedDeclares(Initial, ts);
    var _ := TableWellFormed(ts);
  }

  // The checks of single states.

  /** `Definition` accepts a word exactly when it is a valid name that is
      neither pending (same text) nor a table key (lower-cased text); the
      checks run in the order identifier, length, reserved word, taken,
      and only the first is a syntax error. */
  lemma DefinitionChecks(c: Context, tok: Token)
    requires c.state == Definition
    ensures Step(c, tok).Ok? <==> ValidName(tok.word) && tok.word !in c.pending && Lower(tok.word) !in c.identifiers
    ensures Step(c, tok).Ok? ==> Step(c, tok).value.pending == c.pending + {tok.word}
    ensures !Classifiers.IsIdentifierText(tok.word) ==> Step(c, tok) == Err(At(Syntax, InvalidIdentifier, tok))
    ensures Classifiers.IsIdentifierText(tok.word) && |tok.word| > MaxIdentifierLength
        ==> Step(c, tok) == Err(At(Semantic, IdentifierTooLong, tok))
    ensures Classifiers.IsIdentifierText(tok.word) && |tok.word| <= MaxIdentifierLength && IsKeyword(Lower(tok.word))
        ==> Step(c, tok) == Err(At(Semantic, ReservedWord, tok))
    ensures ValidName(tok.word) && (tok.word in c.pending || Lower(tok.word) in c.identifiers)
        ==> Step(c, tok) == Err(At(Semantic, AlreadyTaken, tok))
  {
  }

  /** Reserved words are recognised in any letter case. */
  lemma ReservedInAnyCase(c: Context, tok: Token)
    requires c.state == Definition && Classifiers.IsIdentifierText(tok.word) && |tok.word| <= MaxIdentifierLength
    requires Lower(tok.word) in Keywords
    ensures Step(c, tok) == Err(At(Semantic, ReservedWord, tok))
  {
  }

  /** No name can be spelt like a simple type, in any letter case: it is
      reserved. */
  lemma TypeNameReserved(c: Context, tok: Token)
    requires c.state == Definition && Classifiers.IsIdentifierText(tok.word) && |tok.word| <= MaxIdentifierLength
    requires IsSimpleType(Lower(tok.word))
    ensures Step(c, tok) == Err(At(Semantic, ReservedWord, tok))
  {
    ReservedWords(Lower(tok.word));
    ReservedInAnyCase(c, tok);
  }

  /** A range bound that is an integer literal outside [-32768, 32767] is
      a semantic error spanning the literal, even when it is too large for
      32 bits. */
  lemma BoundOutOfRange(c: Context, tok: Token)
    requires c.state in {RangesStart, FirstRangeDelimiter, RangesDelimiter, SecondRangeDelimiter}
    requires Classifiers.IsIntegerLiteral(tok.word) && !InI16(tok.word)
    ensures Step(c, tok) == Err(LexerError(Semantic, IntegerOutOfRange, tok.position, |tok.word|))
  {
    Classifiers.IntegerInRangeIff(tok.word);
  }

  /** A lower bound is accepted exactly when it is a 16-bit literal, and
      its value is kept. */
  lemma LowerBoundChecks(c: Context, tok: Token)
    requires c.state == RangesStart || c.state == RangesDelimiter
    ensures Step(c, tok).Ok? <==> InI16(tok.word)
    ensures Step(c, tok).Ok? ==> Step(c, tok).value.leftBound == Classifiers.Value(tok.word)
    ensures !Classifiers.IsIntegerLiteral(tok.word) ==> Step(c, tok) == Err(At(Syntax, ExpectedInteger, tok))
  {
    Classifiers.IntegerInRangeIff(tok.word);
    if InI16(tok.word) {
      Classifiers.ParseI16Succeeds(tok.word);
    }
  }

  /** An upper bound is accepted exactly when it is a 16-bit literal above
      the kept lower bound; one at or below it is a semantic error. */
  lemma UpperBoundChecks(c: Context, tok: Token)
    requires c.state == FirstRangeDelimiter || c.state == SecondRangeDelimiter
    ensures Step(c, tok).Ok? <==> InI16(tok.word) && Classifiers.Value(tok.word) > c.leftBound
    ensures InI16(tok.word) && Classifiers.Value(tok.word) <= c.leftBound
        ==> Step(c, tok) == Err(At(Semantic, BoundsNotIncreasing, tok))
  {
    Classifiers.IntegerInRangeIff(tok.word);
    if InI16(tok.word) {
      Classifiers.ParseI16Succeeds(tok.word);
    }
  }

  /** `[` must be followed by a bound: empty brackets are a syntax error. */
  lemma EmptyBracketsRejected(c: Context, tok: Token)
    requires c.state == RangesStart && tok.word == "]"
    ensures Step(c, tok) == Err(At(Syntax, ExpectedInteger, tok))
  {
    assert tok.word[0] == ']' && !IsDigit(tok.word[0]);
  }

  /** After the second range only `]` is accepted: there is no third
      dimension. */
  lemma SecondRangeCloses(c: Context, tok: Token)
    requires c.state == SecondRangeEndValue
    ensures Step(c, tok).Ok? <==> tok.word == "]"
    ensures Step(c, tok).Ok? ==> Step(c, tok).value.state == RangesEnd
  {
  }
}
