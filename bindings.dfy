/** Which tokens each entry of the symbol table comes from: a name is bound
    to the type read after the last declaration of that name, in the words
    of that type (src/lib.rs:291-326, 340-346, 554-564). Everything here is
    stated over token indices and the state each token was read in. */
module Bindings {
  import opened Lexemes
  import opened Analyzer
  import opened AnalyzerFacts

  /** The state token `i` of `ts` was read in: the state the automaton is in
      after the tokens before it (`Error` when the run failed earlier). */
  function StateBefore(ts: seq<Token>, i: nat): State {
    if i > |ts| then State.Error
    else match Feed(Initial, ts[..i])
      case Ok(c) => c.state
      case Err(_) => State.Error
  }

  /** The state each token of `ts` was read in. */
  function States(ts: seq<Token>): (st: seq<State>)
    ensures |st| == |ts|
  {
    seq(|ts|, k requires 0 <= k < |ts| => StateBefore(ts, k))
  }

  // Below, `st` is `States(ts)`.

  /** Token `j` declares the name `n`: it is `n`, read in `Definition`. */
  predicate DefinedAt(ts: seq<Token>, st: seq<State>, j: nat, n: string) {
    j < |ts| && j < |st| && st[j] == Definition && ts[j].word == n
  }

  /** Token `k` binds the pending names: a simple type read in `Type`, or
      the element type read in `Of`. */
  predicate BindsAt(ts: seq<Token>, st: seq<State>, k: nat) {
    k < |ts| && k < |st| && (st[k] == Of || (st[k] == Type && IsSimpleType(Lower(ts[k].word))))
  }

  /** No token strictly between `j` and `i` declares `n` again. */
  predicate NoLaterDefinition(ts: seq<Token>, st: seq<State>, j: nat, n: string, i: nat) {
    forall m: nat :: j < m < i ==> !DefinedAt(ts, st, m, n)
  }

  /** No token strictly between `j` and `k` binds. */
  predicate Unbound(ts: seq<Token>, st: seq<State>, j: nat, k: nat) {
    forall m: nat :: j < m < k ==> !BindsAt(ts, st, m)
  }

  /** No token strictly between `a` and `i` is read in `Definition`. */
  predicate NoDefinitionBetween(st: seq<State>, a: nat, i: nat) {
    forall m: nat :: a < m < i && m < |st| ==> st[m] != Definition
  }

  /** No token strictly between `j` and `k` is read in `Type`. */
  predicate NoTypeBetween(st: seq<State>, j: nat, k: nat) {
    forall m: nat :: j < m < k && m < |st| ==> st[m] != Type
  }

  /** The only token strictly between `j` and `k` read in `Type`, if any, is `a`. */
  predicate TypeOnlyAt(st: seq<State>, j: nat, k: nat, a: nat) {
    forall m: nat :: j < m < k && m < |st| && st[m] == Type ==> m == a
  }

  /** The words of `ws` written one after the other, with one space after
      each `of` (in any letter case) and nowhere else. */
  function Spell(ws: seq<Token>): string {
    if |ws| == 0 then ""
    else
      var w := ws[|ws| - 1].word;
      Spell(ws[..|ws| - 1]) + w + (if Lower(w) == "of" then " " else "")
  }

  /** Where one entry comes from: the declaring token, the binding token and,
      for an array type, its `array` token. */
  datatype Origin = Origin(def: nat, bind: nat, start: nat)

  /** The text `v` is the type read at `o.bind`: the lower-cased simple type
      when that token was read in `Type` (and no earlier token since `o.def`
      was), and otherwise (read in `Of`) the words from the `array` token
      `o.start`, the only token since `o.def` read in `Type`, through the
      element type. */
  predicate Valued(ts: seq<Token>, st: seq<State>, o: Origin, v: string) {
    o.bind < |ts| && o.bind < |st| &&
    if st[o.bind] == Type then v == Lower(ts[o.bind].word) && NoTypeBetween(st, o.def, o.bind)
    else
      && o.def < o.start < o.bind && st[o.start] == Type && Lower(ts[o.start].word) == "array"
      && TypeOnlyAt(st, o.def, o.bind, o.start) && v == Spell(ts[o.start..o.bind + 1])
  }

  /** After the first `i` tokens, `n` is bound to `v` as `o` says: `o.def`
      is the last declaration of `n` so far and `o.bind` the first binding
      after it. */
  predicate Settled(ts: seq<Token>, st: seq<State>, i: nat, n: string, v: string, o: Origin) {
    && o.def < o.bind < i <= |ts|
    && DefinedAt(ts, st, o.def, n) && NoLaterDefinition(ts, st, o.def, n, i)
    && BindsAt(ts, st, o.bind) && Unbound(ts, st, o.def, o.bind)
    && Valued(ts, st, o, v)
  }

  /** After the first `i` tokens, `n` waits for its type since its last
      declaration `j`; once an array type is being collected, its `array`
      token `a` is the only token since `j` read in `Type`, and before that
      there is none. */
  predicate Waiting(ts: seq<Token>, st: seq<State>, i: nat, n: string, j: nat, collecting: bool, a: nat) {
    && j < i <= |ts| && DefinedAt(ts, st, j, n) && NoLaterDefinition(ts, st, j, n, i) && Unbound(ts, st, j, i)
    && if collecting then TypeOnlyAt(st, j, i, a) else NoTypeBetween(st, j, i)
  }

  /** The array type text collected so far spells the tokens from its
      `array` token `a`, read in `Type`, up to token `i`. */
  predicate Spelling(ts: seq<Token>, st: seq<State>, i: nat, text: string, a: nat) {
    && a < i <= |ts| && a < |st| && st[a] == Type && Lower(ts[a].word) == "array"
    && text == Spell(ts[a..i]) && NoDefinitionBetween(st, a, i)
  }

  /** The origins of the entries, of the pending names and of the array
      type being read. */
  datatype History = History(origins: map<string, Origin>, since: map<string, nat>, start: nat)

  /** What the context after the first `i` tokens owes to those tokens. */
  predicate Traced(ts: seq<Token>, st: seq<State>, i: nat, c: Context, h: History) {
    && (c.collecting <==> Collecting(c.state))
    && (!c.collecting ==> c.arrayType == "")
    && (c.collecting ==> Spelling(ts, st, i, c.arrayType, h.start))
    && (forall n :: n in c.pending ==> n in h.since && Waiting(ts, st, i, n, h.since[n], c.collecting, h.start))
    && (forall n :: n in c.identifiers && n !in c.pending ==>
          n in h.origins && Settled(ts, st, i, n, c.identifiers[n], h.origins[n]))
  }

  // One more token, without looking at what the automaton does with it.

  lemma SpellSnoc(ts: seq<Token>, a: nat, i: nat)
    requires a <= i < |ts|
    ensures Spell(ts[a..i + 1]) == Spell(ts[a..i]) + ts[i].word + (if Lower(ts[i].word) == "of" then " " else "")
  {
    assert ts[a..i + 1][..i - a] == ts[a..i];
  }

  lemma SettledExtends(ts: seq<Token>, st: seq<State>, i: nat, n: string, v: string, o: Origin)
    requires Settled(ts, st, i, n, v, o) && i < |ts| && !DefinedAt(ts, st, i, n)
    ensures Settled(ts, st, i + 1, n, v, o)
  {
  }

  lemma WaitingExtends(ts: seq<Token>, st: seq<State>, i: nat, n: string, j: nat, collecting: bool, a: nat)
    requires Waiting(ts, st, i, n, j, collecting, a) && i < |ts| && !DefinedAt(ts, st, i, n) && !BindsAt(ts, st, i)
    requires i < |st| && st[i] != Type
    ensures Waiting(ts, st, i + 1, n, j, collecting, a)
  {
  }

  /** A token that neither declares nor binds, and leaves the table and the
      pending names alone. */
  lemma QuietTraced(ts: seq<Token>, st: seq<State>, i: nat, c: Context, c': Context, h: History)
    requires i < |ts| == |st| && st[i] != Definition && st[i] != Type && !BindsAt(ts, st, i)
    requires Traced(ts, st, i, c, h)
    requires c'.identifiers == c.identifiers && c'.pending == c.pending && c'.collecting == c.collecting
    requires (c'.collecting <==> Collecting(c'.state)) && (!c'.collecting ==> c'.arrayType == "")
    requires c'.collecting ==> Spelling(ts, st, i + 1, c'.arrayType, h.start)
    ensures Traced(ts, st, i + 1, c', h)
  {
    forall n | n in c'.pending
      ensures n in h.since && Waiting(ts, st, i + 1, n, h.since[n], c'.collecting, h.start)
    {
      WaitingExtends(ts, st, i, n, h.since[n], c.collecting, h.start);
    }
    forall n | n in c'.identifiers && n !in c'.pending
      ensures n in h.origins && Settled(ts, st, i + 1, n, c'.identifiers[n], h.origins[n])
    {
      SettledExtends(ts, st, i, n, c.identifiers[n], h.origins[n]);
    }
  }

  /** A declaration: the name read joins the pending names. */
  lemma DeclareTraced(ts: seq<Token>, st: seq<State>, i: nat, c: Context, h: History) returns (h': History)
    requires i < |ts| == |st| && c.state == Definition && st[i] == Definition
    requires Traced(ts, st, i, c, h) && ts[i].word !in c.pending
    ensures Traced(ts, st, i + 1, c.(state := Identifier, pending := c.pending + {ts[i].word}), h')
  {
    var w := ts[i].word;
    h' := h.(since := h.since[w := i]);
    var c' := c.(state := Identifier, pending := c.pending + {w});
    forall n | n in c'.pending
      ensures n in h'.since && Waiting(ts, st, i + 1, n, h'.since[n], false, h'.start)
    {
      if n != w {
        WaitingExtends(ts, st, i, n, h.since[n], false, h.start);
      }
    }
    forall n | n in c'.identifiers && n !in c'.pending
      ensures n in h'.origins && Settled(ts, st, i + 1, n, c'.identifiers[n], h'.origins[n])
    {
      SettledExtends(ts, st, i, n, c.identifiers[n], h.origins[n]);
    }
  }

  /** A binding token: every pending name gets its origin from its
      declaration and this token. */
  lemma BindTraced(ts: seq<Token>, st: seq<State>, i: nat, c: Context, c': Context, h: History, v: string)
    returns (h': History)
    requires i < |ts| == |st| && st[i] == c.state && BindsAt(ts, st, i) && Traced(ts, st, i, c, h)
    requires c.state == Type ==> v == Lower(ts[i].word)
    requires c.state == Of ==> c.collecting && v == Spell(ts[h.start..i + 1])
    requires c'.identifiers == Bind(c.identifiers, c.pending, v) && c'.pending == {}
    requires !c'.collecting && c'.arrayType == "" && !Collecting(c'.state)
    ensures Traced(ts, st, i + 1, c', h')
  {
    var added := map n | n in c.pending && n in h.since :: Origin(h.since[n], i, h.start);
    h' := h.(origins := h.origins + added);
    forall n | n in c'.identifiers
      ensures n in h'.origins && Settled(ts, st, i + 1, n, c'.identifiers[n], h'.origins[n])
    {
      if n in c.pending {
        PendingSettled(ts, st, i, c, h, v, n);
      } else {
        SettledExtends(ts, st, i, n, c.identifiers[n], h.origins[n]);
      }
    }
  }

  /** One pending name, bound at token `i`. */
  lemma PendingSettled(ts: seq<Token>, st: seq<State>, i: nat, c: Context, h: History, v: string, n: string)
    requires i < |ts| == |st| && st[i] == c.state && BindsAt(ts, st, i) && Traced(ts, st, i, c, h)
    requires c.state == Type ==> v == Lower(ts[i].word)
    requires c.state == Of ==> c.collecting && v == Spell(ts[h.start..i + 1])
    requires n in c.pending
    ensures n in h.since && Settled(ts, st, i + 1, n, v, Origin(h.since[n], i, h.start))
  {
    var j := h.since[n];
    assert Waiting(ts, st, i, n, j, c.collecting, h.start);
    if c.state == Of {
      // The declaration comes before the `array` token: no token after
      // that one is read in `Definition`.
      assert Spelling(ts, st, i, c.arrayType, h.start);
      assert j != h.start && !(h.start < j < i);
    }
  }

  // One more token, by the state it is read in.

  lemma SeparatorTraced(ts: seq<Token>, st: seq<State>, i: nat, c: Context, h: History)
    requires c.state in {State.Start, Identifier, SimpleType, ArrayType}
    requires i < |ts| == |st| && st[i] == c.state && Traced(ts, st, i, c, h) && Step(c, ts[i]).Ok?
    ensures Traced(ts, st, i + 1, Step(c, ts[i]).value, h)
  {
    var s := Step(c, ts[i]).value.state;
    assert Step(c, ts[i]) == Ok(c.(state := s));
    assert s in {Definition, Type, State.Finish};
    QuietTraced(ts, st, i, c, c.(state := s), h);
  }

  lemma DefinitionTraced(ts: seq<Token>, st: seq<State>, i: nat, c: Context, h: History) returns (h': History)
    requires c.state == Definition
    requires i < |ts| == |st| && st[i] == c.state && Traced(ts, st, i, c, h) && Step(c, ts[i]).Ok?
    ensures Traced(ts, st, i + 1, Step(c, ts[i]).value, h')
  {
    DefinitionChecks(c, ts[i]);
    assert Step(c, ts[i]) == Ok(c.(state := Identifier, pending := c.pending + {ts[i].word}));
    h' := DeclareTraced(ts, st, i, c, h);
  }

  lemma TypeTraced(ts: seq<Token>, st: seq<State>, i: nat, c: Context, h: History) returns (h': History)
    requires c.state == Type
    requires i < |ts| == |st| && st[i] == c.state && Traced(ts, st, i, c, h) && Step(c, ts[i]).Ok?
    ensures Traced(ts, st, i + 1, Step(c, ts[i]).value, h')
  {
    var lower := TypeStep(c, ts[i]);
    var c' := Step(c, ts[i]).value;
    if IsSimpleType(lower) {
      h' := BindTraced(ts, st, i, c, c', h, lower);
    } else {
      h' := ArrayOpened(ts, st, i, c, c', h);
    }
  }

  /** `array` read in `Type`: the collected text starts at this token, and
      it is the only token read in `Type` since each pending declaration. */
  lemma ArrayOpened(ts: seq<Token>, st: seq<State>, i: nat, c: Context, c': Context, h: History) returns (h': History)
    requires i < |ts| == |st| && st[i] == Type && c.state == Type && Traced(ts, st, i, c, h)
    requires Lower(ts[i].word) == "array" && !IsSimpleType(Lower(ts[i].word))
    requires c' == c.(state := Array, collecting := true, arrayType := ts[i].word)
    ensures Traced(ts, st, i + 1, c', h')
  {
    h' := h.(start := i);
    assert ts[i..i + 1][..0] == [];
    assert Spelling(ts, st, i + 1, ts[i].word, i);
    forall n | n in c'.pending
      ensures n in h'.since && Waiting(ts, st, i + 1, n, h'.since[n], true, i)
    {
      assert Waiting(ts, st, i, n, h.since[n], false, h.start);
    }
    forall n | n in c'.identifiers && n !in c'.pending
      ensures n in h'.origins && Settled(ts, st, i + 1, n, c'.identifiers[n], h'.origins[n])
    {
      SettledExtends(ts, st, i, n, c.identifiers[n], h.origins[n]);
    }
  }

  /** Inside an array type, before its element: the table and the pending
      names stay, the text grows by the word read. */
  lemma CollectingStep(c: Context, tok: Token)
    requires Collecting(c.state) && c.state != Of && c.collecting && Step(c, tok).Ok?
    ensures var c' := Step(c, tok).value;
      && c'.identifiers == c.identifiers && c'.pending == c.pending
      && c'.collecting && Collecting(c'.state) && c'.arrayType == Collect(c, tok.word)
  {
  }

  lemma CollectingTraced(ts: seq<Token>, st: seq<State>, i: nat, c: Context, h: History)
    requires Collecting(c.state) && c.state != Of
    requires i < |ts| == |st| && st[i] == c.state && Traced(ts, st, i, c, h) && Step(c, ts[i]).Ok?
    ensures Traced(ts, st, i + 1, Step(c, ts[i]).value, h)
  {
    CollectingStep(c, ts[i]);
    SpellSnoc(ts, h.start, i);
    QuietTraced(ts, st, i, c, Step(c, ts[i]).value, h);
  }

  lemma ElementTraced(ts: seq<Token>, st: seq<State>, i: nat, c: Context, h: History) returns (h': History)
    requires c.state == Of
    requires i < |ts| == |st| && st[i] == c.state && Traced(ts, st, i, c, h) && Step(c, ts[i]).Ok?
    ensures Traced(ts, st, i + 1, Step(c, ts[i]).value, h')
  {
    ElementStep(c, ts[i]);
    NotOfWord(ts[i].word);
    SpellSnoc(ts, h.start, i);
    h' := BindTraced(ts, st, i, c, Step(c, ts[i]).value, h, c.arrayType + ts[i].word);
  }

  lemma StepTraced(ts: seq<Token>, st: seq<State>, i: nat, c: Context, h: History) returns (h': History)
    requires !c.state.Terminal()
    requires i < |ts| == |st| && st[i] == c.state && Traced(ts, st, i, c, h) && Step(c, ts[i]).Ok?
    ensures Traced(ts, st, i + 1, Step(c, ts[i]).value, h')
  {
    if c.state in {State.Start, Identifier, SimpleType, ArrayType} {
      SeparatorTraced(ts, st, i, c, h);
      h' := h;
    } else if c.state == Definition {
      h' := DefinitionTraced(ts, st, i, c, h);
    } else if c.state == Type {
      h' := TypeTraced(ts, st, i, c, h);
    } else if c.state == Of {
      h' := ElementTraced(ts, st, i, c, h);
    } else {
      CollectingTraced(ts, st, i, c, h);
      h' := h;
    }
  }

  /** Feeding one more token of `ts`. */
  lemma PrefixStep(ts: seq<Token>, i: nat)
    requires i < |ts|
    ensures Feed(Initial, ts[..i + 1]) == match Feed(Initial, ts[..i])
      case Err(e) => Err(e)
      case Ok(c) => if c.state.Terminal() then Ok(c) else Step(c, ts[i])
  {
    assert ts[..i + 1] == ts[..i] + [ts[i]];
    FeedAppend(Initial, ts[..i], [ts[i]]);
    assert [ts[i]][1..] == [];
  }

  lemma {:induction false} PrefixTraced(ts: seq<Token>, st: seq<State>, i: nat) returns (h: History)
    requires st == States(ts) && i <= |ts| && Feed(Initial, ts[..i]).Ok?
    ensures Traced(ts, st, i, Feed(Initial, ts[..i]).value, h)
  {
    if i == 0 {
      assert ts[..0] == [];
      h := History(map[], map[], 0);
    } else {
      PrefixStep(ts, i - 1);
      var h0 := PrefixTraced(ts, st, i - 1);
      var c := Feed(Initial, ts[..i - 1]).value;
      assert st[i - 1] == c.state;
      if c.state.Terminal() {
        QuietTraced(ts, st, i - 1, c, c, h0);
        h := h0;
      } else {
        h := StepTraced(ts, st, i - 1, c, h0);
      }
    }
  }

  /** The run of an accepted statement, traced to its end. */
  lemma AcceptedTraced(ts: seq<Token>) returns (h: History)
    requires Analysis(ts).Ok?
    ensures forall n :: n in Analysis(ts).value ==>
      n in h.origins && Settled(ts, States(ts), |ts|, n, Analysis(ts).value[n], h.origins[n])
  {
    var _ := TableWellFormed(ts);
    assert ts[..|ts|] == ts;
    h := PrefixTraced(ts, States(ts), |ts|);
  }

  /** Every entry of an accepted statement's table comes from its tokens:
      `o.def` is the last token that declares the name, `o.bind` the first
      token after it that binds, and the entry is the lower-cased simple
      type read at `o.bind` in `Type` (no token in between was read in
      `Type`), or the words from the `array` token `o.start` (the only token
      in between read in `Type`) through the element type read at `o.bind`
      in `Of`. */
  lemma TableValues(ts: seq<Token>) returns (origins: map<string, Origin>)
    requires Analysis(ts).Ok?
    ensures var st, table := States(ts), Analysis(ts).value;
      forall n :: n in table ==> (
        && n in origins
        && var o := origins[n];
        && o.def < o.bind < |ts|
        && DefinedAt(ts, st, o.def, n) && NoLaterDefinition(ts, st, o.def, n, |ts|)
        && BindsAt(ts, st, o.bind) && Unbound(ts, st, o.def, o.bind)
        && (st[o.bind] == Type ==> table[n] == Lower(ts[o.bind].word) && NoTypeBetween(st, o.def, o.bind))
        && (st[o.bind] == Of ==>
              && o.def < o.start < o.bind && st[o.start] == Type && Lower(ts[o.start].word) == "array"
              && TypeOnlyAt(st, o.def, o.bind, o.start)
              && table[n] == Spell(ts[o.start..o.bind + 1])))
  {
    var h := AcceptedTraced(ts);
    origins := h.origins;
  }
}
