/** `tokenize` (src/lib.rs:78-108): one left-to-right scan that collects runs
    of alphanumeric characters, drops spaces, and makes every other
    character a token of its own. */
module Tokenizer {
  import opened Lexemes
  import Classifiers

  /** The text with every space removed. */
  function WithoutSpaces(s: string): string {
    if s == [] then []
    else WithoutSpaces(s[..|s| - 1]) + (if s[|s| - 1] == ' ' then [] else [s[|s| - 1]])
  }

  /** The words of the tokens, concatenated in order. */
  function Words(ts: seq<Token>): string {
    if ts == [] then [] else Words(ts[..|ts| - 1]) + ts[|ts| - 1].word
  }

  predicate AllAlphanumeric(w: string) {
    forall k :: 0 <= k < |w| ==> IsAlphanumeric(w[k])
  }

  /** The token's word is the text of `s` found at the token's position. */
  predicate Placed(s: string, t: Token) {
    t.position + |t.word| <= |s| && forall k :: 0 <= k < |t.word| ==> s[t.position + k] == t.word[k]
  }

  /** A placed token is a lexeme of `s`: either one character that is neither
      a space nor alphanumeric, or a run of alphanumerics that cannot be
      extended to the left or to the right. */
  predicate IsLexeme(s: string, t: Token)
    requires Placed(s, t)
  {
    || (|t.word| == 1 && t.word[0] != ' ' && !IsAlphanumeric(t.word[0]))
    || (&& |t.word| >= 1
        && AllAlphanumeric(t.word)
        && (t.position == 0 || !IsAlphanumeric(s[t.position - 1]))
        && (t.position + |t.word| == |s| || !IsAlphanumeric(s[t.position + |t.word|])))
  }

  /** Each token ends before the next one starts. */
  predicate InOrder(ts: seq<Token>) {
    forall i, j :: 0 <= i < j < |ts| ==> ts[i].position + |ts[i].word| <= ts[j].position
  }

  /** `ts` is a tokenization of `s`: the words of the tokens, in order,
      are `s` without its spaces; every token is a lexeme found at its
      position; tokens do not overlap and come in increasing position. */
  predicate IsTokenization(s: string, ts: seq<Token>) {
    && Words(ts) == WithoutSpaces(s)
    && (forall i :: 0 <= i < |ts| ==> Placed(s, ts[i]) && IsLexeme(s, ts[i]))
    && InOrder(ts)
  }

  lemma WordsAppend(ts: seq<Token>, t: Token)
    ensures Words(ts + [t]) == Words(ts) + t.word
  {
    assert (ts + [t])[..|ts|] == ts;
  }

  lemma WithoutSpacesStep(s: string, i: nat)
    requires i < |s|
    ensures WithoutSpaces(s[..i + 1]) == WithoutSpaces(s[..i]) + (if s[i] == ' ' then [] else [s[i]])
  {
    assert s[..i + 1][..i] == s[..i];
  }

  /** Every token is a lexeme of `s` found at its position and ends by `bound`. */
  predicate SoundUpTo(s: string, tokens: seq<Token>, bound: nat) {
    forall i :: 0 <= i < |tokens| ==>
      Placed(s, tokens[i]) && IsLexeme(s, tokens[i]) && tokens[i].position + |tokens[i].word| <= bound
  }

  /** What the scan has established after reading `s[..idx]`: `cur` is the
      alphanumeric run that ends at `idx`, and `tokens` followed by `cur`
      spell out the text read so far without its spaces. */
  predicate Scanned(s: string, idx: nat, tokens: seq<Token>, cur: string) {
    && idx <= |s|
    && |cur| <= idx && Placed(s, Token(cur, idx - |cur|)) && AllAlphanumeric(cur)
    && (idx - |cur| == 0 || !IsAlphanumeric(s[idx - |cur| - 1]))
    && Words(tokens) + cur == WithoutSpaces(s[..idx])
    && SoundUpTo(s, tokens, idx - |cur|)
    && InOrder(tokens)
  }

  /** The tokens once the pending run is pushed. */
  function Flush(tokens: seq<Token>, cur: string, idx: nat): seq<Token>
    requires |cur| <= idx
  {
    if |cur| == 0 then tokens else tokens + [Token(cur, idx - |cur|)]
  }

  /** Appending a token that starts after all others keeps them in order. */
  lemma AppendInOrder(s: string, tokens: seq<Token>, bound: nat, t: Token)
    requires SoundUpTo(s, tokens, bound) && InOrder(tokens) && bound <= t.position
    requires Placed(s, t) && IsLexeme(s, t)
    ensures SoundUpTo(s, tokens + [t], t.position + |t.word|)
    ensures InOrder(tokens + [t])
  {
    var ts := tokens + [t];
    forall i, j | 0 <= i < j < |ts| ensures ts[i].position + |ts[i].word| <= ts[j].position {
      assert ts[i] == tokens[i];
    }
  }

  /** Pushing a non-empty run keeps the spelling of the text read so far. */
  lemma FlushRunWords(s: string, idx: nat, tokens: seq<Token>, cur: string)
    requires Scanned(s, idx, tokens, cur) && |cur| != 0
    ensures Words(Flush(tokens, cur, idx)) == WithoutSpaces(s[..idx])
  {
    WordsAppend(tokens, Token(cur, idx - |cur|));
  }

  /** A non-empty run that the next character cannot extend is a lexeme. */
  lemma FlushRunSound(s: string, idx: nat, tokens: seq<Token>, cur: string)
    requires Scanned(s, idx, tokens, cur) && |cur| != 0
    requires idx == |s| || !IsAlphanumeric(s[idx])
    ensures SoundUpTo(s, Flush(tokens, cur, idx), idx)
    ensures InOrder(Flush(tokens, cur, idx))
  {
    var t := Token(cur, idx - |cur|);
    assert Placed(s, t);
    assert IsLexeme(s, t);
    AppendInOrder(s, tokens, idx - |cur|, t);
  }

  /** Pushing the run is sound when the next character cannot extend it. */
  lemma FlushSound(s: string, idx: nat, tokens: seq<Token>, cur: string)
    requires Scanned(s, idx, tokens, cur)
    requires idx == |s| || !IsAlphanumeric(s[idx])
    ensures Words(Flush(tokens, cur, idx)) == WithoutSpaces(s[..idx])
    ensures SoundUpTo(s, Flush(tokens, cur, idx), idx)
    ensures InOrder(Flush(tokens, cur, idx))
  {
    if |cur| != 0 {
      FlushRunWords(s, idx, tokens, cur);
      FlushRunSound(s, idx, tokens, cur);
    }
  }

  /** Nothing has been read yet. */
  lemma ScanStart(s: string)
    ensures Scanned(s, 0, [], [])
  {
    assert s[..0] == [];
  }

  /** A scan position right after a separator, with no pending run. */
  lemma ScannedWithoutRun(s: string, idx: nat, tokens: seq<Token>)
    requires 0 < idx <= |s| && !IsAlphanumeric(s[idx - 1])
    requires Words(tokens) == WithoutSpaces(s[..idx]) && SoundUpTo(s, tokens, idx) && InOrder(tokens)
    ensures Scanned(s, idx, tokens, [])
  {
    assert Words(tokens) + [] == Words(tokens);
  }

  /** Dropping a space after the run was pushed. */
  lemma SkipSpace(s: string, idx: nat, tokens: seq<Token>)
    requires idx < |s| && s[idx] == ' '
    requires Words(tokens) == WithoutSpaces(s[..idx]) && SoundUpTo(s, tokens, idx) && InOrder(tokens)
    ensures Scanned(s, idx + 1, tokens, [])
  {
    WithoutSpacesStep(s, idx);
    ScannedWithoutRun(s, idx + 1, tokens);
  }

  /** Pushing a punctuation character as a token of its own after the run was pushed. */
  lemma PushPunctuation(s: string, idx: nat, tokens: seq<Token>)
    requires idx < |s| && s[idx] != ' ' && !IsAlphanumeric(s[idx])
    requires Words(tokens) == WithoutSpaces(s[..idx]) && SoundUpTo(s, tokens, idx) && InOrder(tokens)
    ensures Scanned(s, idx + 1, tokens + [Token([s[idx]], idx)], [])
  {
    var t := Token([s[idx]], idx);
    WithoutSpacesStep(s, idx);
    WordsAppend(tokens, t);
    assert Placed(s, t) && IsLexeme(s, t);
    AppendInOrder(s, tokens, idx, t);
    ScannedWithoutRun(s, idx + 1, tokens + [t]);
  }

  /** Reading a space: the pending run is pushed and the space dropped. */
  lemma {:induction false} ScanSpace(s: string, idx: nat, tokens: seq<Token>, cur: string)
    requires Scanned(s, idx, tokens, cur) && idx < |s| && s[idx] == ' '
    ensures Scanned(s, idx + 1, Flush(tokens, cur, idx), [])
  {
    FlushSound(s, idx, tokens, cur);
    SkipSpace(s, idx, Flush(tokens, cur, idx));
  }

  /** Reading a punctuation character: the pending run is pushed, then the
      character as a token of its own. */
  lemma {:induction false} ScanPunctuation(s: string, idx: nat, tokens: seq<Token>, cur: string)
    requires Scanned(s, idx, tokens, cur) && idx < |s| && s[idx] != ' ' && !IsAlphanumeric(s[idx])
    ensures Scanned(s, idx + 1, Flush(tokens, cur, idx) + [Token([s[idx]], idx)], [])
  {
    FlushSound(s, idx, tokens, cur);
    PushPunctuation(s, idx, Flush(tokens, cur, idx));
  }

  /** Reading an alphanumeric character. */
  lemma {:induction false} ScanAlphanumeric(s: string, idx: nat, tokens: seq<Token>, cur: string)
    requires Scanned(s, idx, tokens, cur) && idx < |s| && IsAlphanumeric(s[idx])
    ensures Scanned(s, idx + 1, tokens, cur + [s[idx]])
  {
    var run := cur + [s[idx]];
    assert idx + 1 - |run| == idx - |cur|;
    ExtendRun(s, idx, cur);
    WithoutSpacesStep(s, idx);
    assert Words(tokens) + run == (Words(tokens) + cur) + [s[idx]];
  }

  /** The run that ends at `idx`, extended by the alphanumeric character at `idx`. */
  lemma ExtendRun(s: string, idx: nat, cur: string)
    requires |cur| <= idx < |s| && IsAlphanumeric(s[idx])
    requires Placed(s, Token(cur, idx - |cur|)) && AllAlphanumeric(cur)
    ensures Placed(s, Token(cur + [s[idx]], idx - |cur|)) && AllAlphanumeric(cur + [s[idx]])
  {
  }

  lemma WholeText(s: string, ts: seq<Token>)
    requires Words(ts) == WithoutSpaces(s[..|s|])
    ensures Words(ts) == WithoutSpaces(s)
  {
    assert s[..|s|] == s;
  }

  /** At the end of input the pending run is pushed, and the scan is complete. */
  lemma ScanEnd(s: string, tokens: seq<Token>, cur: string)
    requires Scanned(s, |s|, tokens, cur)
    ensures IsTokenization(s, Flush(tokens, cur, |s|))
  {
    FlushSound(s, |s|, tokens, cur);
    WholeText(s, Flush(tokens, cur, |s|));
  }

  /** Never fails, and returns a tokenization of its input. */
  method Tokenize(content: string) returns (r: Result<seq<Token>>)
    ensures r.Ok? && IsTokenization(content, r.value)
  {
    var tokens: seq<Token> := [];
    var cur: string := [];
    ScanStart(content);
    for idx := 0 to |content|
      invariant Scanned(content, idx, tokens, cur)
    {
      var ch := content[idx];
      if ch == ' ' {
        ScanSpace(content, idx, tokens, cur);
        tokens := Flush(tokens, cur, idx);
        cur := [];
      } else if !IsAlphanumeric(ch) {
        ScanPunctuation(content, idx, tokens, cur);
        tokens := Flush(tokens, cur, idx);
        cur := [];
        tokens := tokens + [Token([ch], idx)];
      } else {
        ScanAlphanumeric(content, idx, tokens, cur);
        cur := cur + [ch];
      }
    }
    ScanEnd(content, tokens, cur);
    tokens := Flush(tokens, cur, |content|);
    r := Ok(tokens);
  }

  /** A sign is a token of its own, so no token of a tokenization is a signed
      integer: every integer literal it holds is all digits. */
  lemma TokenizedIntegersUnsigned(s: string, ts: seq<Token>)
    requires IsTokenization(s, ts)
    ensures forall i :: 0 <= i < |ts| && Classifiers.IsIntegerLiteral(ts[i].word) ==>
      Classifiers.AllDigits(ts[i].word)
  {
    forall i | 0 <= i < |ts| && Classifiers.IsIntegerLiteral(ts[i].word)
      ensures Classifiers.AllDigits(ts[i].word)
    {
      assert Placed(s, ts[i]) && IsLexeme(s, ts[i]);
    }
  }
}
