/** The two character automata that classify a lexeme as an integer
    literal or an identifier (src/lib.rs:110-213), and the numeric reading
    of an integer literal used by the range checks (src/lib.rs:600-605). */
module Classifiers {
  import opened Lexemes

  predicate IsSign(c: char) { c == '+' || c == '-' }

  predicate AllDigits(s: string) {
    forall k :: 0 <= k < |s| ==> IsDigit(s[k])
  }

  /** `[+-]?[0-9]+`: an optional sign followed by at least one ASCII digit. */
  predicate IsIntegerLiteral(s: string) {
    (|s| >= 1 && AllDigits(s)) || (|s| >= 2 && IsSign(s[0]) && AllDigits(s[1..]))
  }

  /** One letter followed by any number of letters or digits. */
  predicate IsIdentifierText(s: string) {
    |s| >= 1 && IsAlpha(s[0]) && forall k :: 1 <= k < |s| ==> IsAlphanumeric(s[k])
  }

  datatype IntegerState = Start | Uint | Digits | Error | Finish

  /** `is_integer`: runs the Start/Uint/Digits automaton one character per
      step; the end of input is accepted only from Digits. */
  method IsInteger(s: string) returns (b: bool)
    ensures b <==> IsIntegerLiteral(s)
  {
    var state := IntegerState.Start;
    var i: nat := 0;
    while state != IntegerState.Error && state != IntegerState.Finish
      invariant i <= |s| + 1
      invariant state == IntegerState.Start ==> i == 0
      invariant state == IntegerState.Uint ==> i == 1 <= |s| && IsSign(s[0])
      invariant state == IntegerState.Digits ==> 1 <= i <= |s| && IsIntegerLiteral(s[..i])
      invariant state == IntegerState.Finish ==> i == |s| + 1 && IsIntegerLiteral(s)
      invariant state == IntegerState.Error ==> !IsIntegerLiteral(s)
      decreases |s| + 1 - i
    {
      if i < |s| {
        var ch := s[i];
        match state {
          case Start =>
            if IsSign(ch) {
              state := IntegerState.Uint;
            } else if IsDigit(ch) {
              state := IntegerState.Digits;
            } else {
              state := IntegerState.Error;
              break;
            }
          case Uint =>
            if IsDigit(ch) {
              state := IntegerState.Digits;
            } else {
              state := IntegerState.Error;
              break;
            }
          case Digits =>
            if IsDigit(ch) {
              assert s[..i + 1] == s[..i] + [ch];
              state := IntegerState.Digits;
            } else {
              state := IntegerState.Error;
              break;
            }
          case _ =>
        }
      } else {
        if state == IntegerState.Digits {
          assert s[..i] == s;
          state := IntegerState.Finish;
        } else {
          state := IntegerState.Error;
        }
      }
      i := i + 1;
    }
    b := state == IntegerState.Finish && i == |s| + 1;
  }

  datatype IdentifierState = Start | Chars | Error | Finish

  /** `is_identifier`: runs the Start/Chars automaton; the end of input is
      accepted only from Chars. */
  method IsIdentifier(s: string) returns (b: bool)
    ensures b <==> IsIdentifierText(s)
  {
    var state := IdentifierState.Start;
    var i: nat := 0;
    while state != IdentifierState.Error && state != IdentifierState.Finish
      invariant i <= |s| + 1
      invariant state == IdentifierState.Start ==> i == 0
      invariant state == IdentifierState.Chars ==> 1 <= i <= |s| && IsIdentifierText(s[..i])
      invariant state == IdentifierState.Finish ==> i == |s| + 1 && IsIdentifierText(s)
      invariant state == IdentifierState.Error ==> !IsIdentifierText(s)
      decreases |s| + 1 - i
    {
      if i < |s| {
        var ch := s[i];
        match state {
          case Start =>
            if IsAlpha(ch) {
              state := IdentifierState.Chars;
            } else {
              state := IdentifierState.Error;
              break;
            }
          case Chars =>
            if IsAlpha(ch) || IsDigit(ch) {
              assert s[..i + 1] == s[..i] + [ch];
              state := IdentifierState.Chars;
            } else {
              state := IdentifierState.Error;
              break;
            }
          case _ =>
        }
      } else {
        if state == IdentifierState.Chars {
          assert s[..i] == s;
          state := IdentifierState.Finish;
        } else {
          state := IdentifierState.Error;
        }
      }
      i := i + 1;
    }
    b := state == IdentifierState.Finish && i == |s| + 1;
  }

  // The numeric reading of a literal.

  const I16Min: int := -0x8000
  const I16Max: int := 0x7fff
  const I32Min: int := -0x8000_0000
  const I32Max: int := 0x7fff_ffff

  function DigitValue(c: char): nat
    requires IsDigit(c)
  {
    c as int - '0' as int
  }

  /** The decimal value of a run of digits. */
  function DigitsValue(d: string): nat
    requires AllDigits(d)
  {
    if d == [] then 0 else DigitsValue(d[..|d| - 1]) * 10 + DigitValue(d[|d| - 1])
  }

  /** The value an integer literal denotes, with its sign. */
  function Value(s: string): int
    requires IsIntegerLiteral(s)
  {
    if s[0] == '-' then -(DigitsValue(s[1..]) as int)
    else if s[0] == '+' then DigitsValue(s[1..])
    else DigitsValue(s)
  }

  /** `str::parse::<i32>`: a literal whose value fits in 32 bits. */
  function ParseI32(s: string): Option<int> {
    if IsIntegerLiteral(s) && I32Min <= Value(s) <= I32Max then Some(Value(s)) else None
  }

  /** `str::parse::<i16>`: a literal whose value fits in 16 bits. */
  function ParseI16(s: string): Option<int> {
    if IsIntegerLiteral(s) && I16Min <= Value(s) <= I16Max then Some(Value(s)) else None
  }

  /** `is_integer_in_range`: parses as `i32`, then compares with the 16-bit bounds. */
  function IsIntegerInRange(s: string): bool {
    match ParseI32(s)
    case Some(v) => I16Min <= v <= I16Max
    case None => false
  }

  /** A literal passes the range check exactly when its value lies in
      [-32768, 32767]; a literal too large for 32 bits fails it too. */
  lemma IntegerInRangeIff(s: string)
    ensures IsIntegerInRange(s) <==> IsIntegerLiteral(s) && I16Min <= Value(s) <= I16Max
  {
  }

  /** Once `is_integer` and `is_integer_in_range` hold, the 16-bit parse
      cannot fail: the source's `unreachable!()` branches are unreachable. */
  lemma ParseI16Succeeds(s: string)
    requires IsIntegerLiteral(s) && IsIntegerInRange(s)
    ensures ParseI16(s) == Some(Value(s))
  {
  }
}
