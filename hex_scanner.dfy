/**
 * The hex-literal scanner in `main` of old/8080_disassembler/8080_disassembler.c:
 * a five-state machine (`store_en`) over the characters of a text file that
 * collects, in a growing heap block `hex`, the two characters after each
 * `0x` that are followed by ',' or ']'.  The file is a parameter; opening
 * it and printing each capture are left out.
 */
module HexScanner {
  /**
   * What `fgetc` returns once the file is exhausted, stored in the `char`
   * variable `val`: EOF (-1) truncated to its low byte.
   */
  const EOF_CHAR: char := '\U{FF}'

  /** The scanner's variables: `store_en`, `hex_temp[0]`, `hex_temp[1]` and the captured characters of `hex`. */
  datatype Scanner = Scanner(storeEn: int, temp0: char, temp1: char, hex: seq<char>)

  /** The variables before the loop: state 0, `hex_temp = {'0','0'}`, nothing captured. */
  const Init: Scanner := Scanner(0, '0', '0', [])

  /** A closing character of a literal. */
  predicate Closes(c: char)
  {
    c == ',' || c == ']'
  }

  /** One pass of the loop body on the character `val`. */
  function Step(s: Scanner, val: char): Scanner
  {
    if s.storeEn == 0 then
      s.(storeEn := if val == '0' then 1 else 0)
    else if s.storeEn == 1 then
      s.(storeEn := if val == 'x' then 2 else 0)
    else if s.storeEn == 2 then
      s.(temp0 := val, storeEn := 3)
    else if s.storeEn == 3 then
      s.(temp1 := val, storeEn := 4)
    else if s.storeEn == 4 then
      if Closes(val) then s.(hex := s.hex + [s.temp0, s.temp1], storeEn := 0)
      else s.(storeEn := 0)
    else s
  }

  /** The loop over the characters of input, in order. */
  function Run(s: Scanner, input: seq<char>): (r: Scanner)
    requires 0 <= s.storeEn <= 4 && |s.hex| % 2 == 0
    ensures 0 <= r.storeEn <= 4 && |r.hex| % 2 == 0
    ensures |s.hex| <= |r.hex| && r.hex[..|s.hex|] == s.hex
    decreases |input|
  {
    if |input| == 0 then s
    else Step(Run(s, input[..|input| - 1]), input[|input| - 1])
  }

  /**
   * `realloc(block, sizeof(char) * size)`: a fresh block of size characters
   * starting with the old ones (the rest are not meaningful).
   */
  method Realloc(block: array<char>, size: nat) returns (grown: array<char>)
    requires block.Length <= size
    ensures fresh(grown) && grown.Length == size
    ensures grown[..block.Length] == block[..]
  {
    grown := new char[size];
    for i := 0 to block.Length
      invariant grown[..i] == block[..i]
    {
      grown[i] := block[i];
    }
  }

  /**
   * The scanning loop of `main` on the file with the characters raw.  The
   * loop runs while the end-of-file indicator is clear, and `fgetc` sets
   * it only on the read that returns EOF, so the body also runs once on
   * EOF_CHAR after the last character of the file.
   */
  method ScanFile(raw: seq<char>) returns (hex: array<char>, hexIndex: int, hexSize: int)
    ensures hexIndex == |Run(Init, raw + [EOF_CHAR]).hex|
    ensures hexSize == hexIndex + 2 && hex.Length == hexSize
    ensures hex[..hexIndex] == Run(Init, raw + [EOF_CHAR]).hex
  {
    ghost var input := raw + [EOF_CHAR];
    var storeEn := 0;
    hexSize := 2;
    hexIndex := 0;
    hex := new char[hexSize];
    var hexTemp := new char[2];
    hexTemp[0], hexTemp[1] := '0', '0';
    var pos, atEnd := 0, false;
    while !atEnd
      invariant 0 <= pos <= |input| && atEnd == (pos == |input|)
      invariant hexTemp.Length == 2 && hexTemp != hex
      invariant 0 <= hexIndex && hexSize == hexIndex + 2 && hex.Length == hexSize
      invariant Run(Init, input[..pos]) == Scanner(storeEn, hexTemp[0], hexTemp[1], hex[..hexIndex])
      decreases |input| - pos
    {
      // fgetc
      var val := if pos < |raw| then raw[pos] else EOF_CHAR;
      atEnd := pos == |raw|;
      assert input[..pos + 1][..pos] == input[..pos] && input[pos] == val;
      pos := pos + 1;
      if storeEn == 0 {
        if val == '0' {
          storeEn := 1;
        } else if storeEn != 2 || storeEn != 3 {
          storeEn := 0;
        }
      } else if storeEn == 1 {
        if val == 'x' {
          storeEn := 2;
        } else {
          storeEn := 0;
        }
      } else if storeEn == 2 {
        hexTemp[0] := val;
        storeEn := 3;
      } else if storeEn == 3 {
        hexTemp[1] := val;
        storeEn := 4;
      } else if storeEn == 4 {
        if val == ',' || val == ']' {
          ghost var captured := hex[..hexIndex];
          hexSize := hexSize + 2;
          hex := Realloc(hex, hexSize);
          assert hex[..hexIndex] == captured;
          hex[hexIndex + 0] := hexTemp[0];
          hex[hexIndex + 1] := hexTemp[1];
          assert hex[..hexIndex + 2] == captured + [hexTemp[0], hexTemp[1]];
          hexIndex := hexIndex + 2;
          storeEn := 0;
        } else {
          storeEn := 0;
        }
      }
    }
    assert input[..pos] == input;
  }

  // ---------------------------------------------------------------- properties

  /** Running on w and then c is one more step after running on w. */
  lemma RunSnoc(s: Scanner, w: seq<char>, c: char)
    requires 0 <= s.storeEn <= 4 && |s.hex| % 2 == 0
    ensures Run(s, w + [c]) == Step(Run(s, w), c)
  {
    assert (w + [c])[..|w|] == w;
  }

  /** Running on a + b is running on a, then on b. */
  lemma {:induction false} RunAppend(s: Scanner, a: seq<char>, b: seq<char>)
    requires 0 <= s.storeEn <= 4 && |s.hex| % 2 == 0
    ensures Run(s, a + b) == Run(Run(s, a), b)
    decreases |b|
  {
    if |b| == 0 {
      assert a + b == a;
    } else {
      var n := |b| - 1;
      assert a + b == (a + b[..n]) + [b[n]];
      assert b == b[..n] + [b[n]];
      RunSnoc(s, a + b[..n], b[n]);
      RunAppend(s, a, b[..n]);
      RunSnoc(Run(s, a), b[..n], b[n]);
    }
  }

  /**
   * What the state records about the characters read so far: state 1
   * follows a '0', state 2 follows "0x", state 3 follows "0x" and the
   * character kept in `hex_temp[0]`, state 4 follows "0x" and the two
   * characters kept in `hex_temp`.
   */
  predicate Remembers(s: Scanner, input: seq<char>)
  {
    var n := |input|;
    && (s.storeEn == 1 ==> n >= 1 && input[n - 1] == '0')
    && (s.storeEn == 2 ==> n >= 2 && input[n - 2] == '0' && input[n - 1] == 'x')
    && (s.storeEn == 3 ==> n >= 3 && input[n - 3] == '0' && input[n - 2] == 'x' && s.temp0 == input[n - 1])
    && (s.storeEn == 4 ==> n >= 4 && input[n - 4] == '0' && input[n - 3] == 'x'
                           && s.temp0 == input[n - 2] && s.temp1 == input[n - 1])
  }

  /** Reading one more character keeps the record. */
  lemma StepRemembers(s: Scanner, w: seq<char>, c: char)
    requires Remembers(s, w)
    ensures Remembers(Step(s, c), w + [c])
  {
    var v := w + [c];
    assert v[|w|] == c;
    assert forall k :: 0 <= k < |w| ==> v[k] == w[k];
  }

  /** From the initial state, the state always remembers the recent characters as described. */
  lemma {:induction false} RunRemembers(input: seq<char>)
    ensures Remembers(Run(Init, input), input)
    decreases |input|
  {
    if |input| > 0 {
      var n := |input| - 1;
      assert input == input[..n] + [input[n]];
      RunRemembers(input[..n]);
      StepRemembers(Run(Init, input[..n]), input[..n], input[n]);
      RunSnoc(Init, input[..n], input[n]);
    }
  }

  /**
   * A character appends to `hex` only in state 4 and only when it is ','
   * or ']', and then it appends exactly the two characters after the "0x"
   * that precede it, verbatim (`RunSnoc` makes the step the run on
   * `input + [val]`).
   */
  lemma CaptureNeedsPattern(input: seq<char>, val: char)
    ensures var before := Run(Init, input);
      var after := Step(before, val);
      && (after.hex == before.hex || after.hex == before.hex + [before.temp0, before.temp1])
      && (after.hex != before.hex ==>
            && Closes(val)
            && |input| >= 4
            && input[|input| - 4] == '0' && input[|input| - 3] == 'x'
            && after.hex == before.hex + input[|input| - 2..])
  {
    RunRemembers(input);
    var before := Run(Init, input);
    var after := Step(before, val);
    if before.storeEn == 4 && Closes(val) {
      var n := |input|;
      assert input[n - 2..] == [before.temp0, before.temp1];
    } else {
      assert after.hex == before.hex;
    }
  }

  /** From state 0, "0x", two characters and a closing character capture those two characters and return to state 0. */
  lemma LiteralCaptured(s: Scanner, c1: char, c2: char, close: char)
    requires s.storeEn == 0 && |s.hex| % 2 == 0 && Closes(close)
    ensures Run(s, ['0', 'x', c1, c2, close]) == Scanner(0, c1, c2, s.hex + [c1, c2])
  {
    RunSnoc(s, [], '0');
    assert [] + ['0'] == ['0'];
    RunSnoc(s, ['0'], 'x');
    assert ['0'] + ['x'] == ['0', 'x'];
    RunSnoc(s, ['0', 'x'], c1);
    assert ['0', 'x'] + [c1] == ['0', 'x', c1];
    RunSnoc(s, ['0', 'x', c1], c2);
    assert ['0', 'x', c1] + [c2] == ['0', 'x', c1, c2];
    RunSnoc(s, ['0', 'x', c1, c2], close);
    assert ['0', 'x', c1, c2] + [close] == ['0', 'x', c1, c2, close];
  }

  /** The captured characters are not checked to be hex digits. */
  lemma NoHexValidation()
    ensures Run(Init, "0xzz,").hex == "zz"
  {
    LiteralCaptured(Init, 'z', 'z', ',');
    assert "0xzz," == ['0', 'x', 'z', 'z', ','];
  }

  /**
   * A character that breaks the pattern is consumed, not read again from
   * state 0: a '0' after a '0' resets the state, so "00x12," captures nothing.
   */
  lemma BrokenPatternConsumed()
    ensures Step(Scanner(1, '0', '0', []), '0').storeEn == 0
    ensures Run(Init, "00x12,").hex == []
  {
    var w := "00x12,";
    RunSnoc(Init, [], '0');
    assert [] + ['0'] == w[..1];
    RunSnoc(Init, w[..1], '0');
    assert w[..1] + ['0'] == w[..2];
    RunSnoc(Init, w[..2], 'x');
    assert w[..2] + ['x'] == w[..3];
    RunSnoc(Init, w[..3], '1');
    assert w[..3] + ['1'] == w[..4];
    RunSnoc(Init, w[..4], '2');
    assert w[..4] + ['2'] == w[..5];
    RunSnoc(Init, w[..5], ',');
    assert w[..5] + [','] == w;
  }

  /** Two literals in a bracketed list are both captured, in order. */
  lemma ListCaptured()
    ensures Run(Init, "[0x3e,0xc3]").hex == "3ec3"
  {
    var a, b, c := "[", "0x3e,", "0xc3]";
    assert "[0x3e,0xc3]" == a + b + c;
    RunAppend(Init, a + b, c);
    RunAppend(Init, a, b);
    RunSnoc(Init, [], '[');
    assert [] + ['['] == a;
    var s1 := Run(Init, a);
    LiteralCaptured(s1, '3', 'e', ',');
    assert b == ['0', 'x', '3', 'e', ','];
    LiteralCaptured(Run(s1, b), 'c', '3', ']');
    assert c == ['0', 'x', 'c', '3', ']'];
  }

  /** The extra pass of the loop on EOF_CHAR never captures anything. */
  lemma EofCapturesNothing(raw: seq<char>)
    ensures Run(Init, raw + [EOF_CHAR]).hex == Run(Init, raw).hex
  {
    RunSnoc(Init, raw, EOF_CHAR);
    CaptureNeedsPattern(raw, EOF_CHAR);
  }
}
