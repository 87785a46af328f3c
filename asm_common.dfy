/**
 * Definitions the assembler's helpers share: the operand types of
 * asm8080/common.h and the C string functions they call.  A C string is
 * its characters up to, not including, the terminating NUL.
 */
module AsmCommon {
  /** `operand_type`. */
  datatype OperandType = NONE | D8 | D16 | ADDR | ORG_ADDR

  /** `uint8_t`. */
  type uint8 = x: int | 0 <= x < 256

  const NUL: char := '\0'

  /** The status codes of `stdlib.h`. */
  const EXIT_SUCCESS: int := 0
  const EXIT_FAILURE: int := 1

  /** A character sequence with no NUL in it: the contents of a C string. */
  predicate NoNul(s: string)
  {
    NUL !in s
  }

  /** The contents of a C string. */
  type CString = s: string | NoNul(s)

  /** The character at position i of the C string s, reading its terminator past the end. */
  function CharAt(s: string, i: nat): char
  {
    if i < |s| then s[i] else NUL
  }

  /**
   * The sign of `strncmp(a, b, n)` from position i on: the first differing
   * character decides, compared as an unsigned value; a NUL in both ends
   * the comparison.
   */
  function StrncmpFrom(a: string, b: string, i: nat, n: nat): (r: int)
    ensures -1 <= r <= 1
    decreases n - i
  {
    if i >= n then 0
    else
      var ca, cb := CharAt(a, i), CharAt(b, i);
      if ca != cb then (if ca < cb then -1 else 1)
      else if ca == NUL then 0
      else StrncmpFrom(a, b, i + 1, n)
  }

  /** The sign of `strncmp(a, b, n)`. */
  function Strncmp(a: string, b: string, n: nat): int
  {
    StrncmpFrom(a, b, 0, n)
  }

  /** The sign of `strcmp(a, b)` from position i on. */
  function StrcmpFrom(a: string, b: string, i: nat): (r: int)
    ensures -1 <= r <= 1
    decreases |a| - i
  {
    var ca, cb := CharAt(a, i), CharAt(b, i);
    if ca != cb then (if ca < cb then -1 else 1)
    else if ca == NUL then 0
    else StrcmpFrom(a, b, i + 1)
  }

  /** The sign of `strcmp(a, b)`. */
  function Strcmp(a: string, b: string): int
  {
    StrcmpFrom(a, b, 0)
  }

  lemma {:induction false} StrncmpFromPrefix(a: string, b: string, i: nat)
    requires NoNul(b) && i <= |a| && i <= |b|
    ensures (StrncmpFrom(a, b, i, |b|) == 0) == (|b| <= |a| && a[i..|b|] == b[i..])
    decreases |b| - i
  {
    if i < |b| && i < |a| && a[i] == b[i] {
      assert b[i] in b;
      StrncmpFromPrefix(a, b, i + 1);
      if |b| <= |a| {
        assert a[i..|b|] == [a[i]] + a[i + 1..|b|];
      }
      assert b[i..] == [b[i]] + b[i + 1..];
    } else if i < |b| {
      assert b[i] in b;
      if |b| <= |a| {
        assert a[i..|b|][0] == a[i];
      }
    }
  }

  /** For a C string b, `strncmp(a, b, strlen(b))` is 0 exactly when b is a prefix of a. */
  lemma StrncmpPrefix(a: string, b: string)
    requires NoNul(b)
    ensures (Strncmp(a, b, |b|) == 0) == (|b| <= |a| && a[..|b|] == b)
  {
    StrncmpFromPrefix(a, b, 0);
  }

  lemma {:induction false} StrncmpFromSymmetric(a: string, b: string, i: nat, n: nat)
    ensures (StrncmpFrom(a, b, i, n) == 0) == (StrncmpFrom(b, a, i, n) == 0)
    decreases n - i
  {
    if i < n && CharAt(a, i) == CharAt(b, i) && CharAt(a, i) != NUL {
      StrncmpFromSymmetric(a, b, i + 1, n);
    }
  }

  /** The same with the arguments swapped: `strncmp(b, a, strlen(b))` is 0 exactly when b is a prefix of a. */
  lemma StrncmpPrefixSwapped(a: string, b: string)
    requires NoNul(b)
    ensures (Strncmp(b, a, |b|) == 0) == (|b| <= |a| && a[..|b|] == b)
  {
    StrncmpFromSymmetric(a, b, 0, |b|);
    StrncmpPrefix(a, b);
  }

  lemma {:induction false} StrcmpFromEqual(a: string, b: string, i: nat)
    requires NoNul(a) && NoNul(b) && i <= |a| && i <= |b|
    ensures (StrcmpFrom(a, b, i) == 0) == (a[i..] == b[i..])
    decreases |a| - i
  {
    if i < |a| {
      assert a[i] in a;
      assert a[i..][0] == a[i];
      if i < |b| {
        assert b[i] in b;
        assert b[i..][0] == b[i];
        if a[i] == b[i] {
          StrcmpFromEqual(a, b, i + 1);
          assert a[i..] == [a[i]] + a[i + 1..];
          assert b[i..] == [b[i]] + b[i + 1..];
        }
      }
    } else if i < |b| {
      assert b[i] in b;
      assert b[i..][0] == b[i];
    }
  }

  /** On C strings, `strcmp` is 0 exactly on equal strings. */
  lemma StrcmpEqual(a: string, b: string)
    requires NoNul(a) && NoNul(b)
    ensures (Strcmp(a, b) == 0) == (a == b)
  {
    StrcmpFromEqual(a, b, 0);
  }

  /** The line with its first n characters overwritten by spaces. */
  function Blanked(line: string, n: nat): string
  {
    seq(|line|, i requires 0 <= i < |line| => if i < n then ' ' else line[i])
  }

  /** Blanking keeps the length, turns the first n characters (or all, if fewer) into spaces and keeps the rest. */
  lemma BlankedLaws(line: string, n: nat)
    ensures |Blanked(line, n)| == |line|
    ensures forall i :: 0 <= i < |line| ==> Blanked(line, n)[i] == if i < n then ' ' else line[i]
    ensures n <= |line| ==> Blanked(line, n) == seq(n, _ => ' ') + line[n..]
  {
    if n <= |line| {
      assert Blanked(line, n) == seq(n, _ => ' ') + line[n..];
    }
  }

  /** The loop `for (i = 0; i < n; i++) line[i] = ' ';` that blanks a recognised mnemonic. */
  method ClearPrefix(line: array<char>, n: nat)
    requires n <= line.Length
    modifies line
    ensures line[..] == Blanked(old(line[..]), n)
  {
    for i := 0 to n
      invariant line[..] == Blanked(old(line[..]), i)
    {
      line[i] := ' ';
    }
  }
}
