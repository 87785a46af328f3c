/**
 * The pseudo-instruction matcher `FindPseudoInstruction` of
 * asm8080/pseudo_instruction_set.h.  The identifiers are the header's own
 * macros (NO_PSEUDO_FOUND = -1, ORG = 0, EQU = 1, END = 2), which replace
 * the enumerators of the same names declared earlier in asm8080/common.h.
 */
module Pseudo {
  import opened AsmCommon

  const NO_PSEUDO_FOUND: int := -1
  const ORG: int := 0
  const EQU: int := 1
  const END: int := 2

  /** `pseudo`: a mnemonic with its trailing space, and its identifier. */
  datatype PseudoInstruction = PseudoInstruction(mnemonic: string, identifier: int)

  /** `pseudo_instruction_set`. */
  const PseudoInstructionSet: seq<PseudoInstruction> :=
    [PseudoInstruction("org ", ORG), PseudoInstruction("equ ", EQU), PseudoInstruction("end ", END)]

  const NUM_PSEUDO: nat := 3

  /** The identifier `FindPseudoInstruction` returns, with the line as it leaves it. */
  datatype Match = Match(identifier: int, line: string)

  /** `strncmp(p.mnemonic, line, strlen(p.mnemonic)) == MATCH`. */
  predicate Matches(p: PseudoInstruction, line: string)
  {
    Strncmp(p.mnemonic, line, |p.mnemonic|) == 0
  }

  /** The loop of `FindPseudoInstruction` from table entry i on. */
  function FindFrom(line: string, i: nat): Match
    requires i <= NUM_PSEUDO
    decreases NUM_PSEUDO - i
  {
    if i == NUM_PSEUDO then Match(NO_PSEUDO_FOUND, line)
    else
      var p := PseudoInstructionSet[i];
      if Matches(p, line) then Match(p.identifier, Blanked(line, |p.mnemonic|))
      else FindFrom(line, i + 1)
  }

  /** `FindPseudoInstruction(line)`. */
  function Find(line: string): Match
  {
    FindFrom(line, 0)
  }

  /** `FindPseudoInstruction` on the characters of the C string `line`. */
  method FindPseudoInstruction(line: array<char>) returns (identifier: int)
    requires NoNul(line[..])
    modifies line
    ensures Match(identifier, line[..]) == Find(old(line[..]))
  {
    for i := 0 to NUM_PSEUDO
      invariant line[..] == old(line[..])
      invariant Find(old(line[..])) == FindFrom(line[..], i)
    {
      var p := PseudoInstructionSet[i];
      var pseudoLength := |p.mnemonic|;
      if Strncmp(p.mnemonic, line[..], pseudoLength) == 0 {
        StrncmpPrefixSwapped(line[..], p.mnemonic);
        ClearPrefix(line, pseudoLength);
        return p.identifier;
      }
    }
    return NO_PSEUDO_FOUND;
  }

  // ---------------------------------------------------------------- properties

  /** The line starts with the C string m. */
  predicate StartsWith(line: string, m: string)
  {
    |m| <= |line| && line[..|m|] == m
  }

  /** A table entry matches exactly when its mnemonic, trailing space included, starts the line. */
  lemma MatchesPrefix(i: nat, line: string)
    requires i < NUM_PSEUDO
    ensures Matches(PseudoInstructionSet[i], line) == StartsWith(line, PseudoInstructionSet[i].mnemonic)
  {
    var m := PseudoInstructionSet[i].mnemonic;
    assert NoNul(m);
    StrncmpPrefixSwapped(line, m);
  }

  /** The identifier of entry i is i, and the mnemonics all have four characters. */
  lemma TableLayout(i: nat)
    requires i < NUM_PSEUDO
    ensures |PseudoInstructionSet| == NUM_PSEUDO
    ensures PseudoInstructionSet[i].identifier == i
    ensures |PseudoInstructionSet[i].mnemonic| == 4 && PseudoInstructionSet[i].mnemonic[3] == ' '
  {
  }

  /**
   * At most one entry can start a line: the three mnemonics differ in
   * their first character.
   */
  lemma AtMostOneMatches(i: nat, j: nat, line: string)
    requires i < NUM_PSEUDO && j < NUM_PSEUDO
    requires StartsWith(line, PseudoInstructionSet[i].mnemonic) && StartsWith(line, PseudoInstructionSet[j].mnemonic)
    ensures i == j
  {
    assert line[0] == PseudoInstructionSet[i].mnemonic[0];
    assert line[0] == PseudoInstructionSet[j].mnemonic[0];
  }

  /**
   * `FindPseudoInstruction` returns the identifier of the entry whose
   * mnemonic starts the line and blanks exactly its four characters; when
   * none does it returns NO_PSEUDO_FOUND and leaves the line alone.
   */
  lemma {:induction false} FindFromResult(line: string, i: nat)
    requires i <= NUM_PSEUDO
    ensures var r := FindFrom(line, i);
      if exists j :: i <= j < NUM_PSEUDO && StartsWith(line, PseudoInstructionSet[j].mnemonic) then
        && i <= r.identifier < NUM_PSEUDO
        && StartsWith(line, PseudoInstructionSet[r.identifier].mnemonic)
        && r.line == "    " + line[4..]
      else
        r == Match(NO_PSEUDO_FOUND, line)
    decreases NUM_PSEUDO - i
  {
    if i < NUM_PSEUDO {
      MatchesPrefix(i, line);
      TableLayout(i);
      FindFromResult(line, i + 1);
      if Matches(PseudoInstructionSet[i], line) {
        BlankedLaws(line, 4);
        assert seq(4, _ => ' ') == "    ";
      } else {
        assert forall j :: i <= j < NUM_PSEUDO && StartsWith(line, PseudoInstructionSet[j].mnemonic) ==> i + 1 <= j;
      }
    }
  }

  /**
   * The identifier returned is that of the entry that starts the line,
   * in both directions, and the line loses exactly that prefix.
   */
  lemma FindResult(line: string, i: nat)
    requires i < NUM_PSEUDO
    ensures (Find(line).identifier == i) == StartsWith(line, PseudoInstructionSet[i].mnemonic)
    ensures Find(line).identifier == i ==> Find(line).line == "    " + line[4..]
  {
    FindFromResult(line, 0);
    var r := Find(line);
    if StartsWith(line, PseudoInstructionSet[i].mnemonic) {
      AtMostOneMatches(i, r.identifier, line);
    }
  }

  /** With no entry at the start of the line, the result is NO_PSEUDO_FOUND and the line is unchanged. */
  lemma NoMatch(line: string)
    requires forall i :: 0 <= i < NUM_PSEUDO ==> !StartsWith(line, PseudoInstructionSet[i].mnemonic)
    ensures Find(line) == Match(NO_PSEUDO_FOUND, line)
  {
    FindFromResult(line, 0);
  }

  /** "org", "equ" or "end" not followed by a space is not recognised: the space is part of the mnemonic. */
  lemma NeedsTrailingSpace(line: string, i: nat)
    requires i < NUM_PSEUDO
    requires 3 <= |line| && line[..3] == PseudoInstructionSet[i].mnemonic[..3]
    requires |line| == 3 || line[3] != ' '
    ensures Find(line).identifier != i
  {
    FindResult(line, i);
    TableLayout(i);
  }
}
