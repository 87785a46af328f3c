/**
 * The assembler's line token array (asm8080/line_token_array.h): a heap
 * block of tokens, each the address of a private copy of one source line
 * and that line's length, grown by `realloc` as lines are added.  The
 * results of `malloc` and `realloc` are parameters of `AddLineToken`.
 */
module LineTokens {
  import opened AsmCommon

  /** The `line` field of a token: never set, NULL, or a block holding a copy of a line. */
  datatype Pointer = Uninitialised | Null | Text(text: string)

  /** `token`; a `lineLength` of None is a field never written. */
  datatype Slot = Slot(line: Pointer, lineLength: Option<int>)

  datatype Option<T> = None | Some(value: T)

  /** A token of a block fresh from `malloc` or from the grown part of a `realloc`. */
  const Fresh: Slot := Slot(Uninitialised, None)

  /** The value of `*array`: NULL, or the tokens of the block it points at. */
  datatype Store = NoBlock | Block(slots: seq<Slot>)

  /** The tokens after `realloc` to n tokens: the first ones keep their contents. */
  function Realloc(slots: seq<Slot>, n: nat): (r: seq<Slot>)
    ensures |r| == n
  {
    seq(n, i requires 0 <= i < n => if i < |slots| then slots[i] else Fresh)
  }

  /**
   * What the caller must provide: a slot inside the block that is about to
   * be written (the only one of a fresh block, or one of the `num_tokens +
   * 1` after the `realloc`), and a length `new_line_length` that leaves
   * room for the terminator `strcpy` writes.
   */
  predicate AddAllowed(store: Store, newLine: string, newLineLength: int, lineIndex: int, numTokens: int,
                       blockAllocated: bool, lineAllocated: bool)
  {
    && NoNul(newLine)
    && 0 <= numTokens
    && (blockAllocated ==>
          && 0 <= lineIndex
          && (if store.NoBlock? then lineIndex == 0 else lineIndex <= numTokens))
    && (blockAllocated && lineAllocated ==> |newLine| < newLineLength)
  }

  /** The status `AddLineToken` returns and the value `*array` is left with. */
  datatype Outcome = Outcome(status: int, store: Store)

  /**
   * `AddLineToken(new_line, new_line_length, line_index, num_tokens, array)`;
   * `blockAllocated` says whether the `malloc` or `realloc` of the block
   * succeeds and `lineAllocated` whether the `malloc` of the line does.
   */
  function Add(store: Store, newLine: string, newLineLength: int, lineIndex: int, numTokens: int,
               blockAllocated: bool, lineAllocated: bool): Outcome
    requires AddAllowed(store, newLine, newLineLength, lineIndex, numTokens, blockAllocated, lineAllocated)
  {
    if !blockAllocated then
      // a failed realloc returns NULL, which is stored over the only pointer to the old block
      Outcome(EXIT_FAILURE, NoBlock)
    else
      var slots := if store.NoBlock? then [Fresh] else Realloc(store.slots, numTokens + 1);
      if !lineAllocated then
        Outcome(EXIT_FAILURE, Block(slots[lineIndex := slots[lineIndex].(line := Null)]))
      else
        Outcome(EXIT_SUCCESS, Block(slots[lineIndex := Slot(Text(newLine), Some(newLineLength))]))
  }

  /** The line pointers `FreeLineTokens(num_tokens, array)` passes to `free`, in order. */
  function Freed(store: Store, numTokens: int): seq<Pointer>
    requires store.Block? ==> 0 <= numTokens <= |store.slots|
  {
    if store.NoBlock? then [] else seq(numTokens, i requires 0 <= i < numTokens => store.slots[i].line)
  }

  /** The variable `lines` the assembler passes by address. */
  class LineTokenArray {
    var tokens: array?<Slot>

    /** `token *lines = NULL`. */
    constructor ()
      ensures tokens == null
    {
      tokens := null;
    }

    /** The value of the variable. */
    function Contents(): Store
      reads this, tokens
    {
      if tokens == null then NoBlock else Block(tokens[..])
    }

    /** `AddLineToken`; a successful `realloc` is modelled as a move to a fresh block. */
    method AddLineToken(newLine: string, newLineLength: int, lineIndex: int, numTokens: int,
                        blockAllocated: bool, lineAllocated: bool) returns (status: int)
      requires AddAllowed(Contents(), newLine, newLineLength, lineIndex, numTokens, blockAllocated, lineAllocated)
      modifies this
      ensures tokens == null || fresh(tokens)
      ensures Outcome(status, Contents()) ==
        Add(old(Contents()), newLine, newLineLength, lineIndex, numTokens, blockAllocated, lineAllocated)
    {
      if tokens == null {
        if !blockAllocated {
          return EXIT_FAILURE;
        }
        tokens := new Slot[1](_ => Fresh);
        assert tokens[..] == [Fresh];
      } else {
        if !blockAllocated {
          tokens := null;
          return EXIT_FAILURE;
        }
        var previous := tokens;
        var block := new Slot[numTokens + 1](_ => Fresh);
        var kept := if previous.Length < numTokens + 1 then previous.Length else numTokens + 1;
        for i := 0 to kept
          invariant tokens == previous
          invariant block[..] == Realloc(previous[..i], numTokens + 1)
        {
          block[i] := previous[i];
        }
        assert block[..] == Realloc(previous[..], numTokens + 1);
        tokens := block;
      }
      ghost var grown := tokens[..];
      if !lineAllocated {
        tokens[lineIndex] := tokens[lineIndex].(line := Null);
        assert tokens[..] == grown[lineIndex := grown[lineIndex].(line := Null)];
        return EXIT_FAILURE;
      }
      tokens[lineIndex] := Slot(Text(newLine), Some(newLineLength));
      return EXIT_SUCCESS;
    }

    /**
     * `FreeLineTokens(num_tokens, array)`: `freed` lists the line pointers
     * passed to `free`; the variable ends up NULL.
     */
    method FreeLineTokens(numTokens: int) returns (freed: seq<Pointer>)
      requires tokens != null ==> 0 <= numTokens <= tokens.Length
      modifies this
      ensures tokens == null
      ensures freed == Freed(old(Contents()), numTokens)
    {
      if tokens == null {
        return [];
      }
      var block := tokens;
      freed := [];
      for i := 0 to numTokens
        invariant tokens == block
        invariant freed == Freed(Block(block[..]), i)
      {
        freed := freed + [block[i].line];
      }
      tokens := null;
    }
  }

  // ---------------------------------------------------------------- properties

  /** The call succeeds exactly when both allocations do. */
  lemma AddStatus(store: Store, newLine: string, newLineLength: int, lineIndex: int, numTokens: int,
                  blockAllocated: bool, lineAllocated: bool)
    requires AddAllowed(store, newLine, newLineLength, lineIndex, numTokens, blockAllocated, lineAllocated)
    ensures var r := Add(store, newLine, newLineLength, lineIndex, numTokens, blockAllocated, lineAllocated);
      && (r.status == EXIT_SUCCESS <==> blockAllocated && lineAllocated)
      && (r.status == EXIT_SUCCESS || r.status == EXIT_FAILURE)
  {
  }

  /**
   * On success the block has one token when there was none and
   * `num_tokens + 1` otherwise; slot `line_index` holds the line and its
   * length, and every other slot is what it was before (or never written,
   * past the old block).
   */
  lemma AddFillsSlot(store: Store, newLine: string, newLineLength: int, lineIndex: int, numTokens: int)
    requires AddAllowed(store, newLine, newLineLength, lineIndex, numTokens, true, true)
    ensures var r := Add(store, newLine, newLineLength, lineIndex, numTokens, true, true);
      && r.status == EXIT_SUCCESS && r.store.Block?
      && |r.store.slots| == (if store.NoBlock? then 1 else numTokens + 1)
      && r.store.slots[lineIndex] == Slot(Text(newLine), Some(newLineLength))
      && (forall i :: 0 <= i < |r.store.slots| && i != lineIndex ==>
            r.store.slots[i] == if store.Block? && i < |store.slots| then store.slots[i] else Fresh)
  {
  }

  /** Re-adding the same line in a block that already has room changes nothing. */
  lemma AddAgainSame(slots: seq<Slot>, newLine: string, newLineLength: int, lineIndex: int)
    requires NoNul(newLine) && |newLine| < newLineLength && 0 <= lineIndex < |slots|
    requires slots[lineIndex] == Slot(Text(newLine), Some(newLineLength))
    ensures Add(Block(slots), newLine, newLineLength, lineIndex, |slots| - 1, true, true) ==
      Outcome(EXIT_SUCCESS, Block(slots))
  {
    assert Realloc(slots, |slots|) == slots;
    assert slots[lineIndex := slots[lineIndex]] == slots;
  }

  /**
   * A failed `realloc` leaves the variable NULL whatever it held, so the
   * old block and its lines can no longer be reached; a failed first
   * `malloc` leaves it NULL too.
   */
  lemma BlockFailureLosesTokens(store: Store, newLine: string, newLineLength: int, lineIndex: int, numTokens: int,
                                lineAllocated: bool)
    requires AddAllowed(store, newLine, newLineLength, lineIndex, numTokens, false, lineAllocated)
    ensures Add(store, newLine, newLineLength, lineIndex, numTokens, false, lineAllocated) == Outcome(EXIT_FAILURE, NoBlock)
  {
  }

  /**
   * A failed line `malloc` still stores its NULL in slot `line_index` and
   * leaves that slot's length as it was; the block keeps its new size.
   */
  lemma LineFailureStoresNull(store: Store, newLine: string, newLineLength: int, lineIndex: int, numTokens: int)
    requires AddAllowed(store, newLine, newLineLength, lineIndex, numTokens, true, false)
    ensures var r := Add(store, newLine, newLineLength, lineIndex, numTokens, true, false);
      && r.status == EXIT_FAILURE && r.store.Block?
      && |r.store.slots| == (if store.NoBlock? then 1 else numTokens + 1)
      && r.store.slots[lineIndex].line == Null
      && r.store.slots[lineIndex].lineLength ==
           (if store.Block? && lineIndex < |store.slots| then store.slots[lineIndex].lineLength else None)
  {
  }

  /** Freeing NULL frees nothing; otherwise exactly the first `num_tokens` lines are freed, in order. */
  lemma FreedLines(store: Store, numTokens: int)
    requires store.Block? ==> 0 <= numTokens <= |store.slots|
    ensures store.NoBlock? ==> Freed(store, numTokens) == []
    ensures store.Block? ==> |Freed(store, numTokens)| == numTokens
    ensures store.Block? ==> forall i :: 0 <= i < numTokens ==> Freed(store, numTokens)[i] == store.slots[i].line
  {
  }

  /** Lines added one after another at indices 0, 1, ... by successful calls are all kept, in order. */
  lemma {:induction false} AddInOrder(store: Store, lines: seq<string>, numTokens: nat)
    requires store.Block? && |store.slots| == numTokens
    requires forall k :: 0 <= k < |lines| ==> NoNul(lines[k])
    ensures var r := AddAll(store, lines, numTokens);
      && r.Block? && |r.slots| == numTokens + |lines|
      && (forall i :: 0 <= i < numTokens ==> r.slots[i] == store.slots[i])
      && (forall k :: 0 <= k < |lines| ==> r.slots[numTokens + k] == Slot(Text(lines[k]), Some(|lines[k]| + 1)))
    decreases |lines|
  {
    if |lines| > 0 {
      var next := Add(store, lines[0], |lines[0]| + 1, numTokens, numTokens, true, true).store;
      AddFillsSlot(store, lines[0], |lines[0]| + 1, numTokens, numTokens);
      AddInOrder(next, lines[1..], numTokens + 1);
      var r := AddAll(store, lines, numTokens);
      forall k | 0 <= k < |lines|
        ensures r.slots[numTokens + k] == Slot(Text(lines[k]), Some(|lines[k]| + 1))
      {
        if k > 0 {
          assert lines[1..][k - 1] == lines[k];
        }
      }
    }
  }

  /**
   * Successful calls adding each line at the next index, with its length
   * counting the terminator, starting from a block of `numTokens` tokens.
   */
  function AddAll(store: Store, lines: seq<string>, numTokens: nat): Store
    requires store.Block? && |store.slots| == numTokens
    requires forall k :: 0 <= k < |lines| ==> NoNul(lines[k])
    decreases |lines|
  {
    if |lines| == 0 then store
    else
      var next := Add(store, lines[0], |lines[0]| + 1, numTokens, numTokens, true, true).store;
      AddFillsSlot(store, lines[0], |lines[0]| + 1, numTokens, numTokens);
      AddAll(next, lines[1..], numTokens + 1)
  }
}
