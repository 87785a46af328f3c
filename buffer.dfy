/**
 * The assembler's growable character buffer (asm8080/buffer.h).  `str` is
 * the heap block, reallocated to `length + 1` characters on every
 * `AddCharToBuffer`; after `ShiftBufferContentsLeft` the block is longer
 * than the contents and keeps a NUL after them.
 */
module Buffers {
  /** `ToLower`: 'A'..'Z' move up by 0x20, every other character is returned unchanged. */
  function ToLower(c: char): char
  {
    if 'A' <= c <= 'Z' then (c as int + 0x20) as char else c
  }

  /** Upper-case letters become the matching lower-case letters, and nothing else changes. */
  lemma ToLowerLaws(c: char)
    ensures 'A' <= c <= 'Z' ==> 'a' <= ToLower(c) <= 'z' && ToLower(c) as int - c as int == 0x20
    ensures !('A' <= c <= 'Z') ==> ToLower(c) == c
    ensures !('A' <= ToLower(c) <= 'Z')
  {
  }

  /** Lowering twice is lowering once. */
  lemma ToLowerIdempotent(c: char)
    ensures ToLower(ToLower(c)) == ToLower(c)
  {
    ToLowerLaws(c);
  }

  /** `buffer`. */
  class Buffer {
    var str: array?<char>
    var lastCharIndex: int
    var length: int

    /**
     * `last_char_index` trails `length` by one, and the block, once there
     * is one, holds at least `length` characters.
     */
    predicate Valid()
      reads this
    {
      && 0 <= length
      && lastCharIndex == length - 1
      && (str == null ==> length == 0)
      && (str != null ==> length <= str.Length)
    }

    /** The characters added and not yet shifted out. */
    function Contents(): seq<char>
      requires Valid()
      reads this, str
    {
      if str == null then [] else str[..length]
    }

    /** `NewBuffer()`. */
    constructor ()
      ensures Valid() && str == null && lastCharIndex == -1 && length == 0
      ensures Contents() == []
    {
      str := null;
      lastCharIndex := -1;
      length := 0;
    }

    /**
     * `AddCharToBuffer(b, c)`: the block becomes `length + 1` characters
     * long, keeping the first `length`, and c is stored after them.
     */
    method AddCharToBuffer(c: char)
      requires Valid()
      modifies this
      ensures Valid() && fresh(str)
      ensures length == old(length) + 1 && lastCharIndex == old(lastCharIndex) + 1
      ensures str[..] == old(Contents()) + [c]
      ensures Contents() == old(Contents()) + [c]
    {
      var n := length;
      var block := new char[n + 1];
      if str != null {
        // realloc: the first length characters move to the new block
        var previous := str;
        for i := 0 to n
          invariant str == previous && length == n && lastCharIndex == n - 1
          invariant block[..i] == previous[..i]
        {
          block[i] := previous[i];
        }
      }
      block[n] := c;
      str := block;
      lastCharIndex := lastCharIndex + 1;
      length := length + 1;
    }

    /**
     * `ShiftBufferContentsLeft(b)`: the first character is dropped, the
     * others move left by one, the freed slot becomes NUL and the length
     * shrinks by one; the block itself keeps its size.
     */
    method ShiftBufferContentsLeft()
      requires Valid() && length >= 1
      modifies str, this
      ensures Valid() && str == old(str)
      ensures length == old(length) - 1 && lastCharIndex == old(lastCharIndex) - 1
      ensures str[..] == old(str[1..length]) + ['\0'] + old(str[length..])
      ensures Contents() == old(Contents())[1..]
    {
      var s, n := str, length;
      for i := 1 to n
        invariant str == s && length == n && lastCharIndex == n - 1
        invariant s[..i - 1] == old(s[1..i])
        invariant s[i - 1..] == old(s[i - 1..])
      {
        s[i - 1] := s[i];
      }
      assert s[n..] == old(s[n..]);
      s[n - 1] := '\0';
      assert s[..] == s[..n - 1] + [s[n - 1]] + s[n..];
      length := length - 1;
      lastCharIndex := lastCharIndex - 1;
    }
  }

  /** `FreeBuffer(&b)`: the variable that held the buffer ends up NULL. */
  method FreeBuffer(b: Buffer?) returns (freed: Buffer?)
    ensures freed == null
  {
    freed := null;
  }
}
