/** `tail_lines` of utility.py, over the bytes of the file rather than the file
    itself: it scans backwards from the end and keeps the bytes after the
    `num_lines + 1`-th newline from the end. */
module Utility {

  type Byte = bv8

  const Newline: Byte := 10

  /** The default `num_lines`. */
  const DefaultTailLines: int := 100

  /** The number of newline bytes in s. */
  function Newlines(s: seq<Byte>): nat {
    if |s| == 0 then 0 else (if s[0] == Newline then 1 else 0) + Newlines(s[1..])
  }

  function Reverse(s: seq<Byte>): (r: seq<Byte>)
    ensures |r| == |s|
  {
    if |s| == 0 then [] else Reverse(s[1..]) + [s[0]]
  }

  /** Appending to the buffer puts the byte in front of the reversed buffer. */
  lemma {:induction false} ReverseSnoc(s: seq<Byte>, b: Byte)
    ensures Reverse(s + [b]) == [b] + Reverse(s)
  {
    if |s| > 0 {
      assert (s + [b])[1..] == s[1..] + [b];
      ReverseSnoc(s[1..], b);
    }
  }

  /** What `tail_lines(data, numLines)` returns: a suffix of the file. With a
      negative count it is empty. Otherwise it is the whole file, when the file holds
      at most `numLines` newlines, or the suffix that starts at the
      `numLines + 1`-th newline from the end. */
  predicate IsTail(data: seq<Byte>, numLines: int, r: seq<Byte>) {
    && |r| <= |data| && r == data[|data| - |r|..]
    && (numLines < 0 ==> r == [])
    && (numLines >= 0 ==>
          || (r == data && Newlines(data) <= numLines)
          || (|r| > 0 && r[0] == Newline && Newlines(r) == numLines + 1))
  }

  /** The loop of lines 13-19, then the reversal of line 22 (the UTF-8 decoding is
      not modelled). */
  method TailLines(data: seq<Byte>, numLines: int) returns (r: seq<Byte>)
    ensures IsTail(data, numLines, r)
  {
    var buffer: seq<Byte> := [];
    var lineCount := 0;
    var pointer := |data|;
    while lineCount <= numLines && pointer > 0
      invariant 0 <= pointer <= |data|
      invariant Reverse(buffer) == data[pointer..]
      invariant lineCount == Newlines(data[pointer..])
      invariant numLines >= 0 ==> lineCount <= numLines + 1
      invariant numLines < 0 ==> pointer == |data|
      invariant pointer < |data| && lineCount == numLines + 1 ==> data[pointer] == Newline
      decreases pointer
    {
      pointer := pointer - 1;
      var b := data[pointer];
      ReverseSnoc(buffer, b);
      buffer := buffer + [b];
      assert data[pointer..] == [b] + data[pointer + 1..];
      if b == Newline {
        lineCount := lineCount + 1;
      }
    }
    r := Reverse(buffer);
    assert data[0..] == data;
  }

  /** At most one suffix is the tail: the result of `tail_lines` is determined by the
      file and the count. */
  lemma TailIsUnique(data: seq<Byte>, numLines: int, r1: seq<Byte>, r2: seq<Byte>)
    requires IsTail(data, numLines, r1) && IsTail(data, numLines, r2)
    ensures r1 == r2
  {
    if numLines >= 0 {
      assert data[0..] == data;
      var i, j := |data| - |r1|, |data| - |r2|;
      var cut1 := |r1| > 0 && r1[0] == Newline && Newlines(r1) == numLines + 1;
      var cut2 := |r2| > 0 && r2[0] == Newline && Newlines(r2) == numLines + 1;
      if cut1 && cut2 {
        if i <= j {
          CutIsUnique(data, i, j);
        } else {
          CutIsUnique(data, j, i);
        }
      } else if cut2 {
        NewlinesSuffixMonotone(data, 0, j);
      } else if cut1 {
        NewlinesSuffixMonotone(data, 0, i);
      }
    }
  }

  /** What follows for the caller: at most `numLines + 1` newlines, the whole of a
      short file, and something from any non-empty file. */
  lemma TailFacts(data: seq<Byte>, numLines: int, r: seq<Byte>)
    requires IsTail(data, numLines, r) && numLines >= 0
    ensures Newlines(r) <= numLines + 1
    ensures Newlines(data) <= numLines ==> r == data
    ensures |data| > 0 ==> |r| > 0
  {
    assert data[0..] == data;
    NewlinesSuffixMonotone(data, 0, |data| - |r|);
  }

  /** What the cut result is pinned down by: two suffixes that both start with a
      newline and hold the same number of newlines are the same suffix. */
  lemma {:induction false} CutIsUnique(data: seq<Byte>, i: nat, j: nat)
    requires i <= j < |data|
    requires data[i] == Newline && data[j] == Newline
    requires Newlines(data[i..]) == Newlines(data[j..])
    ensures i == j
  {
    if i < j {
      assert data[i..] == [data[i]] + data[i + 1..];
      NewlinesSuffixMonotone(data, i + 1, j);
    }
  }

  /** A longer suffix never holds fewer newlines. */
  lemma {:induction false} NewlinesSuffixMonotone(data: seq<Byte>, i: nat, j: nat)
    requires i <= j <= |data|
    ensures Newlines(data[i..]) >= Newlines(data[j..])
    decreases j - i
  {
    if i < j {
      assert data[i..] == [data[i]] + data[i + 1..];
      NewlinesSuffixMonotone(data, i + 1, j);
    }
  }
}
