/** String helpers the renderer relies on: ASCII `str.capitalize`,
    concatenation of a list of pieces, and Python's `s[:stop]` slice. */
module Text {

  predicate IsAsciiLower(c: char) { 'a' <= c <= 'z' }

  predicate IsAsciiUpper(c: char) { 'A' <= c <= 'Z' }

  function AsciiUpper(c: char): (u: char)
    ensures !IsAsciiLower(u)
    ensures !IsAsciiLower(c) ==> u == c
  {
    if IsAsciiLower(c) then (c as int - 32) as char else c
  }

  function AsciiLower(c: char): (l: char)
    ensures !IsAsciiUpper(l)
    ensures !IsAsciiUpper(c) ==> l == c
  {
    if IsAsciiUpper(c) then (c as int + 32) as char else c
  }

  /** `str.capitalize` over ASCII: the first character upper-cased, every other one lower-cased. */
  function Capitalize(s: string): (r: string)
    ensures |r| == |s|
    ensures |s| > 0 ==> r[0] == AsciiUpper(s[0])
    ensures forall i :: 1 <= i < |s| ==> r[i] == AsciiLower(s[i])
  {
    if s == [] then []
    else [AsciiUpper(s[0])] + seq(|s| - 1, i requires 0 <= i < |s| - 1 => AsciiLower(s[i + 1]))
  }

  /** The pieces written one after another (the accumulator of a `+=` loop). */
  function Concat(ss: seq<string>): string
  {
    if ss == [] then [] else Concat(ss[..|ss| - 1]) + ss[|ss| - 1]
  }

  lemma {:induction false} ConcatAppend(a: seq<string>, b: seq<string>)
    ensures Concat(a + b) == Concat(a) + Concat(b)
  {
    if b == [] {
      assert a + b == a;
    } else {
      var b' := b[..|b| - 1];
      assert (a + b)[..|a + b| - 1] == a + b';
      ConcatAppend(a, b');
    }
  }

  /** Python's `s[:stop]`: a negative `stop` counts from the end, and the
      bound is clamped to the string, so `s[:-0]` is `s[:0]`, the empty string. */
  function PySliceTo(s: string, stop: int): (r: string)
    ensures r <= s
    ensures stop >= 0 ==> |r| == if stop <= |s| then stop else |s|
    ensures stop < 0 ==> |r| == if |s| + stop >= 0 then |s| + stop else 0
  {
    if stop >= 0 then (if stop <= |s| then s[..stop] else s)
    else if |s| + stop >= 0 then s[..|s| + stop]
    else []
  }

  /** Slicing off a non-empty suffix by its length undoes appending it. */
  lemma SliceDropsSuffix(s: string, t: string)
    requires |t| > 0
    ensures PySliceTo(s + t, -|t|) == s
  {
    assert (s + t)[..|s|] == s;
  }
}
