/**
 * The two string operations the traversal check leans on, stated on Dafny
 * strings (sequences of Unicode scalar values, the same values a Rust `str`
 * holds):
 *  - `String::len`, which counts the bytes of the UTF-8 encoding, and
 *  - `Substring::substring` of the `substring` crate, which slices by
 *    character index and clamps an end index past the end of the string.
 */
module RustStr {

  function Min(a: int, b: int): int {
    if a <= b then a else b
  }

  /** A character that UTF-8 encodes in a single byte. */
  predicate IsAscii(c: char) {
    c as int < 0x80
  }

  predicate AllAscii(s: string) {
    forall i :: 0 <= i < |s| ==> IsAscii(s[i])
  }

  /** Number of bytes UTF-8 uses for one scalar value. */
  function Utf8Width(c: char): (w: nat)
    ensures 1 <= w <= 4
    ensures w == 1 <==> IsAscii(c)
  {
    if c as int < 0x80 then 1
    else if c as int < 0x800 then 2
    else if c as int < 0x1_0000 then 3
    else 4
  }

  /**
   * `String::len`: the length in bytes of the UTF-8 encoding of `s`. It is
   * never less than the number of characters, and equals it exactly when
   * every character is ASCII.
   */
  function Utf8Len(s: string): (n: nat)
    ensures |s| <= n <= 4 * |s|
    ensures n == |s| <==> AllAscii(s)
  {
    if s == [] then 0
    else
      var n := Utf8Width(s[0]) + Utf8Len(s[1..]);
      assert AllAscii(s) <==> IsAscii(s[0]) && AllAscii(s[1..]) by {
        assert forall i :: 1 <= i < |s| ==> s[i] == s[1..][i - 1];
      }
      n
  }

  /** The byte length of a concatenation is the sum of the byte lengths. */
  lemma {:induction false} Utf8LenAppend(a: string, b: string)
    ensures Utf8Len(a + b) == Utf8Len(a) + Utf8Len(b)
  {
    if a != [] {
      assert (a + b)[0] == a[0];
      assert (a + b)[1..] == a[1..] + b;
      Utf8LenAppend(a[1..], b);
    } else {
      assert a + b == b;
    }
  }

  /**
   * `s.substring(start, end)` of the `substring` crate: the characters of `s`
   * from index `start` up to (not including) index `end`, where an index past
   * the end of `s` stands for the end of `s`, and an empty string whenever
   * `end <= start`.
   */
  function Substring(s: string, start: nat, end: nat): (r: string)
    ensures end <= start ==> r == []
    ensures start < end ==> |r| == Min(end, |s|) - Min(start, |s|)
    ensures forall i :: 0 <= i < |r| ==> start + i < |s| && r[i] == s[start + i]
  {
    if end <= start then []
    else s[Min(start, |s|)..Min(end, |s|)]
  }

  /**
   * A substring taken from index 0 is a prefix of `s`: the whole of `s` when
   * `n` reaches past its end, otherwise its first `n` characters.
   */
  lemma SubstringFromStart(s: string, n: nat)
    ensures Substring(s, 0, n) <= s
    ensures n >= |s| ==> Substring(s, 0, n) == s
    ensures n < |s| ==> |Substring(s, 0, n)| == n
  {
  }
}
