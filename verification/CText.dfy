/**
 * C library text semantics used by the bridge when it fills fixed-size char
 * buffers: the C string a `std::string` exposes through `c_str()`, and
 * `strncpy` as section 7.24.2.4 of the C11 standard defines it.
 */
module CText {

  const NUL: char := '\0'

  /** What a C reader sees in `s`: the characters before its first NUL. */
  function CString(s: string): (c: string)
    ensures |c| <= |s| && c == s[..|c|]
    ensures NUL !in c
    ensures |c| < |s| ==> s[|c|] == NUL
  {
    if s == [] || s[0] == NUL then [] else [s[0]] + CString(s[1..])
  }

  /** `n` NUL characters. */
  function Zeros(n: nat): (z: seq<char>)
  {
    seq(n, _ => NUL)
  }

  /** The first `n` characters of `c`, or all of `c` when it is not longer than `n`. */
  function Truncated(c: string, n: nat): (t: string)
  {
    if |c| <= n then c else c[..n]
  }

  /**
   * The buffer `dst` after `strncpy(dst, src, n)`: at most `n` characters of
   * the C string are copied, nothing after its NUL, and when it is shorter
   * than `n` the rest of the first `n` bytes are filled with NUL. Bytes from
   * `n` on are not written.
   */
  function Strncpy(dst: seq<char>, src: string, n: nat): (r: seq<char>)
    requires n <= |dst|
  {
    var c := CString(src);
    seq(|dst|, i requires 0 <= i < |dst| => if i < n then (if i < |c| then c[i] else NUL) else dst[i])
  }

  /** A fixed-width field filled the bridge's way: `strncpy` of `size - 1` bytes, then a NUL forced into the last byte. */
  function FixedCopy(buf: seq<char>, src: string): (r: seq<char>)
    requires |buf| >= 1
  {
    Strncpy(buf, src, |buf| - 1)[|buf| - 1 := NUL]
  }

  /** `strncpy` writes the copied prefix, then NUL padding up to `n`, and leaves the tail alone. */
  lemma StrncpyShape(dst: seq<char>, src: string, n: nat)
    requires n <= |dst|
    ensures var t := Truncated(CString(src), n);
            Strncpy(dst, src, n) == t + Zeros(n - |t|) + dst[n..]
  {
  }

  /**
   * A fixed-width field holds the source's C string truncated to `size - 1`
   * characters followed by NUL padding, so it always ends in NUL and keeps
   * its size.
   */
  lemma FixedCopyShape(buf: seq<char>, src: string)
    requires |buf| >= 1
    ensures var t := Truncated(CString(src), |buf| - 1);
            FixedCopy(buf, src) == t + Zeros(|buf| - |t|)
    ensures |FixedCopy(buf, src)| == |buf| && FixedCopy(buf, src)[|buf| - 1] == NUL
  {
  }

  /** A C reader stops at the first padding NUL. */
  lemma {:induction false} CStringOfPadded(t: string, k: nat)
    requires NUL !in t && k >= 1
    ensures CString(t + Zeros(k)) == t
  {
    if t == [] {
      assert (t + Zeros(k))[0] == NUL;
    } else {
      assert (t + Zeros(k))[0] == t[0];
      assert (t + Zeros(k))[1..] == t[1..] + Zeros(k);
      CStringOfPadded(t[1..], k);
    }
  }

  /**
   * Reading a fixed-width field back as a C string gives the source truncated
   * to `size - 1` characters: exactly the source when it fits, its first
   * `size - 1` characters otherwise.
   */
  lemma FixedCopyReadBack(buf: seq<char>, src: string)
    requires |buf| >= 1
    ensures CString(FixedCopy(buf, src)) == Truncated(CString(src), |buf| - 1)
    ensures |CString(src)| < |buf| ==> CString(FixedCopy(buf, src)) == CString(src)
    ensures |CString(src)| >= |buf| ==> CString(FixedCopy(buf, src)) == CString(src)[..|buf| - 1]
  {
    var c := CString(src);
    var t := Truncated(c, |buf| - 1);
    FixedCopyShape(buf, src);
    assert NUL !in t by {
      if |c| > |buf| - 1 {
        assert t == c[..|buf| - 1];
        assert forall x :: x in t ==> x in c;
      }
    }
    CStringOfPadded(t, |buf| - |t|);
  }
}
