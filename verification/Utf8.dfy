/** Texts as Rust stores them: a string is measured and sliced in bytes of its UTF-8 encoding, and slicing inside a
    character panics. */
module Utf8 {
  import opened Prelude

  function Width(c: char): (w: nat)
    ensures 1 <= w <= 4
  {
    if c as int < 0x80 then 1
    else if c as int < 0x800 then 2
    else if c as int < 0x1_0000 then 3
    else 4
  }

  function ByteLen(s: string): nat {
    if s == "" then 0 else Width(s[0]) + ByteLen(s[1..])
  }

  /** How many characters the first `n` bytes make up; None if they end inside a character or beyond the text. */
  function CharsIn(s: string, n: nat): (k: Option<nat>)
    ensures k.Some? ==> k.value <= |s|
  {
    if n == 0 then Some(0)
    else if s == "" || Width(s[0]) > n then None
    else
      var k := CharsIn(s[1..], n - Width(s[0]));
      if k.None? then None else Some(k.value + 1)
  }

  /** The slice `&s[..n]`; None is the panic. */
  function Slice(s: string, n: nat): Option<string> {
    var k := CharsIn(s, n);
    if k.None? then None else Some(s[..k.value])
  }

  /** Byte `n` lies between two characters, or at an end. */
  predicate IsBoundary(s: string, n: nat) {
    exists k :: 0 <= k <= |s| && ByteLen(s[..k]) == n
  }

  lemma {:induction false} ByteLenAppend(a: string, b: string)
    ensures ByteLen(a + b) == ByteLen(a) + ByteLen(b)
  {
    if a == "" {
      assert a + b == b;
    } else {
      assert (a + b)[1..] == a[1..] + b;
      ByteLenAppend(a[1..], b);
    }
  }

  lemma {:induction false} CharsInIff(s: string, n: nat, k: nat)
    ensures CharsIn(s, n) == Some(k) <==> k <= |s| && ByteLen(s[..k]) == n
  {
    if k == 0 || s == "" {
      assert s[..0] == "";
    } else {
      if k <= |s| {
        assert s[..k][1..] == s[1..][..k - 1];
      }
      if Width(s[0]) <= n {
        CharsInIff(s[1..], n - Width(s[0]), k - 1);
      }
    }
  }

  /** A slice exists exactly at the boundaries, and then it is the beginning of the text that takes that many bytes. */
  lemma SliceIff(s: string, n: nat)
    ensures Slice(s, n).Some? <==> IsBoundary(s, n)
    ensures Slice(s, n).Some? ==> Slice(s, n).value <= s && ByteLen(Slice(s, n).value) == n
  {
    var found := CharsIn(s, n);
    if found.Some? {
      CharsInIff(s, n, found.value);
    }
    if IsBoundary(s, n) {
      var k :| 0 <= k <= |s| && ByteLen(s[..k]) == n;
      CharsInIff(s, n, k);
    }
  }

  /** The beginning of a text of characters of one width. */
  lemma {:induction false} EvenWidths(s: string, w: nat, k: nat)
    requires k <= |s| && forall c :: c in s ==> Width(c) == w
    ensures ByteLen(s[..k]) == w * k
  {
    if k == 0 {
    } else {
      assert s[..k][1..] == s[1..][..k - 1];
      EvenWidths(s[1..], w, k - 1);
    }
  }
}
