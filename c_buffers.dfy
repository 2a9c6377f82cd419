/** The C library calls the decoder makes on character buffers (`strlen`,
    `strrchr`), as methods on arrays whose contents are read as C strings. */
module CBuffers {
  import opened CStrings

  /** `strlen`: the index of the first NUL, or the whole buffer when it
      holds none. */
  method StrLen(a: array<char>) returns (n: nat)
    ensures n == |CString(a[..])|
  {
    n := 0;
    while n < a.Length && a[n] != NUL
      invariant n <= a.Length
      invariant NUL !in a[..n]
    {
      assert a[..n + 1] == a[..n] + [a[n]];
      n := n + 1;
    }
    assert a[..][..n] == a[..n];
    BeforeIsFirst(a[..], NUL, n);
  }

  /** `strrchr`: the position of the last `c` in the C string, or `None`
      for the NULL it returns when there is none. */
  method StrRChr(a: array<char>, c: char) returns (r: Option<nat>)
    requires c != NUL
    ensures r.None? <==> c !in CString(a[..])
    ensures r.Some? ==> r.value < |CString(a[..])| && CString(a[..])[r.value] == c
                        && c !in CString(a[..])[r.value + 1..]
  {
    var n := StrLen(a);
    ghost var s := CString(a[..]);
    assert s == a[..n];
    var i := n;
    while i > 0 && a[i - 1] != c
      invariant 0 <= i <= n
      invariant c !in s[i..]
    {
      assert s[i - 1..] == [a[i - 1]] + s[i..];
      i := i - 1;
    }
    if i == 0 {
      assert s == s[0..];
      r := None;
    } else {
      r := Some(i - 1);
    }
  }

  /** Writing a NUL inside the C string of a buffer cuts the C string
      there. */
  lemma CStringCut(buf: seq<char>, p: nat)
    requires p < |CString(buf)|
    ensures CString(buf[p := NUL]) == CString(buf)[..p]
  {
    var b := buf[p := NUL];
    assert b[..p] == CString(buf)[..p];
    BeforeIsFirst(b, NUL, p);
  }
}
