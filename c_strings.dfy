/** Character classes, C-string views and the small string functions the
    decoder uses in place of the C library: `isdigit`/`[0-9]`, `[A-Z]`,
    `sscanf("%d")` on a digit string, `strstr`, the NUL terminator and the
    `strtok(.., " ")` split. */
module CStrings {

  datatype Option<T> = None | Some(value: T)

  const NUL: char := '\0'

  function Min(a: int, b: int): int { if a <= b then a else b }

  function Max(a: int, b: int): int { if a <= b then b else a }

  predicate IsDigit(c: char) { '0' <= c <= '9' }

  predicate IsUpper(c: char) { 'A' <= c <= 'Z' }

  predicate AllDigits(s: string) { forall i :: 0 <= i < |s| ==> IsDigit(s[i]) }

  predicate AllUpper(s: string) { forall i :: 0 <= i < |s| ==> IsUpper(s[i]) }

  function DigitValue(c: char): (d: nat)
    requires IsDigit(c)
    ensures d < 10
  {
    (c as int) - ('0' as int)
  }

  function Pow10(n: nat): (p: nat)
    ensures p >= 1
  {
    if n == 0 then 1 else 10 * Pow10(n - 1)
  }

  /** The value `sscanf(s, "%d", ..)` stores for a string of decimal digits
      (integers are unbounded here: `int` overflow is not modelled). */
  function DecimalValue(s: string): nat
    requires AllDigits(s)
  {
    if s == [] then 0 else 10 * DecimalValue(s[..|s| - 1]) + DigitValue(s[|s| - 1])
  }

  /** The `width`-digit decimal numeral of `n`, with leading zeros. */
  function Numeral(n: nat, width: nat): (s: string)
    ensures |s| == width && AllDigits(s)
  {
    if width == 0 then [] else Numeral(n / 10, width - 1) + [('0' as int + n % 10) as char]
  }

  /** A digit string of length k stands for a number below 10^k. */
  lemma {:induction false} DecimalValueBound(s: string)
    requires AllDigits(s)
    ensures DecimalValue(s) < Pow10(|s|)
  {
    if s != [] {
      DecimalValueBound(s[..|s| - 1]);
    }
  }

  /** A digit string reads as 0 exactly when every digit is '0'. */
  lemma {:induction false} DecimalValueZero(s: string)
    requires AllDigits(s)
    ensures DecimalValue(s) == 0 <==> forall i :: 0 <= i < |s| ==> s[i] == '0'
  {
    if s != [] {
      var init := s[..|s| - 1];
      DecimalValueZero(init);
      assert forall i :: 0 <= i < |init| ==> init[i] == s[i];
    }
  }

  /** Reading back a numeral gives the number, when it fits in the width. */
  lemma {:induction false} DecimalValueOfNumeral(n: nat, width: nat)
    requires n < Pow10(width)
    ensures DecimalValue(Numeral(n, width)) == n
  {
    if width > 0 {
      DecimalValueOfNumeral(n / 10, width - 1);
      var s := Numeral(n, width);
      assert s[..|s| - 1] == Numeral(n / 10, width - 1);
    }
  }

  /** The prefix of `s` before the first occurrence of `c` (all of `s` when
      `c` does not occur): the C string held in a buffer when `c` is NUL,
      the first line when `c` is '\n'. */
  function Before(s: string, c: char): (r: string)
    ensures |r| <= |s| && r == s[..|r|]
    ensures c !in r
    ensures |r| < |s| ==> s[|r|] == c
  {
    if s == [] || s[0] == c then [] else [s[0]] + Before(s[1..], c)
  }

  /** The C string stored in a char buffer: everything before the first NUL. */
  function CString(buf: seq<char>): string
  {
    Before(buf, NUL)
  }

  /** The first line of a text. */
  function FirstLine(s: string): string
  {
    Before(s, '\n')
  }

  lemma {:induction false} BeforeIsFirst(s: string, c: char, k: nat)
    requires k <= |s| && c !in s[..k] && (k == |s| || s[k] == c)
    ensures Before(s, c) == s[..k]
  {
    if k > 0 {
      assert s[0] == s[..k][0];
      assert s[1..][..k - 1] == s[..k][1..];
      BeforeIsFirst(s[1..], c, k - 1);
    }
  }

  /** `strstr(t, w) != NULL`. */
  predicate HasSubstring(t: string, w: string)
    decreases |t|
  {
    |w| <= |t| && (t[..|w|] == w || HasSubstring(t[1..], w))
  }

  /** Every character of a substring occurs in the text. */
  lemma {:induction false} SubstringChars(t: string, w: string, c: char)
    requires HasSubstring(t, w) && c in w
    ensures c in t
    decreases |t|
  {
    if t[..|w|] == w {
      assert c in t[..|w|];
    } else {
      SubstringChars(t[1..], w, c);
    }
  }

  /** The characters of `s` other than `c`, in order. */
  function Without(s: string, c: char): (r: string)
    ensures c !in r && |r| <= |s|
  {
    if s == [] then [] else (if s[0] == c then [] else [s[0]]) + Without(s[1..], c)
  }

  function Concat(ts: seq<string>): string
  {
    if ts == [] then [] else ts[0] + Concat(ts[1..])
  }

  /** The tokens separated by single spaces. */
  function JoinSpaced(ts: seq<string>): string
  {
    if ts == [] then [] else if |ts| == 1 then ts[0] else ts[0] + " " + JoinSpaced(ts[1..])
  }

  predicate IsWord(t: string) { t != [] && ' ' !in t }

  /** What `strtok(s, " ")` followed by `strtok(NULL, " ")` calls return, in
      order: the maximal runs of non-space characters. */
  function Tokens(s: string): (r: seq<string>)
    ensures forall k :: 0 <= k < |r| ==> IsWord(r[k])
    ensures Concat(r) == Without(s, ' ')
  {
    TokensFrom(s, [])
  }

  /** Splitting the rest `s` of a text while the token `cur` is being read. */
  function TokensFrom(s: string, cur: string): (r: seq<string>)
    requires ' ' !in cur
    ensures forall k :: 0 <= k < |r| ==> IsWord(r[k])
    ensures Concat(r) == cur + Without(s, ' ')
    decreases |s|
  {
    if s == [] then
      (if cur == [] then [] else [cur])
    else if s[0] == ' ' then
      (if cur == [] then TokensFrom(s[1..], []) else [cur] + TokensFrom(s[1..], []))
    else
      TokensFrom(s[1..], cur + [s[0]])
  }

  lemma {:induction false} TokensFromWord(w: string, rest: string, cur: string)
    requires ' ' !in cur && ' ' !in w && cur + w != []
    ensures rest == [] ==> TokensFrom(w + rest, cur) == [cur + w]
    ensures rest != [] && rest[0] == ' ' ==> TokensFrom(w + rest, cur) == [cur + w] + TokensFrom(rest[1..], [])
    decreases |w|
  {
    if w == [] {
      assert w + rest == rest;
      assert cur + w == cur;
      if rest != [] && rest[0] == ' ' {
        assert TokensFrom(rest, cur) == [cur] + TokensFrom(rest[1..], []);
      }
    } else {
      assert (w + rest)[0] == w[0];
      assert (w + rest)[1..] == w[1..] + rest;
      assert cur + [w[0]] + w[1..] == cur + w;
      TokensFromWord(w[1..], rest, cur + [w[0]]);
    }
  }

  /** These four facts fix `Tokens` on every text by induction on its
      length. An empty text has no token; */
  lemma TokensOfEmpty()
    ensures Tokens([]) == []
  {
  }

  /** a leading space is skipped, so runs of spaces and spaces at either
      end produce no token; */
  lemma TokensSkipSpace(s: string)
    ensures Tokens(" " + s) == Tokens(s)
  {
    assert (" " + s)[1..] == s;
  }

  /** a word alone is one token; */
  lemma TokensOfWord(w: string)
    requires IsWord(w)
    ensures Tokens(w) == [w]
  {
    TokensFromWord(w, [], []);
    assert w + [] == w && [] + w == w;
  }

  /** and a word followed by a space is the first token, whatever follows. */
  lemma TokensOfWordThen(w: string, s: string)
    requires IsWord(w)
    ensures Tokens(w + " " + s) == [w] + Tokens(s)
  {
    var rest := " " + s;
    assert w + " " + s == w + rest;
    TokensFromWord(w, rest, []);
    assert [] + w == w;
    assert rest[1..] == s;
  }

  /** Splitting tokens joined by single spaces gives the tokens back. */
  lemma {:induction false} TokensOfJoinSpaced(ts: seq<string>)
    requires forall k :: 0 <= k < |ts| ==> IsWord(ts[k])
    ensures Tokens(JoinSpaced(ts)) == ts
  {
    if |ts| == 1 {
      assert ts[0] + [] == ts[0];
      TokensFromWord(ts[0], [], []);
      assert [] + ts[0] == ts[0];
    } else if |ts| > 1 {
      var rest := " " + JoinSpaced(ts[1..]);
      assert JoinSpaced(ts) == ts[0] + rest;
      TokensFromWord(ts[0], rest, []);
      assert [] + ts[0] == ts[0];
      assert rest[1..] == JoinSpaced(ts[1..]);
      TokensOfJoinSpaced(ts[1..]);
      assert ts == [ts[0]] + ts[1..];
    }
  }
}
