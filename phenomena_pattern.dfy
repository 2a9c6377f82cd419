/** `build_phenomena_regex_patterns` of `src/metar.c`: the text of the
    extended regular expression that recognizes a phenomenon group, built from
    the phenomenon table into a buffer of `len` characters. The decoder does
    not run a regular-expression engine on it: its meaning is given by
    `Recognizers.IsPhenomenonToken`, which is written over the same table. */
module PhenomenaPattern {
  import opened CStrings
  import opened PhenomenonDictionary

  const Head: string := "^([+-]?)(("
  const Tail: string := ")+)$"

  /** `PHENOMENA_REGEX_SIZE`, the buffer the decoder passes in. */
  const PHENOMENA_REGEX_SIZE: int := 275

  /** The smallest buffer for which no code is skipped. */
  const FULL_PATTERN_SIZE: int := 118

  /** The codes `cs` separated by '|'. */
  function Alternation(cs: seq<Phenomenon>): string
  {
    if cs == [] then []
    else if |cs| == 1 then cs[0].code
    else Alternation(cs[..|cs| - 1]) + "|" + cs[|cs| - 1].code
  }

  /** Room left for codes once head, tail and NUL are reserved. */
  function MaxCharsAdded(len: int): int
  {
    len - |Head| - |Tail| - 1
  }

  /** One iteration of the loop on the buffer content `p`: the code is copied
      when it fits, then a separator when the buffer is not full. */
  function BuildStep(len: int, p: string, code: string): string
  {
    var withCode := if |p| + |code| < MaxCharsAdded(len) then p + code else p;
    if |withCode| < len then withCode + "|" else withCode
  }

  /** The buffer content after the loop has gone over the codes `cs`. */
  function BuiltOver(len: int, cs: seq<Phenomenon>): (p: string)
    ensures |p| >= |Head|
  {
    if cs == [] then Head else BuildStep(len, BuiltOver(len, cs[..|cs| - 1]), cs[|cs| - 1].code)
  }

  /** The final text: the last character (a separator) is dropped and the
      tail appended. */
  function PatternFor(len: int): string
  {
    var p := BuiltOver(len, Phenomena);
    p[..|p| - 1] + Tail
  }

  method BuildPhenomenaRegexPattern(len: int) returns (r: Option<string>)
    ensures r.None? <==> MaxCharsAdded(len) < 0
    ensures r.Some? ==> r.value == PatternFor(len)
    ensures len >= FULL_PATTERN_SIZE ==> r == Some(Head + Alternation(Phenomena) + Tail)
  {
    var maxCharsAdded := len - |Head| - |Tail| - 1;
    if maxCharsAdded < 0 {
      // the C function reports the size and calls exit(EXIT_FAILURE)
      return None;
    }
    var pattern := Head;
    for i := 0 to |Phenomena|
      invariant pattern == BuiltOver(len, Phenomena[..i])
    {
      var code := Phenomena[i].code;
      assert Phenomena[..i + 1][..i] == Phenomena[..i];
      if |pattern| + |code| < maxCharsAdded {
        pattern := pattern + code;
      }
      if |pattern| < len {
        pattern := pattern + "|";
      }
    }
    assert Phenomena[..|Phenomena|] == Phenomena;
    pattern := pattern[..|pattern| - 1];
    pattern := pattern + Tail;
    r := Some(pattern);
    if len >= FULL_PATTERN_SIZE {
      FullPattern(len);
    }
  }

  /** With room for every code, the buffer holds head, then each code
      followed by a separator. */
  lemma {:induction false} BuiltOverFull(len: int, cs: seq<Phenomenon>)
    requires len >= FULL_PATTERN_SIZE && 1 <= |cs| <= 31
    requires forall k :: 0 <= k < |cs| ==> |cs[k].code| == 2
    ensures BuiltOver(len, cs) == Head + Alternation(cs) + "|"
    ensures |Alternation(cs)| == 3 * |cs| - 1
  {
    if |cs| > 1 {
      var init := cs[..|cs| - 1];
      BuiltOverFull(len, init);
    }
  }

  /** Every buffer from `FULL_PATTERN_SIZE` on, `PHENOMENA_REGEX_SIZE` among
      them, yields `^([+-]?)((` + all codes joined by '|' + `)+)$`. */
  lemma FullPattern(len: int)
    requires len >= FULL_PATTERN_SIZE
    ensures PatternFor(len) == Head + Alternation(Phenomena) + Tail
  {
    TableShape();
    BuiltOverFull(len, Phenomena);
    var p := BuiltOver(len, Phenomena);
    assert p[..|p| - 1] == Head + Alternation(Phenomena);
  }
}
