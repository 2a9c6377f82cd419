/** The text `analyse_token` in `src/metar.c` builds for a phenomenon token:
    an intensity word, then the description of every two-letter group,
    appended with `strncat` to a buffer of `PHENOMENON_STR_SIZE` characters,
    and finally the last character (the trailing space) removed. */
module PhenomenonDescription {
  import opened CStrings
  import opened PhenomenonDictionary
  import opened Recognizers

  /** `PHENOMENON_STR_SIZE`: `strncat` never lets the text grow past it. */
  const PHENOMENON_STR_SIZE: nat := 99

  /** The phenomenon recorded for a token containing `CAVOK`. */
  const CAVOK_TEXT: string := "Ceiling and visibility OK"

  /** "Light " for a leading '-', "Heavy " for a leading '+', else nothing. */
  function IntensityPrefix(t: string): (p: string)
    ensures |p| <= 6
    ensures p != [] <==> IntensityLength(t) == 1
  {
    if |t| > 0 && t[0] == '-' then "Light "
    else if |t| > 0 && t[0] == '+' then "Heavy "
    else ""
  }

  /** The first `PHENOMENON_STR_SIZE` characters of `s`. */
  function Truncate(s: string): (r: string)
    ensures |r| == Min(|s|, PHENOMENON_STR_SIZE) && r == s[..|r|]
  {
    s[..Min(|s|, PHENOMENON_STR_SIZE)]
  }

  /** `strncat(dst, src, PHENOMENON_STR_SIZE - strlen(dst))`. */
  function StrNCat(dst: string, src: string): (r: string)
    requires |dst| <= PHENOMENON_STR_SIZE
    ensures |r| <= PHENOMENON_STR_SIZE
    ensures r == Truncate(dst + src)
  {
    dst + src[..Min(|src|, PHENOMENON_STR_SIZE - |dst|)]
  }

  /** The descriptions of the two-letter groups of `g`, in order. */
  function Descriptions(g: string): (ds: seq<string>)
    requires IsCodeSequence(g)
    ensures |ds| > 0
    ensures forall k :: 0 <= k < |ds| ==> EndsInSpace(ds[k])
    decreases |g|
  {
    CodeDecodes(g[..2]);
    DescriptionShape(g[..2]);
    var d := DecodePhenomena(g[..2]).value;
    if |g| == 2 then [d] else [d] + Descriptions(g[2..])
  }

  /** The buffer after the loop has appended each of `ds` to `acc`. */
  function Appended(acc: string, ds: seq<string>): (r: string)
    requires |acc| <= PHENOMENON_STR_SIZE
    ensures |r| <= PHENOMENON_STR_SIZE
    decreases |ds|
  {
    if ds == [] then acc else Appended(StrNCat(acc, ds[0]), ds[1..])
  }

  /** Appending piece by piece with `strncat` keeps the first
      `PHENOMENON_STR_SIZE` characters of the whole concatenation. */
  lemma {:induction false} AppendedIsTruncation(acc: string, ds: seq<string>)
    requires |acc| <= PHENOMENON_STR_SIZE
    ensures Appended(acc, ds) == Truncate(acc + Concat(ds))
    decreases |ds|
  {
    if ds == [] {
      assert acc + [] == acc;
    } else {
      var a1 := StrNCat(acc, ds[0]);
      var rest := Concat(ds[1..]);
      AppendedIsTruncation(a1, ds[1..]);
      assert acc + Concat(ds) == (acc + ds[0]) + rest;
      if |acc| + |ds[0]| <= PHENOMENON_STR_SIZE {
        assert a1 == acc + ds[0];
      } else {
        assert |a1| == PHENOMENON_STR_SIZE;
        assert (a1 + rest)[..PHENOMENON_STR_SIZE] == a1;
        assert ((acc + ds[0]) + rest)[..PHENOMENON_STR_SIZE] == (acc + ds[0])[..PHENOMENON_STR_SIZE];
      }
    }
  }

  /** A concatenation of texts that all end in a space ends in a space. */
  lemma {:induction false} ConcatEndsInSpace(ds: seq<string>)
    requires |ds| > 0
    requires forall k :: 0 <= k < |ds| ==> EndsInSpace(ds[k])
    ensures EndsInSpace(Concat(ds))
  {
    if |ds| > 1 {
      ConcatEndsInSpace(ds[1..]);
    } else {
      assert Concat(ds) == ds[0] + [];
    }
  }

  /** The intensity word followed by every description, before truncation. */
  function FullText(t: string): string
    requires IsPhenomenonToken(t)
  {
    IntensityPrefix(t) + Concat(Descriptions(CodeGroup(t)))
  }

  /** The phenomenon text recorded for a phenomenon token. */
  function PhenomenonText(t: string): string
    requires IsPhenomenonToken(t)
  {
    var s := Appended(IntensityPrefix(t), Descriptions(CodeGroup(t)));
    AppendedIsTruncation(IntensityPrefix(t), Descriptions(CodeGroup(t)));
    ConcatEndsInSpace(Descriptions(CodeGroup(t)));
    s[..|s| - 1]
  }

  /** The buffer after appending texts that end in spaces to a prefix, with
      its last character dropped, against the untruncated concatenation. */
  lemma {:induction false} AppendedWithoutLast(prefix: string, ds: seq<string>)
    requires |prefix| <= PHENOMENON_STR_SIZE && |ds| > 0
    requires forall k :: 0 <= k < |ds| ==> EndsInSpace(ds[k])
    ensures var s := Appended(prefix, ds); var full := prefix + Concat(ds);
      && |s| > 0 && EndsInSpace(full)
      && (|full| <= PHENOMENON_STR_SIZE ==> s[..|s| - 1] + " " == full)
      && (|full| > PHENOMENON_STR_SIZE ==> s[..|s| - 1] == full[..PHENOMENON_STR_SIZE - 1])
  {
    AppendedIsTruncation(prefix, ds);
    ConcatEndsInSpace(ds);
    var c := Concat(ds);
    var full := prefix + c;
    assert full[|full| - 1] == c[|c| - 1];
    if |full| <= PHENOMENON_STR_SIZE {
      assert full == full[..|full| - 1] + " ";
    }
  }

  /** What the text is: the full text without its trailing space when that
      fits the buffer, and otherwise its first `PHENOMENON_STR_SIZE - 1`
      characters. */
  lemma PhenomenonTextMeaning(t: string)
    requires IsPhenomenonToken(t)
    ensures EndsInSpace(FullText(t))
    ensures |FullText(t)| <= PHENOMENON_STR_SIZE ==> PhenomenonText(t) + " " == FullText(t)
    ensures |FullText(t)| > PHENOMENON_STR_SIZE ==> PhenomenonText(t) == FullText(t)[..PHENOMENON_STR_SIZE - 1]
    ensures |PhenomenonText(t)| < PHENOMENON_STR_SIZE
  {
    AppendedWithoutLast(IntensityPrefix(t), Descriptions(CodeGroup(t)));
  }

  /** The first description is that of the first group; the rest are those
      of the remaining groups. */
  lemma DescriptionsHead(g: string)
    requires IsCodeSequence(g)
    ensures DecodePhenomena(g[..2]).Some? && Descriptions(g)[0] == DecodePhenomena(g[..2]).value
    ensures |g| == 2 ==> |Descriptions(g)| == 1
    ensures |g| > 2 ==> IsCodeSequence(g[2..]) && Descriptions(g)[1..] == Descriptions(g[2..])
  {
    CodeDecodes(g[..2]);
  }

  /** One iteration of the loop: appending the first group's description
      leaves the descriptions of the remaining groups to append. */
  lemma AppendFirst(text: string, g: string)
    requires |text| <= PHENOMENON_STR_SIZE && IsCodeSequence(g)
    ensures DecodePhenomena(g[..2]).Some?
    ensures var next := StrNCat(text, DecodePhenomena(g[..2]).value);
      && (|g| == 2 ==> next == Appended(text, Descriptions(g)))
      && (|g| > 2 ==> IsCodeSequence(g[2..]) && Appended(next, Descriptions(g[2..])) == Appended(text, Descriptions(g)))
  {
    DescriptionsHead(g);
    var ds := Descriptions(g);
    var d := DecodePhenomena(g[..2]).value;
    assert Appended(text, ds) == Appended(StrNCat(text, d), ds[1..]);
    if |g| == 2 {
      assert ds[1..] == [];
    }
  }

  /** The loop of `analyse_token` over the two-letter groups:
      `strncat` of each description, then the last character dropped. */
  method DescribePhenomenon(t: string) returns (text: string)
    requires IsPhenomenonToken(t)
    ensures text == PhenomenonText(t)
  {
    var g := CodeGroup(t);
    var prefix := IntensityPrefix(t);
    ghost var total := Appended(prefix, Descriptions(g));
    text := prefix;
    var i := 0;
    while i < |g|
      invariant 0 <= i <= |g| && |text| <= PHENOMENON_STR_SIZE
      invariant i < |g| ==> IsCodeSequence(g[i..]) && Appended(text, Descriptions(g[i..])) == total
      invariant i == |g| ==> text == total
      decreases |g| - i
    {
      var code := g[i..i + 2];
      assert code == g[i..][..2];
      assert g[i..][2..] == g[i + 2..];
      AppendFirst(text, g[i..]);
      var d := DecodePhenomena(code);
      text := StrNCat(text, d.value);
      i := i + 2;
    }
    AppendedIsTruncation(prefix, Descriptions(g));
    ConcatEndsInSpace(Descriptions(g));
    text := text[..|text| - 1];
  }

  /** Two accepted codes back to back form a code group with their two
      descriptions. */
  lemma TwoCodes(a: string, b: string)
    requires IsPhenomenonCode(a) && IsPhenomenonCode(b)
    ensures IsCodeSequence(a + b)
    ensures |Descriptions(a + b)| == 2
    ensures Some(Descriptions(a + b)[0]) == DecodePhenomena(a)
    ensures Some(Descriptions(a + b)[1]) == DecodePhenomena(b)
  {
    var g := a + b;
    assert g[..2] == a && g[2..] == b;
    assert b[..2] == b;
    assert IsCodeSequence(b);
    CodeDecodes(a);
    CodeDecodes(b);
    assert Descriptions(b) == [DecodePhenomena(b).value];
  }

  /** The text from the intensity word `p` and the concatenated
      descriptions `c`, when they fit, is `p + c` without its last space. */
  lemma TextFromParts(t: string, p: string, c: string)
    requires IsPhenomenonToken(t) && IntensityPrefix(t) == p && Concat(Descriptions(CodeGroup(t))) == c
    requires |p| + |c| <= PHENOMENON_STR_SIZE
    ensures PhenomenonText(t) + " " == p + c
  {
    PhenomenonTextMeaning(t);
  }

  /** A light token made of table codes `i` and `j` is a phenomenon token
      whose two descriptions are those of the codes. */
  lemma LightTwoCodesDescriptions(t: string, i: nat, j: nat)
    requires i < |Phenomena| && j < |Phenomena|
    requires |t| == 5 && t[0] == '-' && t[1..3] == Phenomena[i].code && t[3..] == Phenomena[j].code
    ensures IsPhenomenonToken(t) && IntensityPrefix(t) == "Light "
    ensures Concat(Descriptions(CodeGroup(t))) == Phenomena[i].description + Phenomena[j].description
  {
    var a, b := t[1..3], t[3..];
    var da, db := Phenomena[i].description, Phenomena[j].description;
    DecodeTableCode(i);
    DecodeTableCode(j);
    TwoCodes(a, b);
    assert t[1..] == a + b;
    var ds := Descriptions(a + b);
    assert ds == [da, db];
    assert ds[1..] == [db];
    assert Concat(ds[1..]) == db + [];
  }

  /** A light phenomenon made of table codes `i` and `j` reads "Light "
      and their two descriptions, less the final space. */
  lemma LightTwoCodes(t: string, i: nat, j: nat)
    requires i < |Phenomena| && j < |Phenomena|
    requires |t| == 5 && t[0] == '-' && t[1..3] == Phenomena[i].code && t[3..] == Phenomena[j].code
    requires 6 + |Phenomena[i].description| + |Phenomena[j].description| <= PHENOMENON_STR_SIZE
    ensures IsPhenomenonToken(t)
    ensures PhenomenonText(t) + " " == "Light " + Phenomena[i].description + Phenomena[j].description
  {
    LightTwoCodesDescriptions(t, i, j);
    TextFromParts(t, "Light ", Phenomena[i].description + Phenomena[j].description);
  }

  /** The text for the token `-SHRA` (light showers of rain), given by its
      parts so that the verifier reasons from the lemmas above instead of
      evaluating the literal. */
  lemma LightShowersRain(t: string)
    requires |t| == 5 && t[0] == '-' && t[1..3] == "SH" && t[3..] == "RA"
    ensures IsPhenomenonToken(t)
    ensures PhenomenonText(t) == "Light Showers Rain"
  {
    assert Phenomena[3] == Phenomenon("SH", "Showers ");
    assert Phenomena[11] == Phenomenon("RA", "Rain ");
    LightTwoCodes(t, 3, 11);
    var p := PhenomenonText(t);
    assert p + " " == "Light Showers Rain ";
    assert p == (p + " ")[..|p|];
  }
}
