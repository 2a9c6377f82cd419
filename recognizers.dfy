/** The anchored extended regular expressions of `analyse_token` in
    `src/metar.c`, each written as a predicate that holds exactly of the
    tokens the expression matches, with functions naming the sub-matches
    the decoder reads. */
module Recognizers {
  import opened CStrings
  import opened MetarH
  import opened PhenomenonDictionary

  // ---- station: ^([A-Z]+)$

  predicate IsStationToken(t: string)
  {
    |t| > 0 && AllUpper(t)
  }

  // ---- day/time: ^([0-9]{2})([0-9]{4})Z$

  predicate IsDayTimeToken(t: string)
  {
    |t| == 7 && AllDigits(t[..2]) && AllDigits(t[2..6]) && t[6] == 'Z'
  }

  function TokenDay(t: string): nat
    requires IsDayTimeToken(t)
  {
    DecimalValue(t[..2])
  }

  function TokenTime(t: string): nat
    requires IsDayTimeToken(t)
  {
    DecimalValue(t[2..6])
  }

  // ---- wind: ^(VRB|[0-9]{3})([0-9]{2})(G[0-9]+)?(KT)$

  /** The optional `G[0-9]+` group. */
  predicate IsGustGroup(g: string)
  {
    g == [] || (|g| >= 2 && g[0] == 'G' && AllDigits(g[1..]))
  }

  predicate IsWindToken(t: string)
  {
    && |t| >= 7
    && (t[..3] == "VRB" || AllDigits(t[..3]))
    && AllDigits(t[3..5])
    && t[|t| - 2..] == "KT"
    && IsGustGroup(t[5..|t| - 2])
  }

  function GustGroup(t: string): string
    requires IsWindToken(t)
  {
    t[5..|t| - 2]
  }

  function WindDirection(t: string): int
    requires IsWindToken(t)
  {
    if t[..3] == "VRB" then VARIABLE_WIND else DecimalValue(t[..3])
  }

  function WindSpeed(t: string): nat
    requires IsWindToken(t)
  {
    DecimalValue(t[3..5])
  }

  /** The gust, or the speed when the token has no gust group. */
  function WindGust(t: string): nat
    requires IsWindToken(t)
  {
    var g := GustGroup(t);
    if g == [] then WindSpeed(t) else DecimalValue(g[1..])
  }

  // ---- visibility: ^([0-9]+)(SM)?$

  predicate IsVisibilityToken(t: string)
  {
    |t| > 0 &&
    (AllDigits(t) || (|t| > 2 && t[|t| - 2..] == "SM" && AllDigits(t[..|t| - 2])))
  }

  /** Whether the `(SM)` group took part in the match. */
  predicate HasStatuteMiles(t: string)
  {
    !AllDigits(t)
  }

  function VisibilityDigits(t: string): (d: string)
    requires IsVisibilityToken(t)
    ensures AllDigits(d)
  {
    if HasStatuteMiles(t) then t[..|t| - 2] else t
  }

  // ---- temperature/dewpoint: ^(M?)([0-9]+)/(M?)([0-9]+)$

  /** `(M?)([0-9]+)`: digits with an optional leading minus marker. */
  predicate IsSignedGroup(s: string)
  {
    (|s| > 0 && AllDigits(s)) || (|s| > 1 && s[0] == 'M' && AllDigits(s[1..]))
  }

  function SignedValue(s: string): int
    requires IsSignedGroup(s)
  {
    if s[0] == 'M' then -(DecimalValue(s[1..]) as int) else DecimalValue(s)
  }

  predicate IsTempDewToken(t: string)
  {
    var k := |Before(t, '/')|;
    k < |t| && IsSignedGroup(t[..k]) && IsSignedGroup(t[k + 1..])
  }

  function TokenTemp(t: string): int
    requires IsTempDewToken(t)
  {
    SignedValue(t[..|Before(t, '/')|])
  }

  function TokenDewp(t: string): int
    requires IsTempDewToken(t)
  {
    SignedValue(t[|Before(t, '/')| + 1..])
  }

  // ---- pressure: ^([QA])([0-9]+)$

  predicate IsPressureToken(t: string)
  {
    |t| >= 2 && (t[0] == 'Q' || t[0] == 'A') && AllDigits(t[1..])
  }

  function TokenQnh(t: string): nat
    requires IsPressureToken(t)
  {
    DecimalValue(t[1..])
  }

  // ---- cloud layer:
  // ^(SKC|CLR|NSC|NCD)$|^(FEW|SCT|BKN|OVC|VV)([0-9]{3})(TCU|CU|CB|CBMAM|ACC|CLD)?$

  const NoCloudCodes: seq<string> := ["SKC", "CLR", "NSC", "NCD"]
  const CoverCodes: seq<string> := ["FEW", "SCT", "BKN", "OVC", "VV"]
  const ModifierCodes: seq<string> := ["TCU", "CU", "CB", "CBMAM", "ACC", "CLD"]

  /** Length of the cover group of a layer token: only `VV` has two letters. */
  function CoverLength(t: string): nat
  {
    if |t| >= 2 && t[..2] == "VV" then 2 else 3
  }

  predicate IsLayerToken(t: string)
  {
    var n := CoverLength(t);
    && |t| >= n + 3
    && t[..n] in CoverCodes
    && AllDigits(t[n..n + 3])
    && (|t| == n + 3 || t[n + 3..] in ModifierCodes)
  }

  predicate IsCloudToken(t: string)
  {
    t in NoCloudCodes || IsLayerToken(t)
  }

  /** The three characters of the layer base. */
  function LayerBase(t: string): string
    requires IsLayerToken(t)
  {
    t[CoverLength(t)..CoverLength(t) + 3]
  }

  /** The modifier group, empty when it did not take part in the match. */
  function LayerModifier(t: string): string
    requires IsLayerToken(t)
  {
    t[CoverLength(t) + 3..]
  }

  /** The modifier group's choices, absence first. */
  const ModifierOptions: seq<string> := [""] + ModifierCodes

  /** `t` is the cover code `c`, three digits and the modifier text `m`. */
  predicate LayerParts(t: string, c: string, m: string)
  {
    |t| == |c| + 3 + |m| && t[..|c|] == c && AllDigits(t[|c|..|c| + 3]) && t[|c| + 3..] == m
  }

  /** The layer alternative read as the expression states it: one cover code,
      three digits, then nothing or one modifier code. */
  ghost predicate LayerGrammar(t: string)
  {
    exists i, j :: 0 <= i < |CoverCodes| && 0 <= j < |ModifierOptions| &&
      LayerParts(t, CoverCodes[i], ModifierOptions[j])
  }

  lemma LayerTokenHasGrammar(t: string)
    requires IsLayerToken(t)
    ensures LayerGrammar(t)
  {
    var n := CoverLength(t);
    var i :| 0 <= i < |CoverCodes| && CoverCodes[i] == t[..n];
    if |t| == n + 3 {
      assert ModifierOptions[0] == t[n + 3..];
      assert LayerParts(t, CoverCodes[i], ModifierOptions[0]);
    } else {
      var k :| 0 <= k < |ModifierCodes| && ModifierCodes[k] == t[n + 3..];
      assert ModifierOptions[k + 1] == ModifierCodes[k];
      assert LayerParts(t, CoverCodes[i], ModifierOptions[k + 1]);
    }
  }

  lemma GrammarIsLayerToken(t: string, c: string, m: string)
    requires c in CoverCodes && m in ModifierOptions && LayerParts(t, c, m)
    ensures IsLayerToken(t)
  {
    assert CoverLength(t) == |c| by {
      if |c| == 3 {
        assert c[0] != 'V';
        assert t[..2][0] == c[0];
      }
    }
  }

  /** The cover-length shortcut recognizes exactly the layer alternative. */
  lemma LayerTokenGrammar(t: string)
    ensures IsLayerToken(t) <==> LayerGrammar(t)
  {
    if IsLayerToken(t) {
      LayerTokenHasGrammar(t);
    }
    if LayerGrammar(t) {
      var i, j :| 0 <= i < |CoverCodes| && 0 <= j < |ModifierOptions| &&
        LayerParts(t, CoverCodes[i], ModifierOptions[j]);
      GrammarIsLayerToken(t, CoverCodes[i], ModifierOptions[j]);
    }
  }

  // ---- phenomenon: ^([+-]?)((MI|BL|...|VC)+)$, built by
  // PhenomenaPattern.BuildPhenomenaRegexPattern

  /** `(C1|...|Cn)+`: one or more table codes back to back. */
  predicate IsCodeSequence(g: string)
    decreases |g|
  {
    |g| >= 2 && IsPhenomenonCode(g[..2]) && (|g| == 2 || IsCodeSequence(g[2..]))
  }

  /** Length of the `([+-]?)` group. */
  function IntensityLength(t: string): nat
  {
    if |t| > 0 && (t[0] == '+' || t[0] == '-') then 1 else 0
  }

  predicate IsPhenomenonToken(t: string)
  {
    IsCodeSequence(t[IntensityLength(t)..])
  }

  /** The code group of a phenomenon token. */
  function CodeGroup(t: string): string
    requires IsPhenomenonToken(t)
  {
    t[IntensityLength(t)..]
  }
}
