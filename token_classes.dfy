/** Which of the recognizers of `analyse_token` can accept the same token.
    The decoder tries them in a fixed order and stops at the first that
    accepts; these lemmas show that cloud tokens, phenomenon tokens, tokens
    containing `CAVOK` and `$` tokens are never taken by the recognizers
    tried before theirs, apart from the station recognizer. */
module TokenClasses {
  import opened CStrings
  import opened MetarH
  import opened PhenomenonDictionary
  import opened Recognizers

  predicate HasDigit(t: string)
  {
    exists i :: 0 <= i < |t| && IsDigit(t[i])
  }

  /** Accepted by one of the recognizers guarded by a numeric field. */
  predicate IsGatedToken(t: string)
  {
    IsDayTimeToken(t) || IsWindToken(t) || IsVisibilityToken(t) || IsTempDewToken(t) || IsPressureToken(t)
  }

  /** Contains the letters of `CAVOK` the lemmas below need. */
  predicate HasOAndK(t: string)
  {
    'O' in t && 'K' in t
  }

  lemma SignedGroupEndsInDigit(s: string)
    requires IsSignedGroup(s)
    ensures IsDigit(s[|s| - 1])
  {
    if !AllDigits(s) {
      assert s[|s| - 1] == s[1..][|s| - 2];
    }
  }

  lemma GatedTokenHasDigit(t: string)
    requires IsGatedToken(t)
    ensures HasDigit(t)
  {
    if IsDayTimeToken(t) {
      assert IsDigit(t[..2][0]);
    } else if IsWindToken(t) {
      assert IsDigit(t[3..5][0]);
    } else if IsVisibilityToken(t) {
      if !AllDigits(t) {
        assert IsDigit(t[..|t| - 2][0]);
      }
      assert IsDigit(t[0]);
    } else if IsTempDewToken(t) {
      var k := |Before(t, '/')|;
      SignedGroupEndsInDigit(t[k + 1..]);
      assert IsDigit(t[|t| - 1]);
    } else {
      assert IsDigit(t[1..][0]);
    }
  }

  lemma LayerTokenHasDigit(t: string)
    requires IsLayerToken(t)
    ensures HasDigit(t)
  {
    var n := CoverLength(t);
    assert IsDigit(t[n..n + 3][0]);
  }

  /** A code group is an even number of capital letters. */
  lemma {:induction false} CodeSequenceShape(g: string)
    requires IsCodeSequence(g)
    ensures |g| % 2 == 0 && AllUpper(g)
    decreases |g|
  {
    var head := g[..2];
    PhenomenonCodeUpper(head);
    assert IsUpper(g[0]) && IsUpper(g[1]) by {
      assert g[0] == head[0] && g[1] == head[1];
    }
    if |g| > 2 {
      var tail := g[2..];
      CodeSequenceShape(tail);
      forall i | 2 <= i < |g|
        ensures IsUpper(g[i])
      {
        assert g[i] == tail[i - 2];
      }
    }
  }

  lemma PhenomenonTokenHasNoDigit(t: string)
    requires IsPhenomenonToken(t)
    ensures !HasDigit(t)
  {
    var n := IntensityLength(t);
    CodeSequenceShape(t[n..]);
    forall i | 0 <= i < |t|
      ensures !IsDigit(t[i])
    {
      if i >= n {
        assert t[i] == t[n..][i - n];
      }
    }
  }

  /** A phenomenon token is neither a cloud token nor a gated token. */
  lemma PhenomenonTokenIsNotEarlier(t: string)
    requires IsPhenomenonToken(t)
    ensures !IsCloudToken(t) && !IsGatedToken(t)
  {
    PhenomenonTokenHasNoDigit(t);
    if IsLayerToken(t) {
      LayerTokenHasDigit(t);
    }
    if IsGatedToken(t) {
      GatedTokenHasDigit(t);
    }
    if t in NoCloudCodes {
      assert IntensityLength(t) == 0;
      CodeSequenceShape(t);
    }
  }

  /** A cloud token is not a gated token, and only the no-cloud codes
      can be taken for a station. */
  lemma CloudTokenIsNotGated(t: string)
    requires IsCloudToken(t)
    ensures !IsGatedToken(t)
    ensures IsLayerToken(t) ==> !IsStationToken(t)
  {
    if t in NoCloudCodes {
      NoCloudCodeIsNotGated(t);
    } else {
      LayerTokenIsNotGated(t);
    }
  }

  /** The no-cloud codes are three capital letters, which no gated
      expression accepts. */
  lemma NoCloudCodeIsNotGated(t: string)
    requires t in NoCloudCodes
    ensures !IsGatedToken(t)
  {
    assert |t| == 3 && AllUpper(t);
    assert !IsDigit(t[0]) && !IsDigit(t[1]) && !IsDigit(t[2]);
    assert !IsVisibilityToken(t) by {
      assert !AllDigits(t);
    }
    assert !IsPressureToken(t) by {
      assert t[1..][0] == t[1];
    }
    assert !IsTempDewToken(t);
  }

  /** A layer token starts with a cover code and has three digits after it,
      which no gated expression accepts. */
  lemma LayerTokenIsNotGated(t: string)
    requires IsLayerToken(t)
    ensures !IsGatedToken(t) && !IsStationToken(t)
  {
    var n := CoverLength(t);
    var c0 := t[0];
    assert t[..n][0] == c0;
    assert c0 in "FSBOV";
    assert !IsUpper(t[n..n + 3][0]);
  }

  lemma DayTimeTokenHasNoK(t: string)
    requires IsDayTimeToken(t)
    ensures 'K' !in t
  {
    forall i | 0 <= i < |t|
      ensures t[i] != 'K'
    {
      if i < 2 {
        assert IsDigit(t[..2][i]);
      } else if i < 6 {
        assert IsDigit(t[2..6][i - 2]);
      }
    }
  }

  lemma WindTokenHasNoO(t: string)
    requires IsWindToken(t)
    ensures 'O' !in t
  {
    var g := GustGroup(t);
    forall i | 0 <= i < |t|
      ensures t[i] != 'O'
    {
      if i < 3 {
        assert t[i] == t[..3][i];
      } else if i < 5 {
        assert IsDigit(t[3..5][i - 3]);
      } else if i < |t| - 2 {
        assert t[i] == g[i - 5];
        if i > 5 {
          assert IsDigit(g[1..][i - 6]);
        }
      } else {
        assert t[i] == t[|t| - 2..][i - (|t| - 2)];
      }
    }
  }

  lemma VisibilityTokenHasNoK(t: string)
    requires IsVisibilityToken(t)
    ensures 'K' !in t
  {
    forall i | 0 <= i < |t|
      ensures t[i] != 'K'
    {
      if !AllDigits(t) {
        if i < |t| - 2 {
          assert IsDigit(t[..|t| - 2][i]);
        } else {
          assert t[i] == t[|t| - 2..][i - (|t| - 2)];
        }
      }
    }
  }

  lemma SignedGroupHasNoK(s: string)
    requires IsSignedGroup(s)
    ensures 'K' !in s
  {
    forall i | 0 <= i < |s|
      ensures s[i] != 'K'
    {
      if !AllDigits(s) && i > 0 {
        assert IsDigit(s[1..][i - 1]);
      }
    }
  }

  lemma TempDewTokenHasNoK(t: string)
    requires IsTempDewToken(t)
    ensures 'K' !in t
  {
    var k := |Before(t, '/')|;
    SignedGroupHasNoK(t[..k]);
    SignedGroupHasNoK(t[k + 1..]);
    assert t == t[..k] + [t[k]] + t[k + 1..];
  }

  lemma PressureTokenHasNoK(t: string)
    requires IsPressureToken(t)
    ensures 'K' !in t
  {
    assert t == [t[0]] + t[1..];
    forall i | 0 <= i < |t[1..]|
      ensures t[1..][i] != 'K'
    {
    }
  }

  lemma LayerTokenLacksOOrK(t: string)
    requires IsLayerToken(t)
    ensures !HasOAndK(t)
  {
    var n := CoverLength(t);
    var c := t[..n];
    var d := t[n..n + 3];
    var m := t[n + 3..];
    assert t == c + d + m;
    assert 'O' !in d && 'K' !in d by {
      forall i | 0 <= i < 3
        ensures IsDigit(d[i])
      {
      }
    }
    CoverHasNotOAndK(c);
    ModifierLacksOAndK(m);
  }

  /** Only `OVC` has an `O` and only `BKN` a `K`. */
  lemma CoverHasNotOAndK(c: string)
    requires c in CoverCodes
    ensures !HasOAndK(c)
  {
  }

  lemma ModifierLacksOAndK(m: string)
    requires m == [] || m in ModifierCodes
    ensures 'O' !in m && 'K' !in m
  {
  }

  /** No token accepted before the phenomenon step (other than as a station)
      contains `CAVOK`. */
  lemma CavokTokenIsNotEarlier(t: string)
    requires HasSubstring(t, "CAVOK")
    ensures !IsCloudToken(t) && !IsGatedToken(t)
  {
    SubstringChars(t, "CAVOK", 'O');
    SubstringChars(t, "CAVOK", 'K');
    if IsDayTimeToken(t) {
      DayTimeTokenHasNoK(t);
    }
    if IsWindToken(t) {
      WindTokenHasNoO(t);
    }
    if IsVisibilityToken(t) {
      VisibilityTokenHasNoK(t);
    }
    if IsTempDewToken(t) {
      TempDewTokenHasNoK(t);
    }
    if IsPressureToken(t) {
      PressureTokenHasNoK(t);
    }
    if IsLayerToken(t) {
      LayerTokenLacksOOrK(t);
    }
  }

  /** No table code starts with 'A' or 'C'. */
  lemma CodesStartNotAOrC()
    ensures forall i :: 0 <= i < |Phenomena| ==> Phenomena[i].code[0] != 'A' && Phenomena[i].code[0] != 'C'
  {
  }

  lemma CodeStartNotAOrC(c: string)
    requires IsPhenomenonCode(c)
    ensures c[0] != 'A' && c[0] != 'C'
  {
    CodesStartNotAOrC();
    InTableFromMeaning(c, 0);
  }

  /** A code group does not start with 'A' or 'C'. */
  lemma FirstCharNotAOrC(g: string)
    requires IsCodeSequence(g)
    ensures g[0] != 'A' && g[0] != 'C'
  {
    CodeStartNotAOrC(g[..2]);
    assert g[..2][0] == g[0];
  }

  /** Where `strstr` finds `w` in `t`. */
  lemma {:induction false} SubstringPosition(t: string, w: string) returns (p: nat)
    requires HasSubstring(t, w)
    ensures p + |w| <= |t| && t[p..p + |w|] == w
    decreases |t|
  {
    if t[..|w|] == w {
      p := 0;
    } else {
      var q := SubstringPosition(t[1..], w);
      p := q + 1;
      assert t[1..][q..q + |w|] == t[p..p + |w|];
    }
  }

  /** A code group never holds "CA": at an even offset it would start a
      code with 'C', at an odd one the 'A' would start the next code. */
  lemma {:induction false} CodeGroupHasNoCA(g: string, q: nat)
    requires IsCodeSequence(g) && q + 1 < |g|
    ensures !(g[q] == 'C' && g[q + 1] == 'A')
    decreases q
  {
    if q == 0 {
      FirstCharNotAOrC(g);
    } else if q == 1 {
      FirstCharNotAOrC(g[2..]);
      assert g[2..][0] == g[2];
    } else {
      CodeGroupHasNoCA(g[2..], q - 2);
      assert g[2..][q - 2] == g[q] && g[2..][q - 1] == g[q + 1];
    }
  }

  /** A token containing `CAVOK` is not a phenomenon token: the codes sit at
      even offsets after the sign, none starts with 'C' or 'A', so "CA" can
      appear nowhere in the code group. */
  lemma CavokTokenIsNotPhenomenon(t: string)
    requires HasSubstring(t, "CAVOK")
    ensures !IsPhenomenonToken(t)
  {
    var p := SubstringPosition(t, "CAVOK");
    assert t[p] == 'C' && t[p + 1] == 'A' by {
      assert t[p..p + 5][0] == t[p] && t[p..p + 5][1] == t[p + 1];
    }
    var n := IntensityLength(t);
    if n <= p && IsCodeSequence(t[n..]) {
      CodeGroupHasNoCA(t[n..], p - n);
    }
  }

  /** A token starting with `$` is accepted by no recognizer. */
  lemma DollarTokenIsUnclaimed(t: string)
    requires |t| > 0 && t[0] == '$'
    ensures !IsStationToken(t) && !IsGatedToken(t) && !IsCloudToken(t) && !IsPhenomenonToken(t)
  {
    DollarTokenIsNotPhenomenon(t);
    DollarTokenIsNotGated(t);
    DollarTokenIsNotCloud(t);
  }

  lemma DollarTokenIsNotPhenomenon(t: string)
    requires |t| > 0 && t[0] == '$'
    ensures !IsPhenomenonToken(t)
  {
    if IsPhenomenonToken(t) {
      CodeSequenceShape(CodeGroup(t));
    }
  }

  lemma DollarTokenIsNotGated(t: string)
    requires |t| > 0 && t[0] == '$'
    ensures !IsGatedToken(t)
  {
    assert !IsDigit(t[0]);
    assert !IsDayTimeToken(t) by {
      if |t| == 7 {
        assert t[..2][0] == t[0];
      }
    }
    assert !IsWindToken(t) by {
      if |t| >= 7 {
        assert t[..3][0] == t[0];
      }
    }
    assert !IsVisibilityToken(t) by {
      if |t| > 2 {
        assert t[..|t| - 2][0] == t[0];
      }
    }
    assert !IsTempDewToken(t) by {
      var k := |Before(t, '/')|;
      assert k > 0 && t[..k][0] == t[0];
    }
  }

  lemma DollarTokenIsNotCloud(t: string)
    requires |t| > 0 && t[0] == '$'
    ensures !IsCloudToken(t)
  {
    assert t !in NoCloudCodes;
    assert !IsLayerToken(t);
  }
}
