/** Worked tokens for `analyse_token` of `src/metar.c`, and three
    consequences of its "field still zero" guards that a reader of the
    decoder's output may not expect. */
module AnalyseExamples {
  import opened CStrings
  import opened MetarH
  import opened Recognizers
  import opened Analyse

  /** Reading a digit string one more digit at a time. */
  lemma DecimalValueSnoc(s: string, c: char)
    requires AllDigits(s) && IsDigit(c)
    ensures AllDigits(s + [c]) && DecimalValue(s + [c]) == 10 * DecimalValue(s) + DigitValue(c)
  {
    assert (s + [c])[..|s|] == s;
  }

  lemma {:induction false} DecimalValueOfDigits(s: string)
    requires 1 <= |s| <= 4 && AllDigits(s)
    ensures |s| == 1 ==> DecimalValue(s) == DigitValue(s[0])
    ensures |s| == 2 ==> DecimalValue(s) == 10 * DigitValue(s[0]) + DigitValue(s[1])
    ensures |s| == 3 ==> DecimalValue(s) == 100 * DigitValue(s[0]) + 10 * DigitValue(s[1]) + DigitValue(s[2])
    ensures |s| == 4 ==> DecimalValue(s) == 1000 * DigitValue(s[0]) + 100 * DigitValue(s[1])
                                            + 10 * DigitValue(s[2]) + DigitValue(s[3])
  {
    var k := |s| - 1;
    var p := s[..k];
    assert s == p + [s[k]];
    DecimalValueSnoc(p, s[k]);
    if k > 0 {
      DecimalValueOfDigits(p);
      assert forall i :: 0 <= i < k ==> p[i] == s[i];
    }
  }

  /** A gusting wind: direction, speed, gust and the unit `KT`. */
  lemma GustingWind(m: MetarRecord, t: string)
    requires t == "24015G25KT" && m.winddir == 0
    ensures ApplyToken(m, t) ==
      m.(winddir := 240, windstr := 15, windgust := 25, windunit := CopyInto(m.windunit, "KT"))
  {
    assert !IsUpper(t[0]);
    assert t[..3] == "240" && t[3..5] == "15";
    assert GustGroup(t) == "G25" && GustGroup(t)[1..] == "25";
    assert IsWindToken(t);
    assert !IsStationToken(t) && !IsDayTimeToken(t);
    DecimalValueOfDigits(t[..3]);
    DecimalValueOfDigits(t[3..5]);
    DecimalValueOfDigits(GustGroup(t)[1..]);
    assert WindDirection(t) == 240;
    assert WindSpeed(t) == 15;
    assert WindGust(t) == 25;
  }

  /** A variable wind has direction -1, and without a gust group the gust
      is the speed. */
  lemma VariableWind(m: MetarRecord, t: string)
    requires t == "VRB03KT" && m.winddir == 0
    ensures ApplyToken(m, t) ==
      m.(winddir := VARIABLE_WIND, windstr := 3, windgust := 3, windunit := CopyInto(m.windunit, "KT"))
  {
    assert !IsUpper(t[3]);
    assert !IsDigit(t[0]);
    assert t[..3] == "VRB" && GustGroup(t) == [];
    assert IsWindToken(t);
    assert !IsStationToken(t) && !IsDayTimeToken(t);
    DecimalValueOfDigits(t[3..5]);
  }

  /** `M05/M10` reads as minus five and minus ten degrees. */
  lemma FreezingValues(t: string)
    requires t == "M05/M10"
    ensures IsTempDewToken(t) && TokenTemp(t) == -5 && TokenDewp(t) == -10
  {
    BeforeIsFirst(t, '/', 3);
    assert t[..3] == "M05" && t[4..] == "M10";
    assert t[..3][1..] == "05" && t[4..][1..] == "10";
    DecimalValueOfDigits("05");
    DecimalValueOfDigits("10");
  }

  /** Temperature and dew point below zero. */
  lemma FreezingTempDew(m: MetarRecord, t: string)
    requires t == "M05/M10" && m.temp == 0
    ensures ApplyToken(m, t) == m.(temp := -5, dewp := -10)
  {
    assert !IsUpper(t[1]) && !IsDigit(t[0]);
    assert !IsStationToken(t) && !IsDayTimeToken(t);
    assert !IsWindToken(t) && !IsVisibilityToken(t);
    FreezingValues(t);
  }

  /** `05/M10` reads as five and minus ten degrees: each value has its own
      sign. */
  lemma MixedSignValues(t: string)
    requires t == "05/M10"
    ensures IsTempDewToken(t) && TokenTemp(t) == 5 && TokenDewp(t) == -10
  {
    BeforeIsFirst(t, '/', 2);
    assert t[..2] == "05" && t[3..] == "M10";
    assert t[3..][1..] == "10";
    DecimalValueOfDigits("05");
    DecimalValueOfDigits("10");
  }

  lemma MixedSignTempDew(m: MetarRecord, t: string)
    requires t == "05/M10" && m.temp == 0
    ensures ApplyToken(m, t) == m.(temp := 5, dewp := -10)
  {
    assert !IsUpper(t[0]) && !IsDigit(t[2]);
    assert !IsStationToken(t) && !IsDayTimeToken(t);
    assert !IsWindToken(t) && !IsVisibilityToken(t);
    MixedSignValues(t);
  }

  /** Pressure in hectopascals. */
  lemma PressureHectopascals(m: MetarRecord, t: string)
    requires t == "Q1013" && m.qnh == 0
    ensures ApplyToken(m, t) == m.(qnh := 1013, qnhunit := CopyInto(m.qnhunit, "hPa"))
  {
    assert !IsUpper(t[1]) && !IsDigit(t[0]);
    assert !IsStationToken(t) && !IsDayTimeToken(t) && !IsWindToken(t) && !IsVisibilityToken(t);
    assert Before(t, '/') == t;
    assert !IsTempDewToken(t);
    assert IsPressureToken(t);
    DecimalValueOfDigits(t[1..]);
  }

  /** Pressure in inches of mercury: two implied decimal places. */
  lemma PressureInches(m: MetarRecord, t: string)
    requires t == "A2992" && m.qnh == 0
    ensures ApplyToken(m, t) == m.(qnh := 2992, qnhunit := CopyInto(m.qnhunit, "\"Hg"), qnhfp := 2)
  {
    assert !IsUpper(t[1]) && !IsDigit(t[0]);
    assert !IsStationToken(t) && !IsDayTimeToken(t) && !IsWindToken(t) && !IsVisibilityToken(t);
    assert Before(t, '/') == t;
    assert !IsTempDewToken(t);
    assert IsPressureToken(t);
    DecimalValueOfDigits(t[1..]);
  }

  /** Visibility in statute miles. */
  lemma VisibilityMiles(m: MetarRecord, t: string)
    requires t == "10SM" && m.vis == 0
    ensures ApplyToken(m, t) == m.(vis := 10, visunit := CopyInto(m.visunit, "SM"))
  {
    assert !IsUpper(t[0]) && !IsDigit(t[2]);
    assert !IsStationToken(t) && !IsDayTimeToken(t) && !IsWindToken(t);
    assert t[..2] == "10" && t[2..] == "SM";
    assert IsVisibilityToken(t) && HasStatuteMiles(t);
    DecimalValueOfDigits(t[..2]);
  }

  /** A group of four digits is a visibility in metres. */
  lemma FourDigitVisibility(m: MetarRecord, t: string)
    requires |t| == 4 && AllDigits(t) && m.vis == 0
    ensures ApplyToken(m, t) == m.(vis := DecimalValue(t), visunit := CopyInto(m.visunit, "M"))
  {
    assert !IsUpper(t[0]);
    assert !IsStationToken(t) && !IsDayTimeToken(t) && !IsWindToken(t);
    assert IsVisibilityToken(t) && !HasStatuteMiles(t);
  }

  /** `9999` is the ten kilometres or more of the reports. */
  lemma VisibilityMetres(m: MetarRecord, t: string)
    requires t == "9999" && m.vis == 0
    ensures ApplyToken(m, t) == m.(vis := 9999, visunit := CopyInto(m.visunit, "M"))
  {
    FourDigitVisibility(m, t);
    DecimalValueOfDigits(t);
  }

  // ---- consequences of the guards

  /** A calm wind `00000KT` stores direction 0, so the wind guard stays
      open and a later wind token replaces it. */
  lemma CalmWindLeavesGuardOpen(m: MetarRecord, calm: string, later: string)
    requires calm == "00000KT" && later == "24015G25KT" && m.winddir == 0
    ensures ApplyToken(m, calm).winddir == 0
    ensures AnalyseTokens(m, [calm, later]).winddir == 240
  {
    assert !IsUpper(calm[0]) && !IsDigit(calm[6]);
    assert !IsStationToken(calm) && !IsDayTimeToken(calm);
    assert GustGroup(calm) == [];
    assert IsWindToken(calm);
    DecimalValueOfDigits(calm[..3]);
    DecimalValueOfDigits(calm[3..5]);
    var m1 := ApplyToken(m, calm);
    assert [calm, later][..1] == [calm];
    assert AnalyseTokens(m, [calm]) == m1;
    GustingWind(m1, later);
  }

  /** `0SM` stores visibility 0 with unit `SM`; the open guard then lets
      `1000` in, whose unit `M` is copied over the first character only. */
  lemma MixedVisibilityUnit(m: MetarRecord, first: string, second: string)
    requires first == "0SM" && second == "1000" && m.vis == 0 && m.visunit == ""
    ensures AnalyseTokens(m, [first, second]).vis == 1000
    ensures AnalyseTokens(m, [first, second]).visunit == "MM"
  {
    assert !IsUpper(first[0]) && !IsDigit(first[1]);
    assert !IsStationToken(first) && !IsDayTimeToken(first) && !IsWindToken(first);
    assert first[..1] == "0" && first[1..] == "SM";
    assert IsVisibilityToken(first) && HasStatuteMiles(first);
    DecimalValueOfDigits(first[..1]);
    var m1 := ApplyToken(m, first);
    assert m1.vis == 0 && m1.visunit == "SM";
    assert [first, second][..1] == [first];
    assert AnalyseTokens(m, [first]) == m1;
    FourDigitVisibility(m1, second);
    DecimalValueOfDigits(second);
    var u := CopyInto("SM", "M");
    assert |u| == 2 && u[0] == 'M' && u[1] == 'M';
    assert u == "MM";
  }

  /** A zero altimeter reading `A0000` sets two decimal places and leaves the
      pressure guard open; a later `Q1013` keeps those two places. */
  lemma ZeroAltimeterKeepsDecimals(m: MetarRecord, first: string, second: string)
    requires first == "A0000" && second == "Q1013" && m.qnh == 0 && m.qnhunit == ""
    ensures AnalyseTokens(m, [first, second]).qnh == 1013
    ensures AnalyseTokens(m, [first, second]).qnhunit == "hPa"
    ensures AnalyseTokens(m, [first, second]).qnhfp == 2
  {
    assert !IsUpper(first[1]) && !IsDigit(first[0]);
    assert !IsStationToken(first) && !IsDayTimeToken(first) && !IsWindToken(first) && !IsVisibilityToken(first);
    assert Before(first, '/') == first;
    assert !IsTempDewToken(first);
    assert IsPressureToken(first);
    DecimalValueOfDigits(first[1..]);
    var m1 := ApplyToken(m, first);
    assert m1.qnh == 0 && m1.qnhfp == 2 && m1.qnhunit == "\"Hg";
    assert [first, second][..1] == [first];
    assert AnalyseTokens(m, [first]) == m1;
    PressureHectopascals(m1, second);
  }
}
