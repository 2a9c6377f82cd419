/** What `parse_Metar` guarantees about the record it fills, proved on the
    functions of `Analyse`: a guarded field keeps the first value that made
    it nonzero, the station is the first all-capitals token, cloud layers
    and phenomena are listed in token order, the maintenance flag is raised
    exactly by a `$` token, and the record stays well formed. */
module AnalyseProperties {
  import opened CStrings
  import opened MetarH
  import opened Recognizers
  import opened CloudLayers
  import opened PhenomenonDescription
  import opened TokenClasses
  import opened Analyse

  // ---- the fold

  lemma {:induction false} FoldAppend(m: MetarRecord, a: seq<string>, b: seq<string>)
    ensures AnalyseTokens(m, a + b) == AnalyseTokens(AnalyseTokens(m, a), b)
    decreases |b|
  {
    if b == [] {
      assert a + b == a;
    } else {
      assert (a + b)[..|a + b| - 1] == a + b[..|b| - 1];
      FoldAppend(m, a, b[..|b| - 1]);
    }
  }

  /** Tokens are analysed front to back. */
  lemma FoldFront(m: MetarRecord, ts: seq<string>)
    requires ts != []
    ensures AnalyseTokens(m, ts) == AnalyseTokens(ApplyToken(m, ts[0]), ts[1..])
  {
    FoldAppend(m, [ts[0]], ts[1..]);
    assert [ts[0]] + ts[1..] == ts;
    assert [ts[0]][..0] == [];
  }

  // ---- first match wins

  /** `r` keeps every guarded field of `m` that is already set, and only
      appends to the lists; a raised maintenance flag stays raised. */
  predicate Extends(m: MetarRecord, r: MetarRecord)
  {
    && (m.station != [] ==> r.station == m.station)
    && (m.day != 0 ==> r.day == m.day && r.time == m.time)
    && (m.winddir != 0 ==>
          r.winddir == m.winddir && r.windstr == m.windstr && r.windgust == m.windgust && r.windunit == m.windunit)
    && (m.vis != 0 ==> r.vis == m.vis && r.visunit == m.visunit)
    && (m.temp != 0 ==> r.temp == m.temp && r.dewp == m.dewp)
    && (m.qnh != 0 ==> r.qnh == m.qnh && r.qnhunit == m.qnhunit && r.qnhfp == m.qnhfp)
    && m.clouds <= r.clouds
    && m.phenomena <= r.phenomena
    && (m.maintenanceNeeded == MAINTENANCE_NEEDED ==> r.maintenanceNeeded == MAINTENANCE_NEEDED)
  }

  lemma ApplyTokenExtends(m: MetarRecord, t: string)
    ensures Extends(m, ApplyToken(m, t))
  {
    if m.station == [] && IsStationToken(t) {
    } else if m.day == 0 && IsDayTimeToken(t) {
    } else if m.winddir == 0 && IsWindToken(t) {
    } else if m.vis == 0 && IsVisibilityToken(t) {
    } else if m.temp == 0 && IsTempDewToken(t) {
    } else if m.qnh == 0 && IsPressureToken(t) {
    } else if IsCloudToken(t) {
    } else {
      LateStepExtends(m, t);
    }
  }

  lemma LateStepExtends(m: MetarRecord, t: string)
    ensures Extends(m, LateStep(m, t))
  {
  }

  /** Once a guarded field is set, no later token changes it. */
  lemma {:induction false} AnalyseTokensExtends(m: MetarRecord, ts: seq<string>)
    ensures Extends(m, AnalyseTokens(m, ts))
    decreases |ts|
  {
    if ts != [] {
      var mid := AnalyseTokens(m, ts[..|ts| - 1]);
      AnalyseTokensExtends(m, ts[..|ts| - 1]);
      ApplyTokenExtends(mid, ts[|ts| - 1]);
    }
  }

  /** Some recognizer guarded by a numeric field accepts `t` while that
      field still holds 0. */
  predicate GateOpenFor(m: MetarRecord, t: string)
  {
    || (m.day == 0 && IsDayTimeToken(t))
    || (m.winddir == 0 && IsWindToken(t))
    || (m.vis == 0 && IsVisibilityToken(t))
    || (m.temp == 0 && IsTempDewToken(t))
    || (m.qnh == 0 && IsPressureToken(t))
  }

  /** A token no recognizer takes leaves the record as it was. The station
      recognizer and the gated ones count only while their field is open. */
  lemma UnmatchedTokenChangesNothing(m: MetarRecord, t: string)
    requires m.station != [] || !IsStationToken(t)
    requires !GateOpenFor(m, t) && !IsCloudToken(t)
    requires !HasSubstring(t, "CAVOK") && !IsPhenomenonToken(t) && !StartsWithDollar(t)
    ensures ApplyToken(m, t) == m
  {
  }

  /** A repeated day/time, wind, visibility, temperature or pressure group,
      whose field is already set, is an unmatched token: it changes
      nothing. */
  lemma RepeatedGatedTokenChangesNothing(m: MetarRecord, t: string)
    requires IsGatedToken(t) && !GateOpenFor(m, t)
    ensures ApplyToken(m, t) == m
  {
    GatedTokenHasDigit(t);
    if IsCloudToken(t) {
      CloudTokenIsNotGated(t);
    } else if HasSubstring(t, "CAVOK") {
      CavokTokenIsNotEarlier(t);
    } else if IsPhenomenonToken(t) {
      PhenomenonTokenIsNotEarlier(t);
    } else if StartsWithDollar(t) {
      DollarTokenIsNotGated(t);
    } else {
      UnmatchedTokenChangesNothing(m, t);
    }
  }

  // ---- station

  /** The first all-capitals token, cut to the station buffer's size. */
  function FirstStation(ts: seq<string>): string
  {
    if ts == [] then ""
    else if IsStationToken(ts[0]) then ts[0][..Min(|ts[0]|, STATION_SIZE)]
    else FirstStation(ts[1..])
  }

  /** Starting without a station, the station is the first all-capitals
      token (at most ten characters), or stays empty when there is none. */
  lemma {:induction false} StationIsFirstCapitalsToken(m: MetarRecord, ts: seq<string>)
    requires m.station == []
    ensures AnalyseTokens(m, ts).station == FirstStation(ts)
    decreases |ts|
  {
    if ts != [] {
      FoldFront(m, ts);
      var m1 := ApplyToken(m, ts[0]);
      if IsStationToken(ts[0]) {
        AnalyseTokensExtends(m1, ts[1..]);
      } else {
        StationIsFirstCapitalsToken(m1, ts[1..]);
      }
    }
  }

  // ---- cloud layers

  /** The layers of the cloud tokens of `ts`, in order. */
  function CloudsOf(ts: seq<string>): seq<CloudLayer>
  {
    if ts == [] then []
    else CloudsOf(ts[..|ts| - 1]) + (if IsCloudToken(ts[|ts| - 1]) then [CloudOf(ts[|ts| - 1])] else [])
  }

  lemma CloudStep(m: MetarRecord, t: string)
    requires m.station != [] || !IsStationToken(t)
    ensures ApplyToken(m, t).clouds == m.clouds + (if IsCloudToken(t) then [CloudOf(t)] else [])
  {
    if IsCloudToken(t) {
      CloudTokenIsNotGated(t);
    } else {
      assert m.clouds + [] == m.clouds;
    }
  }

  /** Once the station is known, every cloud token adds its layer, in token
      order, whatever the guarded fields hold. */
  lemma {:induction false} CloudsInTokenOrder(m: MetarRecord, ts: seq<string>)
    requires m.station != []
    ensures AnalyseTokens(m, ts).clouds == m.clouds + CloudsOf(ts)
    decreases |ts|
  {
    if ts == [] {
      assert m.clouds + [] == m.clouds;
    } else {
      var init := ts[..|ts| - 1];
      var mid := AnalyseTokens(m, init);
      CloudsInTokenOrder(m, init);
      AnalyseTokensExtends(m, init);
      CloudStep(mid, ts[|ts| - 1]);
    }
  }

  // ---- phenomena

  /** What one token adds to the phenomena: the `CAVOK` text when it
      contains `CAVOK`, then its text when it is a phenomenon token. */
  function PhenomenaOfToken(t: string): seq<string>
  {
    (if HasSubstring(t, "CAVOK") then [CAVOK_TEXT] else [])
    + (if IsPhenomenonToken(t) then [PhenomenonText(t)] else [])
  }

  function PhenomenaOf(ts: seq<string>): seq<string>
  {
    if ts == [] then [] else PhenomenaOf(ts[..|ts| - 1]) + PhenomenaOfToken(ts[|ts| - 1])
  }

  lemma PhenomenaStep(m: MetarRecord, t: string)
    requires m.station != [] || !IsStationToken(t)
    ensures ApplyToken(m, t).phenomena == m.phenomena + PhenomenaOfToken(t)
  {
    if HasSubstring(t, "CAVOK") {
      CavokTokenIsNotEarlier(t);
      CavokTokenIsNotPhenomenon(t);
      assert ApplyToken(m, t) == LateStep(m, t);
      assert PhenomenaOfToken(t) == [CAVOK_TEXT];
    } else if IsPhenomenonToken(t) {
      PhenomenonTokenIsNotEarlier(t);
      assert ApplyToken(m, t) == LateStep(m, t);
      assert PhenomenaOfToken(t) == [PhenomenonText(t)];
    } else {
      assert PhenomenaOfToken(t) == [];
      assert m.phenomena + [] == m.phenomena;
    }
  }

  /** Once the station is known, the phenomena are those of the tokens, in
      token order. */
  lemma {:induction false} PhenomenaInTokenOrder(m: MetarRecord, ts: seq<string>)
    requires m.station != []
    ensures AnalyseTokens(m, ts).phenomena == m.phenomena + PhenomenaOf(ts)
    decreases |ts|
  {
    if ts == [] {
      assert m.phenomena + [] == m.phenomena;
    } else {
      var init := ts[..|ts| - 1];
      var mid := AnalyseTokens(m, init);
      PhenomenaInTokenOrder(m, init);
      AnalyseTokensExtends(m, init);
      PhenomenaStep(mid, ts[|ts| - 1]);
    }
  }

  /** The tokens with the first all-capitals token, the one the station
      recognizer takes, removed. */
  function WithoutFirstStation(ts: seq<string>): seq<string>
  {
    if ts == [] then []
    else if IsStationToken(ts[0]) then ts[1..]
    else [ts[0]] + WithoutFirstStation(ts[1..])
  }

  lemma {:induction false} CloudsOfAppend(a: seq<string>, b: seq<string>)
    ensures CloudsOf(a + b) == CloudsOf(a) + CloudsOf(b)
    decreases |b|
  {
    if b == [] {
      assert a + b == a;
    } else {
      var init := b[..|b| - 1];
      assert (a + b)[..|a + b| - 1] == a + init;
      CloudsOfAppend(a, init);
    }
  }

  lemma {:induction false} PhenomenaOfAppend(a: seq<string>, b: seq<string>)
    ensures PhenomenaOf(a + b) == PhenomenaOf(a) + PhenomenaOf(b)
    decreases |b|
  {
    if b == [] {
      assert a + b == a;
    } else {
      var init := b[..|b| - 1];
      assert (a + b)[..|a + b| - 1] == a + init;
      PhenomenaOfAppend(a, init);
    }
  }

  lemma StationTokenStep(m: MetarRecord, t: string)
    requires m.station == [] && IsStationToken(t)
    ensures ApplyToken(m, t) == m.(station := t[..Min(|t|, STATION_SIZE)])
    ensures ApplyToken(m, t).station != []
  {
  }

  lemma NonStationTokenStep(m: MetarRecord, t: string)
    requires m.station == [] && !IsStationToken(t)
    ensures ApplyToken(m, t).station == []
  {
  }

  lemma WithoutFirstStationFront(ts: seq<string>)
    requires ts != [] && !IsStationToken(ts[0])
    ensures WithoutFirstStation(ts) == [ts[0]] + WithoutFirstStation(ts[1..])
    ensures CloudsOf([ts[0]]) == if IsCloudToken(ts[0]) then [CloudOf(ts[0])] else []
    ensures PhenomenaOf([ts[0]]) == PhenomenaOfToken(ts[0])
  {
    assert [ts[0]][..0] == [];
  }

  lemma ConcatChain<T>(r: seq<T>, m0: seq<T>, m1: seq<T>, first: seq<T>, rest: seq<T>, whole: seq<T>)
    requires m1 == m0 + first && r == m1 + rest && whole == first + rest
    ensures r == m0 + whole
  {
  }

  /** Starting without a station, the cloud list is that of every token
      except the one taken as the station. */
  lemma {:induction false} CloudsWithoutStation(m: MetarRecord, ts: seq<string>)
    requires m.station == []
    ensures AnalyseTokens(m, ts).clouds == m.clouds + CloudsOf(WithoutFirstStation(ts))
    decreases |ts|
  {
    if ts == [] {
      assert m.clouds + [] == m.clouds;
    } else {
      FoldFront(m, ts);
      var m1 := ApplyToken(m, ts[0]);
      if IsStationToken(ts[0]) {
        StationTokenStep(m, ts[0]);
        CloudsInTokenOrder(m1, ts[1..]);
        assert WithoutFirstStation(ts) == ts[1..];
      } else {
        var w := WithoutFirstStation(ts[1..]);
        var first := CloudsOf([ts[0]]);
        NonStationTokenStep(m, ts[0]);
        CloudStep(m, ts[0]);
        WithoutFirstStationFront(ts);
        assert m1.clouds == m.clouds + first;
        CloudsWithoutStation(m1, ts[1..]);
        CloudsOfAppend([ts[0]], w);
        ConcatChain(AnalyseTokens(m1, ts[1..]).clouds, m.clouds, m1.clouds, first, CloudsOf(w), CloudsOf(WithoutFirstStation(ts)));
      }
    }
  }

  /** Starting without a station, the phenomenon list is that of every
      token except the one taken as the station. */
  lemma {:induction false} PhenomenaWithoutStation(m: MetarRecord, ts: seq<string>)
    requires m.station == []
    ensures AnalyseTokens(m, ts).phenomena == m.phenomena + PhenomenaOf(WithoutFirstStation(ts))
    decreases |ts|
  {
    if ts == [] {
      assert m.phenomena + [] == m.phenomena;
    } else {
      FoldFront(m, ts);
      var m1 := ApplyToken(m, ts[0]);
      if IsStationToken(ts[0]) {
        StationTokenStep(m, ts[0]);
        PhenomenaInTokenOrder(m1, ts[1..]);
        assert WithoutFirstStation(ts) == ts[1..];
      } else {
        var w := WithoutFirstStation(ts[1..]);
        var first := PhenomenaOf([ts[0]]);
        NonStationTokenStep(m, ts[0]);
        PhenomenaStep(m, ts[0]);
        WithoutFirstStationFront(ts);
        assert m1.phenomena == m.phenomena + first;
        PhenomenaWithoutStation(m1, ts[1..]);
        PhenomenaOfAppend([ts[0]], w);
        ConcatChain(AnalyseTokens(m1, ts[1..]).phenomena, m.phenomena, m1.phenomena, first, PhenomenaOf(w), PhenomenaOf(WithoutFirstStation(ts)));
      }
    }
  }

  /** Every decoded report: the cloud and phenomenon lists are those of the
      tokens of its first line, in order, less the token taken as the
      station. */
  lemma ReportLists(report: string)
    ensures ParseReport(report).clouds == CloudsOf(WithoutFirstStation(Tokens(FirstLine(report))))
    ensures ParseReport(report).phenomena == PhenomenaOf(WithoutFirstStation(Tokens(FirstLine(report))))
  {
    CloudsWithoutStation(Cleared, Tokens(FirstLine(report)));
    PhenomenaWithoutStation(Cleared, Tokens(FirstLine(report)));
  }

  /** A report whose first token is the station: the station is that
      token, and the cloud and phenomenon lists are those of the remaining
      tokens, in order. */
  lemma ReportListsAfterStation(report: string)
    requires var ts := Tokens(FirstLine(report)); |ts| > 0 && IsStationToken(ts[0])
    ensures var ts := Tokens(FirstLine(report));
      && ParseReport(report).station == ts[0][..Min(|ts[0]|, STATION_SIZE)]
      && ParseReport(report).clouds == CloudsOf(ts[1..])
      && ParseReport(report).phenomena == PhenomenaOf(ts[1..])
  {
    var ts := Tokens(FirstLine(report));
    FoldFront(Cleared, ts);
    var m1 := ApplyToken(Cleared, ts[0]);
    assert m1 == Cleared.(station := ts[0][..Min(|ts[0]|, STATION_SIZE)]);
    AnalyseTokensExtends(m1, ts[1..]);
    CloudsInTokenOrder(m1, ts[1..]);
    PhenomenaInTokenOrder(m1, ts[1..]);
    assert m1.clouds + CloudsOf(ts[1..]) == CloudsOf(ts[1..]);
    assert m1.phenomena + PhenomenaOf(ts[1..]) == PhenomenaOf(ts[1..]);
  }

  // ---- maintenance indicator

  predicate StartsWithDollar(t: string)
  {
    |t| > 0 && t[0] == '$'
  }

  lemma MaintenanceStep(m: MetarRecord, t: string)
    ensures ApplyToken(m, t).maintenanceNeeded ==
              if StartsWithDollar(t) then MAINTENANCE_NEEDED else m.maintenanceNeeded
  {
    if StartsWithDollar(t) {
      DollarTokenIsUnclaimed(t);
    }
  }

  /** Some token of `ts` starts with `$`. */
  predicate AnyDollar(ts: seq<string>)
  {
    ts != [] && (AnyDollar(ts[..|ts| - 1]) || StartsWithDollar(ts[|ts| - 1]))
  }

  lemma {:induction false} AnyDollarMeaning(ts: seq<string>)
    ensures AnyDollar(ts) <==> exists k :: 0 <= k < |ts| && StartsWithDollar(ts[k])
    decreases |ts|
  {
    if ts != [] {
      var init := ts[..|ts| - 1];
      AnyDollarMeaning(init);
      if exists k :: 0 <= k < |init| && StartsWithDollar(init[k]) {
        var k :| 0 <= k < |init| && StartsWithDollar(init[k]);
        assert ts[k] == init[k];
      }
      if exists k :: 0 <= k < |ts| && StartsWithDollar(ts[k]) {
        var k :| 0 <= k < |ts| && StartsWithDollar(ts[k]);
        if k < |init| {
          assert init[k] == ts[k];
        }
      }
    }
  }

  /** The flag is raised exactly when some token starts with `$`, wherever
      it stands. */
  lemma {:induction false} MaintenanceFlag(m: MetarRecord, ts: seq<string>)
    ensures AnalyseTokens(m, ts).maintenanceNeeded ==
              if AnyDollar(ts) then MAINTENANCE_NEEDED else m.maintenanceNeeded
    decreases |ts|
  {
    if ts != [] {
      var init := ts[..|ts| - 1];
      MaintenanceFlag(m, init);
      MaintenanceStep(AnalyseTokens(m, init), ts[|ts| - 1]);
    }
  }

  /** A report's flag is `MAINTENANCE_NEEDED` exactly when one of its tokens
      starts with `$`, and `MAINTENANCE_NOT_NEEDED` otherwise. */
  lemma ReportMaintenance(report: string)
    ensures var ts := Tokens(FirstLine(report));
      ParseReport(report).maintenanceNeeded ==
        if exists k :: 0 <= k < |ts| && StartsWithDollar(ts[k]) then MAINTENANCE_NEEDED
        else MAINTENANCE_NOT_NEEDED
  {
    MaintenanceFlag(Cleared, Tokens(FirstLine(report)));
    AnyDollarMeaning(Tokens(FirstLine(report)));
  }

  // ---- well-formedness

  /** The unit buffers only ever hold these texts, and inches of mercury
      always come with two decimal places. */
  predicate UnitsKnown(m: MetarRecord)
  {
    && m.windunit in {"", "KT"}
    && m.visunit in {"", "M", "SM", "MM"}
    && m.qnhunit in {"", "hPa", "\"Hg"}
    && (m.qnhunit == "\"Hg" ==> m.qnhfp == 2)
  }

  lemma CloudPrintAltitude(t: string)
    requires IsCloudToken(t)
    ensures IsPrintAltitude(CloudOf(t).printAltitude)
  {
    if t in NoCloudCodes {
      NoCloudLayer(t);
    } else {
      CloudLayerOf(t);
    }
  }

  lemma ApplyTokenWellFormed(m: MetarRecord, t: string)
    requires WellFormed(m) && UnitsKnown(m)
    ensures WellFormed(ApplyToken(m, t)) && UnitsKnown(ApplyToken(m, t))
  {
    if (m.station == [] && IsStationToken(t)) || (m.day == 0 && IsDayTimeToken(t)) {
      EarlyBranchesWellFormed(m, t);
    } else if m.winddir == 0 && IsWindToken(t) {
      WindStepWellFormed(m, t);
    } else if m.vis == 0 && IsVisibilityToken(t) {
      VisibilityStepWellFormed(m, t);
    } else if (m.temp == 0 && IsTempDewToken(t)) || (m.qnh == 0 && IsPressureToken(t)) {
      MiddleBranchesWellFormed(m, t);
    } else {
      LateBranchesWellFormed(m, t);
    }
  }

  lemma EarlyBranchesWellFormed(m: MetarRecord, t: string)
    requires WellFormed(m) && UnitsKnown(m)
    requires (m.station == [] && IsStationToken(t)) || (m.day == 0 && IsDayTimeToken(t))
    ensures WellFormed(ApplyToken(m, t)) && UnitsKnown(ApplyToken(m, t))
  {
  }

  lemma MiddleBranchesWellFormed(m: MetarRecord, t: string)
    requires WellFormed(m) && UnitsKnown(m)
    requires !(m.station == [] && IsStationToken(t)) && !(m.day == 0 && IsDayTimeToken(t))
    requires !(m.winddir == 0 && IsWindToken(t)) && !(m.vis == 0 && IsVisibilityToken(t))
    requires (m.temp == 0 && IsTempDewToken(t)) || (m.qnh == 0 && IsPressureToken(t))
    ensures WellFormed(ApplyToken(m, t)) && UnitsKnown(ApplyToken(m, t))
  {
    if !(m.temp == 0 && IsTempDewToken(t)) {
      PressureStepWellFormed(m, t);
    }
  }

  lemma LateBranchesWellFormed(m: MetarRecord, t: string)
    requires WellFormed(m) && UnitsKnown(m)
    requires !(m.station == [] && IsStationToken(t)) && !(m.day == 0 && IsDayTimeToken(t))
    requires !(m.winddir == 0 && IsWindToken(t)) && !(m.vis == 0 && IsVisibilityToken(t))
    requires !(m.temp == 0 && IsTempDewToken(t)) && !(m.qnh == 0 && IsPressureToken(t))
    ensures WellFormed(ApplyToken(m, t)) && UnitsKnown(ApplyToken(m, t))
  {
    if IsCloudToken(t) {
      CloudStepWellFormed(m, t);
    } else {
      LateStepWellFormed(m, t);
    }
  }

  lemma WindStepWellFormed(m: MetarRecord, t: string)
    requires WellFormed(m) && UnitsKnown(m) && IsWindToken(t)
    ensures var r := m.(winddir := WindDirection(t), windstr := WindSpeed(t), windgust := WindGust(t),
                        windunit := CopyInto(m.windunit, "KT"));
            WellFormed(r) && UnitsKnown(r)
  {
    assert CopyInto(m.windunit, "KT") == "KT";
  }

  lemma VisibilityStepWellFormed(m: MetarRecord, t: string)
    requires WellFormed(m) && UnitsKnown(m) && IsVisibilityToken(t)
    ensures var r := m.(vis := DecimalValue(VisibilityDigits(t)),
                        visunit := CopyInto(m.visunit, if HasStatuteMiles(t) then "SM" else "M"));
            WellFormed(r) && UnitsKnown(r)
  {
    VisibilityUnitStep(m.visunit, if HasStatuteMiles(t) then "SM" else "M");
  }

  lemma PressureStepWellFormed(m: MetarRecord, t: string)
    requires WellFormed(m) && UnitsKnown(m) && IsPressureToken(t)
    ensures WellFormed(PressureStep(m, t)) && UnitsKnown(PressureStep(m, t))
  {
  }

  lemma CloudStepWellFormed(m: MetarRecord, t: string)
    requires WellFormed(m) && IsCloudToken(t)
    ensures WellFormed(m.(clouds := m.clouds + [CloudOf(t)]))
  {
    CloudPrintAltitude(t);
  }

  /** Writing `M` over `SM` leaves `MM`: the visibility unit buffer can
      hold four texts. */
  lemma VisibilityUnitStep(u: string, w: string)
    requires u in {"", "M", "SM", "MM"} && w in {"M", "SM"}
    ensures CopyInto(u, w) in {"", "M", "SM", "MM"}
  {
    var r := CopyInto(u, w);
    if w == "SM" {
      assert r == "SM";
    } else if u == "" || u == "M" {
      assert r == "M";
    } else {
      assert |r| == 2 && r[0] == 'M' && r[1] == 'M';
      assert r == "MM";
    }
  }

  lemma LateStepWellFormed(m: MetarRecord, t: string)
    requires WellFormed(m) && UnitsKnown(m)
    ensures WellFormed(LateStep(m, t)) && UnitsKnown(LateStep(m, t))
  {
    LateStepShape(m, t);
    var r := LateStep(m, t);
    WeatherUpdateWellFormed(m, r.phenomena, r.maintenanceNeeded);
  }

  /** The steps after the cloud recognizer change only the phenomenon list
      and the maintenance flag, and the flag stays one of its two values. */
  lemma LateStepShape(m: MetarRecord, t: string)
    requires IsMaintenanceFlag(m.maintenanceNeeded)
    ensures LateStep(m, t) == m.(phenomena := LateStep(m, t).phenomena,
                                 maintenanceNeeded := LateStep(m, t).maintenanceNeeded)
    ensures IsMaintenanceFlag(LateStep(m, t).maintenanceNeeded)
  {
    var m1 := if HasSubstring(t, "CAVOK") then m.(phenomena := m.phenomena + [CAVOK_TEXT]) else m;
    assert m1 == m.(phenomena := m1.phenomena);
    if IsPhenomenonToken(t) {
      assert LateStep(m, t) == m1.(phenomena := m1.phenomena + [PhenomenonText(t)]);
    } else if |t| > 0 && t[0] == '$' {
      assert LateStep(m, t) == m1.(maintenanceNeeded := MAINTENANCE_NEEDED);
    } else {
      assert LateStep(m, t) == m1;
    }
  }

  lemma WeatherUpdateWellFormed(m: MetarRecord, phenomena: seq<string>, flag: int)
    requires WellFormed(m) && UnitsKnown(m) && IsMaintenanceFlag(flag)
    ensures WellFormed(m.(phenomena := phenomena, maintenanceNeeded := flag))
    ensures UnitsKnown(m.(phenomena := phenomena, maintenanceNeeded := flag))
  {
  }

  lemma {:induction false} AnalyseTokensWellFormed(m: MetarRecord, ts: seq<string>)
    requires WellFormed(m) && UnitsKnown(m)
    ensures WellFormed(AnalyseTokens(m, ts)) && UnitsKnown(AnalyseTokens(m, ts))
    decreases |ts|
  {
    if ts != [] {
      AnalyseTokensWellFormed(m, ts[..|ts| - 1]);
      ApplyTokenWellFormed(AnalyseTokens(m, ts[..|ts| - 1]), ts[|ts| - 1]);
    }
  }

  /** Every report decodes to a well-formed record. */
  lemma ReportWellFormed(report: string)
    ensures WellFormed(ParseReport(report)) && UnitsKnown(ParseReport(report))
  {
    ClearedWellFormed();
    AnalyseTokensWellFormed(Cleared, Tokens(FirstLine(report)));
  }
}
