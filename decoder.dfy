/** The decoder of `src/metar.c` as it runs: a `metar_t` updated in place
    by `parse_Metar` and `analyse_token`, the newline stripping that works
    on the report buffer, and `clean_date`. Each method is proved to leave
    exactly the state the functions of `Analyse` describe. */
module Decoder {
  import opened CStrings
  import opened CBuffers
  import opened MetarH
  import opened Recognizers
  import opened CloudLayers
  import opened PhenomenonDescription
  import opened Analyse

  /** `metar_t`. The cloud and phenomenon lists are sequences in node
      order. */
  class Metar {
    var station: string
    var day: int
    var time: int
    var winddir: int
    var windstr: int
    var windgust: int
    var windunit: string
    var vis: int
    var visunit: string
    var qnh: int
    var qnhunit: string
    var qnhfp: int
    var temp: int
    var dewp: int
    var maintenanceNeeded: int
    var clouds: seq<CloudLayer>
    var phenomena: seq<string>

    /** The fields as one value. */
    function Record(): MetarRecord
      reads this
    {
      MetarRecord(station, day, time, winddir, windstr, windgust, windunit, vis, visunit,
                  qnh, qnhunit, qnhfp, temp, dewp, maintenanceNeeded, clouds, phenomena)
    }

    constructor ()
      ensures Record() == Cleared
    {
      station, day, time := "", 0, 0;
      winddir, windstr, windgust, windunit := 0, 0, 0, "";
      vis, visunit := 0, "";
      qnh, qnhunit, qnhfp := 0, "", 0;
      temp, dewp := 0, 0;
      maintenanceNeeded := MAINTENANCE_NOT_NEEDED;
      clouds, phenomena := [], [];
    }

    /** `memset(metar, 0, ..)` followed by clearing the maintenance flag,
        done a group of fields at a time. */
    method Clear()
      modifies this
      ensures Record() == Cleared
    {
      ClearStationAndTime();
      ClearWind();
      ClearVisibilityAndPressure();
      ClearWeather();
    }

    method ClearStationAndTime()
      modifies this
      ensures Record() == old(Record()).(station := "", day := 0, time := 0)
    {
      station, day, time := "", 0, 0;
    }

    method ClearWind()
      modifies this
      ensures Record() == old(Record()).(winddir := 0, windstr := 0, windgust := 0, windunit := "")
    {
      winddir, windstr, windgust, windunit := 0, 0, 0, "";
    }

    method ClearVisibilityAndPressure()
      modifies this
      ensures Record() == old(Record()).(vis := 0, visunit := "", qnh := 0, qnhunit := "", qnhfp := 0)
    {
      vis, visunit, qnh, qnhunit, qnhfp := 0, "", 0, "", 0;
    }

    method ClearWeather()
      modifies this
      ensures Record() == old(Record()).(temp := 0, dewp := 0, maintenanceNeeded := MAINTENANCE_NOT_NEEDED,
                                         clouds := [], phenomena := [])
    {
      temp, dewp, maintenanceNeeded, clouds, phenomena := 0, 0, MAINTENANCE_NOT_NEEDED, [], [];
    }

    /** `add_cloud`: the layer becomes the last node of the list. */
    method AddCloud(cloud: CloudLayer)
      modifies this
      ensures clouds == old(clouds) + [cloud]
      ensures Record() == old(Record()).(clouds := old(clouds) + [cloud])
    {
      clouds := clouds + [cloud];
    }

    /** `add_phenomenon`: the text becomes the last node of the list. */
    method AddPhenomenon(phenomenon: string)
      modifies this
      ensures phenomena == old(phenomena) + [phenomenon]
      ensures Record() == old(Record()).(phenomena := old(phenomena) + [phenomenon])
    {
      phenomena := phenomena + [phenomenon];
    }

    /** `analyse_token`: each guarded recognizer in turn, returning after
        the first that accepts the token. */
    method AnalyseToken(token: string)
      modifies this
      ensures Record() == ApplyToken(old(Record()), token)
    {
      ghost var m := Record();
      if station == [] && IsStationToken(token) {
        station := token[..Min(|token|, STATION_SIZE)];
        return;
      }
      if day == 0 && IsDayTimeToken(token) {
        day := TokenDay(token);
        time := TokenTime(token);
        return;
      }
      if winddir == 0 && IsWindToken(token) {
        SetWind(token);
        return;
      }
      if vis == 0 && IsVisibilityToken(token) {
        SetVisibility(token);
        return;
      }
      if temp == 0 && IsTempDewToken(token) {
        temp := TokenTemp(token);
        dewp := TokenDewp(token);
        assert Record() == m.(temp := TokenTemp(token), dewp := TokenDewp(token));
        return;
      }
      if qnh == 0 && IsPressureToken(token) {
        SetPressure(token);
        return;
      }
      if IsCloudToken(token) {
        AddCloud(CloudOf(token));
        return;
      }
      assert ApplyToken(m, token) == LateStep(m, token);
      AnalyseRemainder(token);
    }

    /** The wind block: direction (-1 for `VRB`), speed, gust (the speed
        when the token has none) and the unit `KT`. */
    method SetWind(token: string)
      requires IsWindToken(token)
      modifies this
      ensures Record() == old(Record()).(winddir := WindDirection(token), windstr := WindSpeed(token),
                                         windgust := WindGust(token), windunit := CopyInto(old(windunit), "KT"))
    {
      winddir := WindDirection(token);
      windstr := WindSpeed(token);
      var gust := GustGroup(token);
      if gust != [] {
        windgust := DecimalValue(gust[1..]);
      } else {
        windgust := windstr;
      }
      windunit := CopyInto(windunit, "KT");
    }

    /** The visibility block: the digits, and `SM` when the token ends in it
        or else `M` copied over the unit buffer. */
    method SetVisibility(token: string)
      requires IsVisibilityToken(token)
      modifies this
      ensures Record() == old(Record()).(vis := DecimalValue(VisibilityDigits(token)),
                                         visunit := CopyInto(old(visunit), if HasStatuteMiles(token) then "SM" else "M"))
    {
      vis := DecimalValue(VisibilityDigits(token));
      if HasStatuteMiles(token) {
        visunit := CopyInto(visunit, "SM");
      } else {
        visunit := CopyInto(visunit, "M");
      }
    }

    /** The pressure block. */
    method SetPressure(token: string)
      requires IsPressureToken(token)
      modifies this
      ensures Record() == PressureStep(old(Record()), token)
    {
      var unit := if token[0] == 'Q' then "hPa" else if token[0] == 'A' then "\"Hg" else "Unkn";
      qnhunit := CopyInto(qnhunit, unit);
      if token[0] == 'A' {
        qnhfp := 2;
      }
      qnh := TokenQnh(token);
    }

    /** What follows the cloud block: `CAVOK`, the phenomenon expression and
        the maintenance marker. */
    method AnalyseRemainder(token: string)
      modifies this
      ensures Record() == LateStep(old(Record()), token)
    {
      if HasSubstring(token, "CAVOK") {
        AddPhenomenon(CAVOK_TEXT);
      }
      if IsPhenomenonToken(token) {
        var text := DescribePhenomenon(token);
        AddPhenomenon(text);
        return;
      }
      if |token| > 0 && token[0] == '$' {
        maintenanceNeeded := MAINTENANCE_NEEDED;
      }
    }
  }

  /** `parse_Metar`: clear the record, strip the newlines, then analyse
      the space-separated tokens in order. */
  method ParseMetar(report: array<char>, metar: Metar)
    modifies report, metar
    ensures metar.Record() == ParseReport(CString(old(report[..])))
    ensures CString(report[..]) == FirstLine(CString(old(report[..])))
    ensures forall i :: 0 <= i < report.Length && report[i] != old(report[i]) ==>
              old(report[i]) == '\n' && report[i] == NUL
  {
    metar.Clear();
    StripNewlines(report);
    ghost var stripped := report[..];
    var tokens := Tokens(CString(report[..]));
    for i := 0 to |tokens|
      invariant metar.Record() == AnalyseTokens(Cleared, tokens[..i])
      invariant report[..] == stripped
    {
      metar.AnalyseToken(tokens[i]);
      assert tokens[..i + 1][..i] == tokens[..i];
    }
    assert tokens[..|tokens|] == tokens;
  }

  /** Cutting a text at a newline keeps its first line. */
  lemma CutAtNewline(s: string, p: nat)
    requires p < |s| && s[p] == '\n'
    ensures FirstLine(s[..p]) == FirstLine(s)
  {
    var q := |FirstLine(s)|;
    assert q <= p;
    BeforeIsFirst(s[..p], '\n', q);
  }

  lemma NoNewline(s: string)
    requires '\n' !in s
    ensures FirstLine(s) == s
  {
    BeforeIsFirst(s, '\n', |s|);
  }

  /** The `strrchr` loop of `parse_Metar`: every newline of the C string,
      from the last, is overwritten with a NUL, so the C string is cut at
      its first newline; no other character changes. */
  method StripNewlines(report: array<char>)
    modifies report
    ensures CString(report[..]) == FirstLine(CString(old(report[..])))
    ensures forall i :: 0 <= i < report.Length && report[i] != old(report[i]) ==>
              old(report[i]) == '\n' && report[i] == NUL
  {
    var last := StrRChr(report, '\n');
    while last.Some?
      invariant FirstLine(CString(report[..])) == FirstLine(CString(old(report[..])))
      invariant last.None? <==> '\n' !in CString(report[..])
      invariant last.Some? ==> last.value < |CString(report[..])| && CString(report[..])[last.value] == '\n'
      invariant forall i :: 0 <= i < report.Length && report[i] != old(report[i]) ==>
                  old(report[i]) == '\n' && report[i] == NUL
      decreases |CString(report[..])|
    {
      var p := last.value;
      ghost var before := report[..];
      ghost var s := CString(before);
      CutAtNewline(s, p);
      CStringCut(before, p);
      report[p] := NUL;
      assert report[..] == before[p := NUL];
      last := StrRChr(report, '\n');
    }
    NoNewline(CString(report[..]));
  }

  /** The text of a date once every `T` reads as a space. */
  function CleanDateText(s: string): (r: string)
    ensures |r| == |s|
    ensures forall i :: 0 <= i < |s| ==> r[i] == if s[i] == 'T' then ' ' else s[i]
  {
    if s == [] then [] else [if s[0] == 'T' then ' ' else s[0]] + CleanDateText(s[1..])
  }

  /** `clean_date`: every `T` of the C string in the buffer becomes a space,
      in place; the rest of the buffer is untouched. */
  method CleanDate(date: array<char>)
    modifies date
    ensures date[..] == CleanDateText(CString(old(date[..]))) + old(date[..])[|CString(old(date[..]))|..]
  {
    var size := StrLen(date);
    ghost var s := CString(date[..]);
    for pos := 0 to size
      invariant forall i :: 0 <= i < pos ==> date[i] == CleanDateText(s)[i]
      invariant forall i :: pos <= i < date.Length ==> date[i] == old(date[i])
    {
      if date[pos] == 'T' {
        date[pos] := ' ';
      }
    }
  }

  /** No `T` is left in a cleaned date. */
  lemma CleanDateRemovesT(s: string)
    ensures 'T' !in CleanDateText(s)
  {
    var r := CleanDateText(s);
    forall i | 0 <= i < |r|
      ensures r[i] != 'T'
    {
    }
  }

  /** Cleaning a cleaned date changes nothing. */
  lemma CleanDateIdempotent(s: string)
    ensures CleanDateText(CleanDateText(s)) == CleanDateText(s)
  {
    CleanDateRemovesT(s);
  }

  /** An ISO 8601 date and time with its `T` separator, such as
      `2016-09-24T21:35:00Z`, becomes the date, a space and the time. */
  lemma CleanDateSeparatesDateAndTime(date: string, time: string)
    requires 'T' !in date && 'T' !in time
    ensures CleanDateText(date + "T" + time) == date + " " + time
  {
    var s := date + "T" + time;
    var r := CleanDateText(s);
    assert |r| == |date + " " + time|;
    forall i | 0 <= i < |r|
      ensures r[i] == (date + " " + time)[i]
    {
      if i < |date| {
        assert s[i] == date[i];
      } else if i > |date| {
        assert s[i] == time[i - |date| - 1];
      }
    }
  }

  /** Cleaning keeps the C string's length: no character becomes a NUL. */
  lemma CleanDateKeepsCString(buf: seq<char>)
    ensures CString(CleanDateText(CString(buf)) + buf[|CString(buf)|..]) == CleanDateText(CString(buf))
  {
    var s := CString(buf);
    var b := CleanDateText(s) + buf[|s|..];
    assert b[..|s|] == CleanDateText(s);
    assert NUL !in CleanDateText(s) by {
      forall i | 0 <= i < |s|
        ensures CleanDateText(s)[i] != NUL
      {
        assert s[i] != NUL;
      }
    }
    BeforeIsFirst(b, NUL, |s|);
  }
}
