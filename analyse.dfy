/** `analyse_token` and `parse_Metar` of `src/metar.c` as functions on
    `MetarRecord` values: one token updates the record, and a report is the
    left-to-right fold of its tokens over the cleared record. The class
    `Decoder.Metar` performs the same steps in place and is proved equal to
    these functions. */
module Analyse {
  import opened CStrings
  import opened MetarH
  import opened Recognizers
  import opened CloudLayers
  import opened PhenomenonDescription

  /** `memcpy`/`strncpy` of the characters of `w`, without a terminator, to
      the start of a buffer holding the C string `buf` and zeros after it:
      the new C string is `w` followed by whatever of `buf` it did not
      cover. */
  function CopyInto(buf: string, w: string): (r: string)
    ensures |r| == Max(|buf|, |w|)
    ensures r[..|w|] == w
    ensures forall i :: |w| <= i < |r| ==> r[i] == buf[i]
  {
    if |w| >= |buf| then w else w + buf[|w|..]
  }

  /** The `qnh` step: the unit from the first letter, `qnhfp` set to 2 for
      inches of mercury, and the digits. */
  function PressureStep(m: MetarRecord, t: string): MetarRecord
    requires IsPressureToken(t)
  {
    var unit :=
      if t[0] == 'Q' then CopyInto(m.qnhunit, "hPa")
      else if t[0] == 'A' then CopyInto(m.qnhunit, "\"Hg")
      else CopyInto(m.qnhunit, "Unkn");
    var fp := if t[0] == 'A' then 2 else m.qnhfp;
    m.(qnhunit := unit, qnhfp := fp, qnh := TokenQnh(t))
  }

  /** `CAVOK` anywhere in the token adds its phenomenon; then a phenomenon
      token adds its text, or a token starting with `$` raises the
      maintenance flag. */
  function LateStep(m: MetarRecord, t: string): MetarRecord
  {
    var m1 := if HasSubstring(t, "CAVOK") then m.(phenomena := m.phenomena + [CAVOK_TEXT]) else m;
    if IsPhenomenonToken(t) then m1.(phenomena := m1.phenomena + [PhenomenonText(t)])
    else if |t| > 0 && t[0] == '$' then m1.(maintenanceNeeded := MAINTENANCE_NEEDED)
    else m1
  }

  /** `analyse_token`: the first recognizer, in the decoder's order, whose
      guard holds and which accepts the token decides the update. The first
      six are guarded by their field still being zero. */
  function ApplyToken(m: MetarRecord, t: string): MetarRecord
  {
    if m.station == [] && IsStationToken(t) then
      m.(station := t[..Min(|t|, STATION_SIZE)])
    else if m.day == 0 && IsDayTimeToken(t) then
      m.(day := TokenDay(t), time := TokenTime(t))
    else if m.winddir == 0 && IsWindToken(t) then
      m.(winddir := WindDirection(t), windstr := WindSpeed(t), windgust := WindGust(t),
         windunit := CopyInto(m.windunit, "KT"))
    else if m.vis == 0 && IsVisibilityToken(t) then
      m.(vis := DecimalValue(VisibilityDigits(t)),
         visunit := CopyInto(m.visunit, if HasStatuteMiles(t) then "SM" else "M"))
    else if m.temp == 0 && IsTempDewToken(t) then
      m.(temp := TokenTemp(t), dewp := TokenDewp(t))
    else if m.qnh == 0 && IsPressureToken(t) then
      PressureStep(m, t)
    else if IsCloudToken(t) then
      m.(clouds := m.clouds + [CloudOf(t)])
    else
      LateStep(m, t)
  }

  /** The tokens `ts` analysed in order, starting from `m`. */
  function AnalyseTokens(m: MetarRecord, ts: seq<string>): MetarRecord
  {
    if ts == [] then m else ApplyToken(AnalyseTokens(m, ts[..|ts| - 1]), ts[|ts| - 1])
  }

  /** `parse_Metar`: the record cleared, the report cut at its first newline
      and split at spaces, and every token analysed. */
  function ParseReport(report: string): MetarRecord
  {
    AnalyseTokens(Cleared, Tokens(FirstLine(report)))
  }
}
