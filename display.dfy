/** The arithmetic and text handling `src/main.c` applies to a decoded
    record before printing it (`strupc` on the station argument, the
    `hh:mm` split of the time, the wind direction as "Variable" or a
    compass point). The printing itself is not modelled. */
module Display {
  import opened CStrings
  import opened MetarH
  import opened Recognizers

  // ---- C integer division

  /** C's `/` on `int`: the quotient is truncated toward zero. */
  function CDiv(a: int, b: int): int
    requires b > 0
  {
    if a >= 0 then a / b else -((-a) / b)
  }

  /** C's `%` on `int`: the remainder takes the sign of the dividend. */
  function CMod(a: int, b: int): int
    requires b > 0
  {
    a - b * CDiv(a, b)
  }

  /** The C division identity, and the range of the remainder. */
  lemma CDivMod(a: int, b: int)
    requires b > 0
    ensures b * CDiv(a, b) + CMod(a, b) == a
    ensures a >= 0 ==> 0 <= CMod(a, b) < b && CDiv(a, b) >= 0
    ensures a < 0 ==> -b < CMod(a, b) <= 0 && CDiv(a, b) <= 0
  {
    if a >= 0 {
      DivNonNegative(a, b);
    } else {
      var q := (-a) / b;
      assert -a == b * q + (-a) % b;
      assert CMod(a, b) == -((-a) % b);
    }
  }

  lemma DivNonNegative(a: int, b: int)
    requires a >= 0 && b > 0
    ensures a / b >= 0
  {
  }

  // ---- time

  /** The hours printed for `time`: `time / 100`. */
  function Hours(time: int): int
  {
    CDiv(time, 100)
  }

  /** The minutes printed for `time`: `time % 100`. */
  function Minutes(time: int): int
  {
    CMod(time, 100)
  }

  /** The two printed numbers put back together give the time, and a time
      that is not negative has its minutes in 0..99. */
  lemma HoursMinutes(time: int)
    ensures Hours(time) * 100 + Minutes(time) == time
    ensures time >= 0 ==> 0 <= Minutes(time) < 100 && 0 <= Hours(time)
  {
    CDivMod(time, 100);
  }

  /** A time read from a day/time token has four digits, so both printed
      numbers have at most two. */
  lemma DecodedTimeFits(t: string)
    requires IsDayTimeToken(t)
    ensures 0 <= Hours(TokenTime(t)) < 100 && 0 <= Minutes(TokenTime(t)) < 100
  {
    DecimalValueBound(t[2..6]);
    assert Pow10(4) == 10000;
    HoursMinutes(TokenTime(t));
  }

  // ---- wind direction

  /** `winddirs` of `decode_Metar`: the sixteen compass points clockwise
      from north. */
  const WindDirs: seq<string> := [
    "N", "NNE", "NE", "ENE", "E", "ESE", "SE", "SSE",
    "S", "SSW", "SW", "WSW", "W", "WNW", "NW", "NNW"
  ]

  /** The compass point, counted in steps of 22.5 degrees from north and
      without reduction to one turn, nearest to `winddir`. */
  function Sector(winddir: int): int
  {
    CDiv(winddir * 4 + 45, 90)
  }

  /** `((winddir * 4 + 45) / 90) % 16`. */
  function CompassIndex(winddir: int): int
  {
    CMod(Sector(winddir), 16)
  }

  /** For a direction that is not negative the index is a valid subscript
      of `WindDirs`. */
  lemma CompassIndexRange(winddir: int)
    requires winddir >= 0
    ensures 0 <= CompassIndex(winddir) < |WindDirs|
  {
    CDivMod(winddir * 4 + 45, 90);
    CDivMod(Sector(winddir), 16);
  }

  /** The sector is the point nearest to the direction: `winddir` lies in
      the half-open interval from 11.25 degrees before sector point
      `Sector(winddir)` (22.5 degrees each) to 11.25 degrees after it, and
      no other point has that property. */
  lemma SectorIsNearest(winddir: int, j: int)
    requires winddir >= 0
    ensures -45 <= 4 * winddir - 90 * Sector(winddir) < 45
    ensures -45 <= 4 * winddir - 90 * j < 45 ==> j == Sector(winddir)
  {
    CDivMod(winddir * 4 + 45, 90);
  }

  /** For a direction that is not negative the index is the sector reduced
      to one turn. */
  lemma CompassIndexOfSector(winddir: int)
    requires winddir >= 0
    ensures CompassIndex(winddir) == Sector(winddir) % 16
  {
    CDivMod(winddir * 4 + 45, 90);
    CDivMod(Sector(winddir), 16);
  }

  /** The text printed after "Wind direction:": "Variable" for the
      variable-wind sentinel, otherwise the compass point. */
  function WindDirectionText(winddir: int): string
    requires winddir == VARIABLE_WIND || winddir >= 0
  {
    if winddir == VARIABLE_WIND then "Variable"
    else
      CompassIndexRange(winddir);
      WindDirs[CompassIndex(winddir)]
  }

  /** "Variable" is printed exactly when the direction is the sentinel. */
  lemma VariableExactlyForSentinel(winddir: int)
    requires winddir == VARIABLE_WIND || winddir >= 0
    ensures WindDirectionText(winddir) == "Variable" <==> winddir == VARIABLE_WIND
  {
    if winddir != VARIABLE_WIND {
      CompassIndexRange(winddir);
      var n := CompassIndex(winddir);
      assert |WindDirs[n]| <= 3;
    }
  }

  /** A direction within 11.25 degrees (half-open) of compass point `j`
      prints that point's name. */
  lemma NearestPointName(winddir: int, j: int)
    requires winddir >= 0 && -45 <= 4 * winddir - 90 * j < 45
    ensures WindDirectionText(winddir) == WindDirs[j % 16]
  {
    SectorIsNearest(winddir, j);
    CompassIndexOfSector(winddir);
  }

  /** The four cardinal directions and a full turn. */
  lemma CardinalPoints()
    ensures WindDirectionText(0) == "N" && WindDirectionText(90) == "E"
    ensures WindDirectionText(180) == "S" && WindDirectionText(270) == "W"
  {
    NearestPointName(0, 0);
    NearestPointName(90, 4);
    NearestPointName(180, 8);
    NearestPointName(270, 12);
  }

  /** A full turn, and the two sides of the boundary between NNW and N at
      348.75 degrees. */
  lemma NorthBoundary()
    ensures WindDirectionText(360) == "N"
    ensures WindDirectionText(348) == "NNW" && WindDirectionText(349) == "N"
  {
    NearestPointName(360, 16);
    NearestPointName(348, 15);
    NearestPointName(349, 16);
  }

  // ---- strupc

  /** `toupper` in the C locale. */
  function ToUpper(c: char): char
  {
    if 'a' <= c <= 'z' then (c as int - 32) as char else c
  }

  /** Every character of `s` through `toupper`. */
  function UpperText(s: string): (r: string)
    ensures |r| == |s|
    ensures forall i :: 0 <= i < |s| ==> r[i] == ToUpper(s[i])
  {
    if s == [] then [] else [ToUpper(s[0])] + UpperText(s[1..])
  }

  /** `strupc`: every character of the C string in the buffer through
      `toupper`, in place; the rest of the buffer is untouched, and the
      buffer itself is returned. */
  method StrUpc(line: array<char>) returns (r: array<char>)
    modifies line
    ensures r == line
    ensures line[..] == UpperText(CString(old(line[..]))) + old(line[..])[|CString(old(line[..]))|..]
  {
    var p := 0;
    while p < line.Length && line[p] != NUL
      invariant 0 <= p <= line.Length
      invariant forall i :: 0 <= i < p ==> old(line[i]) != NUL && line[i] == ToUpper(old(line[i]))
      invariant forall i :: p <= i < line.Length ==> line[i] == old(line[i])
    {
      line[p] := ToUpper(line[p]);
      p := p + 1;
    }
    ghost var s := old(line[..]);
    assert NUL !in s[..p] by {
      forall i | 0 <= i < p
        ensures s[..p][i] != NUL
      {
      }
    }
    BeforeIsFirst(s, NUL, p);
    r := line;
  }

  /** Upper-casing twice is upper-casing once. */
  lemma UpperTextIdempotent(s: string)
    ensures UpperText(UpperText(s)) == UpperText(s)
  {
    var r := UpperText(s);
    assert forall i :: 0 <= i < |r| ==> ToUpper(r[i]) == r[i];
  }

  /** Upper-casing keeps the C string's length: no character becomes a
      NUL. */
  lemma UpperKeepsCString(buf: seq<char>)
    ensures CString(UpperText(CString(buf)) + buf[|CString(buf)|..]) == UpperText(CString(buf))
  {
    var s := CString(buf);
    var b := UpperText(s) + buf[|s|..];
    assert b[..|s|] == UpperText(s);
    assert NUL !in UpperText(s) by {
      forall i | 0 <= i < |s|
        ensures UpperText(s)[i] != NUL
      {
        assert s[i] != NUL;
      }
    }
    BeforeIsFirst(b, NUL, |s|);
  }

  predicate IsAsciiLetter(c: char)
  {
    'a' <= c <= 'z' || 'A' <= c <= 'Z'
  }

  /** A station code typed in letters of either case, once upper-cased, is
      accepted by the station expression of the decoder. */
  lemma UpperLettersAreStation(s: string)
    requires |s| > 0 && forall i :: 0 <= i < |s| ==> IsAsciiLetter(s[i])
    ensures IsStationToken(UpperText(s))
  {
  }
}
