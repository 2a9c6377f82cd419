/** The two-letter weather phenomenon table `phenomena` of `src/metar.c` and
    its exact two-character lookup `decode_phenomena`. */
module PhenomenonDictionary {
  import opened CStrings

  /** One `struct phenomenon`. Every description ends in a space, which the
      decoder relies on when it joins descriptions. */
  datatype Phenomenon = Phenomenon(code: string, description: string)

  const Phenomena: seq<Phenomenon> := [
    Phenomenon("MI", "Shallow "),
    Phenomenon("BL", "Blowing "),
    Phenomenon("BC", "Patches "),
    Phenomenon("SH", "Showers "),
    Phenomenon("PR", "Partials "),
    Phenomenon("DR", "Drifting "),
    Phenomenon("TS", "Thunderstorm "),
    Phenomenon("FZ", "Freezing "),
    Phenomenon("DZ", "Drizzle "),
    Phenomenon("IC", "Ice Crystals "),
    Phenomenon("UP", "Unknown Precipitation "),
    Phenomenon("RA", "Rain "),
    Phenomenon("PL", "Ice Pellets "),
    Phenomenon("SN", "Snow "),
    Phenomenon("GR", "Hail "),
    Phenomenon("SG", "Snow Grains "),
    Phenomenon("GS", "Small hail/snow pellets "),
    Phenomenon("BR", "Mist "),
    Phenomenon("SA", "Sand "),
    Phenomenon("FU", "Smoke "),
    Phenomenon("HZ", "Haze "),
    Phenomenon("FG", "Fog "),
    Phenomenon("VA", "Volcanic Ash "),
    Phenomenon("PY", "Spray "),
    Phenomenon("DU", "Widespread Dust "),
    Phenomenon("SQ", "Squall "),
    Phenomenon("FC", "Funnel Cloud "),
    Phenomenon("SS", "Sand storm "),
    Phenomenon("DS", "Dust storm "),
    Phenomenon("PO", "Well developed dust/sand swirls "),
    Phenomenon("VC", "Vicinity ")
  ]

  /** The characters `strncmp(pattern, code, 2)` looks at. */
  function Key(pattern: string): string
  {
    pattern[..Min(2, |pattern|)]
  }

  /** `decode_phenomena`: the description of the first entry whose code
      equals the first two characters of `pattern`; `None` for NULL. */
  function DecodePhenomena(pattern: string): (r: Option<string>)
    ensures r.Some? <==> exists i :: 0 <= i < |Phenomena| && Phenomena[i].code == Key(pattern)
    ensures r.Some? ==> exists i :: 0 <= i < |Phenomena| && Phenomena[i].code == Key(pattern)
                                    && r.value == Phenomena[i].description
  {
    ScanFrom(Key(pattern), 0)
  }

  /** The lookup loop from entry `i` on. */
  function ScanFrom(key: string, i: nat): (r: Option<string>)
    requires i <= |Phenomena|
    ensures r.Some? <==> exists k :: i <= k < |Phenomena| && Phenomena[k].code == key
    ensures r.Some? ==> exists k :: i <= k < |Phenomena| && Phenomena[k].code == key
                                    && r.value == Phenomena[k].description
    decreases |Phenomena| - i
  {
    if i == |Phenomena| then None
    else if Phenomena[i].code == key then Some(Phenomena[i].description)
    else ScanFrom(key, i + 1)
  }

  /** A nonempty text whose last character is a space. */
  predicate EndsInSpace(d: string)
  {
    |d| > 0 && d[|d| - 1] == ' '
  }

  /** A two-letter group the phenomenon pattern accepts: one of the table's
      codes (`CodeDecodes` relates it to `DecodePhenomena`). */
  predicate IsPhenomenonCode(c: string)
  {
    |c| == 2 && InTableFrom(c, 0)
  }

  /** `c` is the code of an entry from `i` on. */
  predicate InTableFrom(c: string, i: nat)
    requires i <= |Phenomena|
    decreases |Phenomena| - i
  {
    i < |Phenomena| && (Phenomena[i].code == c || InTableFrom(c, i + 1))
  }

  lemma {:induction false} InTableFromMeaning(c: string, i: nat)
    requires i <= |Phenomena|
    ensures InTableFrom(c, i) <==> exists k :: i <= k < |Phenomena| && Phenomena[k].code == c
    decreases |Phenomena| - i
  {
    if i < |Phenomena| {
      InTableFromMeaning(c, i + 1);
      var e := Phenomena[i];
      if e.code == c {
        assert i <= i < |Phenomena| && Phenomena[i].code == c;
      }
    }
  }

  /** The accepted codes are exactly the two-character texts the lookup
      finds. */
  lemma CodeDecodes(c: string)
    ensures IsPhenomenonCode(c) <==> |c| == 2 && DecodePhenomena(c).Some?
  {
    InTableFromMeaning(c, 0);
    if |c| == 2 {
      assert Key(c) == c;
    }
  }

  lemma TableShape()
    ensures |Phenomena| == 31
    ensures forall i :: 0 <= i < |Phenomena| ==> |Phenomena[i].code| == 2
    ensures forall i :: 0 <= i < |Phenomena| ==>
              |Phenomena[i].description| > 0 && Phenomena[i].description[|Phenomena[i].description| - 1] == ' '
  {
  }

  /** What a successful lookup returns is a nonempty text ending in a space. */
  lemma DescriptionShape(pattern: string)
    requires DecodePhenomena(pattern).Some?
    ensures EndsInSpace(DecodePhenomena(pattern).value)
  {
    TableShape();
  }

  /** Every accepted code is two capital letters. */
  lemma PhenomenonCodeUpper(c: string)
    requires IsPhenomenonCode(c)
    ensures IsUpper(c[0]) && IsUpper(c[1])
  {
    InTableFromMeaning(c, 0);
    CodesUpper();
  }

  lemma CodesUpper()
    ensures forall i :: 0 <= i < |Phenomena| ==> IsUpper(Phenomena[i].code[0]) && IsUpper(Phenomena[i].code[1])
  {
  }

  /** No code appears twice, so the first match is the only one. */
  lemma CodesDistinct()
    ensures forall i, j :: 0 <= i < j < |Phenomena| ==> Phenomena[i].code != Phenomena[j].code
  {
    CodesDistinctFrom0();
    CodesDistinctFrom4();
    CodesDistinctFrom8();
    CodesDistinctFrom12();
    CodesDistinctFrom16();
    CodesDistinctFrom20();
    CodesDistinctFrom24();
    CodesDistinctFrom28();
  }

  /** `CodesDistinct` for four entries at a time, each against every
      later entry. */
  lemma CodesDistinctFrom0()
    ensures forall i, j :: 0 <= i < 4 && i < j < |Phenomena| ==> Phenomena[i].code != Phenomena[j].code
  {
  }

  lemma CodesDistinctFrom4()
    ensures forall i, j :: 4 <= i < 8 && i < j < |Phenomena| ==> Phenomena[i].code != Phenomena[j].code
  {
  }

  lemma CodesDistinctFrom8()
    ensures forall i, j :: 8 <= i < 12 && i < j < |Phenomena| ==> Phenomena[i].code != Phenomena[j].code
  {
  }

  lemma CodesDistinctFrom12()
    ensures forall i, j :: 12 <= i < 16 && i < j < |Phenomena| ==> Phenomena[i].code != Phenomena[j].code
  {
  }

  lemma CodesDistinctFrom16()
    ensures forall i, j :: 16 <= i < 20 && i < j < |Phenomena| ==> Phenomena[i].code != Phenomena[j].code
  {
  }

  lemma CodesDistinctFrom20()
    ensures forall i, j :: 20 <= i < 24 && i < j < |Phenomena| ==> Phenomena[i].code != Phenomena[j].code
  {
  }

  lemma CodesDistinctFrom24()
    ensures forall i, j :: 24 <= i < 28 && i < j < |Phenomena| ==> Phenomena[i].code != Phenomena[j].code
  {
  }

  lemma CodesDistinctFrom28()
    ensures forall i, j :: 28 <= i < j < |Phenomena| ==> Phenomena[i].code != Phenomena[j].code
  {
  }

  /** Every table code is accepted, and decodes to its own description. */
  lemma {:induction false} DecodeTableCode(i: nat)
    requires i < |Phenomena|
    ensures IsPhenomenonCode(Phenomena[i].code)
    ensures DecodePhenomena(Phenomena[i].code) == Some(Phenomena[i].description)
  {
    TableShape();
    CodesDistinct();
    var c := Phenomena[i].code;
    assert Key(c) == c;
    var r := DecodePhenomena(c);
    var k :| 0 <= k < |Phenomena| && Phenomena[k].code == c && r.value == Phenomena[k].description;
    assert k == i;
    CodeDecodes(c);
  }
}
