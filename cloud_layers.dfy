/** How `analyse_token` in `src/metar.c` turns a cloud token into a
    `cloud_t`: each group the cloud expression captured is looked up with
    `decode_cloud_abbreviation`, and the lemmas here show that every such
    lookup finds an entry, and which one. */
module CloudLayers {
  import opened CStrings
  import opened MetarH
  import opened CloudDictionary
  import opened Recognizers

  /** A no-cloud code finds its own entry, whose base is not printed. */
  lemma NoCloudLookup(t: string)
    requires t in NoCloudCodes
    ensures DecodeCloudAbbreviation(t).Some?
    ensures DecodeCloudAbbreviation(t).value.abbreviation == t
    ensures DecodeCloudAbbreviation(t).value.printAltitude == DONT_PRINT_BASE
  {
    Abbreviations();
    if t == "SKC" {
      DecodesTo(t, 0);
    } else if t == "CLR" {
      NoMatchAt(t, CloudDict[0].abbreviation, 0);
      DecodesTo(t, 1);
    } else if t == "NSC" {
      forall j | 0 <= j < 2
        ensures !KeyMatches(t, CloudDict[j].abbreviation)
      {
        NoMatchAt(t, CloudDict[j].abbreviation, 0);
      }
      DecodesTo(t, 2);
    } else {
      forall j | 0 <= j < 3
        ensures !KeyMatches(t, CloudDict[j].abbreviation)
      {
        NoMatchAt(t, CloudDict[j].abbreviation, if j == 2 then 1 else 0);
      }
      DecodesTo(t, 3);
    }
  }

  /** Looking up a layer token (the C code passes the text from the cover
      group to the end of the token) finds the entry of its cover code,
      whose base is printed. */
  lemma CoverLookup(t: string)
    requires IsLayerToken(t)
    ensures DecodeCloudAbbreviation(t).Some?
    ensures DecodeCloudAbbreviation(t).value.abbreviation == t[..CoverLength(t)]
    ensures DecodeCloudAbbreviation(t).value.printAltitude == PRINT_BASE
  {
    var n := CoverLength(t);
    var c := t[..n];
    assert t[..3][..n] == c;
    assert t[n..n + 3][0] == t[n];
    Abbreviations();
    var k := if c == "VV" then 8 else if c == "FEW" then 4 else if c == "SCT" then 5
             else if c == "BKN" then 6 else 7;
    assert t[0] == c[0] && t[1] == c[1];
    forall j | 0 <= j < k
      ensures !KeyMatches(t, CloudDict[j].abbreviation)
    {
      NoMatchAt(t, CloudDict[j].abbreviation, if k == 5 && j == 0 then 1 else 0);
    }
    if c != "VV" {
      assert t[..3] == c;
    }
    DecodesTo(t, k);
  }

  /** The lookups of the six modifier codes, one at a time. */
  lemma TcuEntry()
    ensures DecodeCloudAbbreviation("TCU") == Some(CloudDict[9])
  {
    var m := "TCU";
    Abbreviations();
    forall j | 0 <= j < 9
      ensures !KeyMatches(m, CloudDict[j].abbreviation)
    {
      NoMatchAt(m, CloudDict[j].abbreviation, 0);
    }
    DecodesTo(m, 9);
  }

  lemma CuEntry()
    ensures DecodeCloudAbbreviation("CU") == Some(CloudDict[10])
  {
    var m := "CU";
    Abbreviations();
    forall j | 0 <= j < 10
      ensures !KeyMatches(m, CloudDict[j].abbreviation)
    {
      NoMatchAt(m, CloudDict[j].abbreviation, if j == 1 then 1 else 0);
    }
    DecodesTo(m, 10);
  }

  lemma CbEntry(m: string)
    requires m == "CB" || m == "CBMAM"
    ensures DecodeCloudAbbreviation(m) == Some(CloudDict[11])
  {
    Abbreviations();
    forall j | 0 <= j < 11
      ensures !KeyMatches(m, CloudDict[j].abbreviation)
    {
      NoMatchAt(m, CloudDict[j].abbreviation, if j == 1 || j == 10 then 1 else 0);
    }
    DecodesTo(m, 11);
  }

  lemma AccEntry()
    ensures DecodeCloudAbbreviation("ACC") == Some(CloudDict[13])
  {
    var m := "ACC";
    Abbreviations();
    forall j | 0 <= j < 13
      ensures !KeyMatches(m, CloudDict[j].abbreviation)
    {
      NoMatchAt(m, CloudDict[j].abbreviation, 0);
    }
    DecodesTo(m, 13);
  }

  lemma CldEntry()
    ensures DecodeCloudAbbreviation("CLD") == Some(CloudDict[14])
  {
    var m := "CLD";
    Abbreviations();
    forall j | 0 <= j < 14
      ensures !KeyMatches(m, CloudDict[j].abbreviation)
    {
      NoMatchAt(m, CloudDict[j].abbreviation, if j == 1 then 2 else if 10 <= j then 1 else 0);
    }
    DecodesTo(m, 14);
  }

  /** Each modifier code finds an entry with that code, except `CBMAM`:
      the shorter key `CB` comes first in the table and matches it. */
  lemma ModifierLookup(m: string)
    requires m in ModifierCodes
    ensures DecodeCloudAbbreviation(m).Some?
    ensures DecodeCloudAbbreviation(m).value.abbreviation == if m == "CBMAM" then "CB" else m
  {
    Abbreviations();
    if m == "TCU" {
      TcuEntry();
    } else if m == "CU" {
      CuEntry();
    } else if m == "CB" || m == "CBMAM" {
      CbEntry(m);
    } else if m == "ACC" {
      AccEntry();
    } else {
      CldEntry();
    }
  }

  lemma CumulonimbusMammatusReadsAsCumulonimbus()
    ensures DecodeCloudAbbreviation("CBMAM").Some?
    ensures DecodeCloudAbbreviation("CBMAM").value.description == ", Cumulonimbus clouds in vicinity"
  {
    CbEntry("CBMAM");
  }

  /** The `cloud_t` built for a cloud token. */
  function CloudOf(t: string): (c: CloudLayer)
    requires IsCloudToken(t)
  {
    if t in NoCloudCodes then
      NoCloudLookup(t);
      var e := DecodeCloudAbbreviation(t).value;
      CloudLayer(e.description, -1, e.printAltitude, "")
    else
      CoverLookup(t);
      var e := DecodeCloudAbbreviation(t).value;
      var modifier := LayerModifier(t);
      var modifierText :=
        if |modifier| > 0 then
          ModifierLookup(modifier);
          DecodeCloudAbbreviation(modifier).value.description
        else "";
      CloudLayer(e.description, DecimalValue(LayerBase(t)), e.printAltitude, modifierText)
  }

  /** A no-cloud token records its description, no layer base (-1), a base
      that is not printed and an empty modifier. */
  lemma NoCloudLayer(t: string)
    requires t in NoCloudCodes
    ensures DescribesCode(t, CloudOf(t).amount)
    ensures CloudOf(t).layerAltitude == -1
    ensures CloudOf(t).printAltitude == DONT_PRINT_BASE
    ensures CloudOf(t).layerModifier == ""
  {
    NoCloudLookup(t);
  }

  /** A layer token records the description of its cover code, its base in
      hundreds of feet (three digits, so below 1000), a printed base, and the
      description of its modifier or "" when it has none. */
  lemma CloudLayerOf(t: string)
    requires IsLayerToken(t)
    ensures DescribesCode(t[..CoverLength(t)], CloudOf(t).amount)
    ensures 0 <= CloudOf(t).layerAltitude < 1000
    ensures CloudOf(t).layerAltitude == DecimalValue(LayerBase(t))
    ensures CloudOf(t).printAltitude == PRINT_BASE
    ensures LayerModifier(t) == [] ==> CloudOf(t).layerModifier == ""
    ensures LayerModifier(t) != [] ==>
              DescribesCode(if LayerModifier(t) == "CBMAM" then "CB" else LayerModifier(t), CloudOf(t).layerModifier)
  {
    CoverLookup(t);
    assert t !in NoCloudCodes;
    DecimalValueBound(LayerBase(t));
    var modifier := LayerModifier(t);
    if |modifier| > 0 {
      ModifierLookup(modifier);
    }
  }
}
