/** The cloud abbreviation table `cloud_dict` of `src/metar.c` and its
    length-bounded, order-sensitive prefix lookup
    `decode_cloud_abbreviation`. */
module CloudDictionary {
  import opened CStrings
  import opened MetarH

  /** One `cloud_dict_entry`. */
  datatype CloudEntry = CloudEntry(abbreviation: string, description: string, printAltitude: int)

  /** `LONGEST_CLOUD_DICT_KEY`: no more than this many characters of the
      looked-up text are compared. */
  const LONGEST_KEY: nat := 5

  const CloudDict: seq<CloudEntry> := [
    CloudEntry("SKC", "Sky Clear (no clouds within sensors range)", DONT_PRINT_BASE),
    CloudEntry("CLR", "Sky Clear Below 12000ft", DONT_PRINT_BASE),
    CloudEntry("NSC", "No Significant Clouds below 5000ft/1500m AGL", DONT_PRINT_BASE),
    CloudEntry("NCD", "No Clouds Detected below 5000ft/1500m AGL", DONT_PRINT_BASE),
    CloudEntry("FEW", "Few clouds", PRINT_BASE),
    CloudEntry("SCT", "Scattered clouds", PRINT_BASE),
    CloudEntry("BKN", "Broken clouds", PRINT_BASE),
    CloudEntry("OVC", "Overcast", PRINT_BASE),
    CloudEntry("VV", "Vertical Visibility", PRINT_BASE),
    CloudEntry("TCU", ", Towering Cumulus clouds in vicinity", NOT_APPLICABLE),
    CloudEntry("CU", ", Cumulus clouds in vicinity", NOT_APPLICABLE),
    CloudEntry("CB", ", Cumulonimbus clouds in vicinity", NOT_APPLICABLE),
    CloudEntry("CBMAM", ", Cumulonimbus Mammatus in vicinity (expect turbulent air)", NOT_APPLICABLE),
    CloudEntry("ACC", ", Altocumulus Castellatus (medium layer_altitude, vigorous instability)", NOT_APPLICABLE),
    CloudEntry("CLD", ", Standing lenticular or rotor clouds", NOT_APPLICABLE)
  ]

  /** The comparison of one loop iteration: `strncmp(pattern, key, n) == 0`
      where `n` is the shorter of the key and of the first
      `LONGEST_KEY` characters of the pattern. */
  predicate KeyMatches(pattern: string, key: string)
  {
    var n := Min(|key|, Min(|pattern|, LONGEST_KEY));
    pattern[..n] == key[..n]
  }

  /** `decode_cloud_abbreviation`: the first table entry whose key matches,
      or `None` for the NULL the C function returns. */
  function DecodeCloudAbbreviation(pattern: string): (r: Option<CloudEntry>)
    ensures r.Some? <==> exists i :: 0 <= i < |CloudDict| && KeyMatches(pattern, CloudDict[i].abbreviation)
    ensures r.Some? ==> exists i :: 0 <= i < |CloudDict| && r.value == CloudDict[i]
                                    && KeyMatches(pattern, CloudDict[i].abbreviation)
                                    && forall j :: 0 <= j < i ==> !KeyMatches(pattern, CloudDict[j].abbreviation)
  {
    ScanFinds(CloudDict, pattern, 0);
    ScanFrom(CloudDict, pattern, 0)
  }

  /** The lookup loop over the entries of `dict` from `i` on. */
  function ScanFrom(dict: seq<CloudEntry>, pattern: string, i: nat): Option<CloudEntry>
    requires i <= |dict|
    decreases |dict| - i
  {
    if i == |dict| then None
    else if KeyMatches(pattern, dict[i].abbreviation) then Some(dict[i])
    else ScanFrom(dict, pattern, i + 1)
  }

  lemma {:induction false} ScanFinds(dict: seq<CloudEntry>, pattern: string, i: nat)
    requires i <= |dict|
    requires forall j :: 0 <= j < i ==> !KeyMatches(pattern, dict[j].abbreviation)
    ensures var r := ScanFrom(dict, pattern, i);
      && (r.Some? <==> exists k :: i <= k < |dict| && KeyMatches(pattern, dict[k].abbreviation))
      && (r.Some? ==> exists k :: i <= k < |dict| && r.value == dict[k]
                                  && KeyMatches(pattern, dict[k].abbreviation)
                                  && forall j :: 0 <= j < k ==> !KeyMatches(pattern, dict[j].abbreviation))
    decreases |dict| - i
  {
    if i < |dict| && !KeyMatches(pattern, dict[i].abbreviation) {
      ScanFinds(dict, pattern, i + 1);
    }
  }

  /** Some table entry has abbreviation exactly `code` and this description. */
  predicate DescribesCode(code: string, description: string)
  {
    exists k :: 0 <= k < |CloudDict| && CloudDict[k].abbreviation == code && CloudDict[k].description == description
  }

  /** No abbreviation appears twice, so `DescribesCode` names one description. */
  lemma AbbreviationsDistinct()
    ensures forall i, j :: 0 <= i < j < |CloudDict| ==> CloudDict[i].abbreviation != CloudDict[j].abbreviation
  {
  }

  /** The lookup result is entry `k` when `k` matches and no earlier entry does. */
  lemma DecodesTo(pattern: string, k: nat)
    requires k < |CloudDict| && KeyMatches(pattern, CloudDict[k].abbreviation)
    requires forall j :: 0 <= j < k ==> !KeyMatches(pattern, CloudDict[j].abbreviation)
    ensures DecodeCloudAbbreviation(pattern) == Some(CloudDict[k])
  {
  }

  /** A key whose `i`-th character differs from the pattern's, within the
      compared length, does not match. */
  lemma NoMatchAt(pattern: string, key: string, i: nat)
    requires i < |pattern| && i < |key| && i < LONGEST_KEY && pattern[i] != key[i]
    ensures !KeyMatches(pattern, key)
  {
    var n := Min(|key|, Min(|pattern|, LONGEST_KEY));
    assert pattern[..n][i] == pattern[i];
    assert key[..n][i] == key[i];
  }

  lemma Abbreviations()
    ensures CloudDict[0].abbreviation == "SKC"
    ensures CloudDict[1].abbreviation == "CLR"
    ensures CloudDict[2].abbreviation == "NSC"
    ensures CloudDict[3].abbreviation == "NCD"
    ensures CloudDict[4].abbreviation == "FEW"
    ensures CloudDict[5].abbreviation == "SCT"
    ensures CloudDict[6].abbreviation == "BKN"
    ensures CloudDict[7].abbreviation == "OVC"
    ensures CloudDict[8].abbreviation == "VV"
    ensures CloudDict[9].abbreviation == "TCU"
    ensures CloudDict[10].abbreviation == "CU"
    ensures CloudDict[11].abbreviation == "CB"
    ensures CloudDict[12].abbreviation == "CBMAM"
    ensures CloudDict[13].abbreviation == "ACC"
    ensures CloudDict[14].abbreviation == "CLD"
  {
  }

  lemma PrintAltitudesDefined()
    ensures forall i :: 0 <= i < |CloudDict| ==> IsPrintAltitude(CloudDict[i].printAltitude)
  {
  }
}
