# METAR decoder model

A Dafny model of the METAR report decoder in `src/metar.c`. The model covers:

- the record types and constants of `src/metar.h`;
- the two small computations of `src/main.c` that are not printing: `strupc` and the wind-compass and HHMM arithmetic.

The decoder turns one coded report line into a `metar_t`:

1. `parse_Metar` clears the record.
2. It overwrites every newline with a NUL.
3. It hands the space-separated tokens, left to right, to `analyse_token`.

`analyse_token` tries its recognizers in a fixed order:

- station, day/time, wind, visibility, temperature/dewpoint and pressure, each run only while the field it sets still holds 0;
- then a cloud layer;
- then `CAVOK`, a phenomenon group, and finally a leading `$` (maintenance needed).

Every recognizer that accepts returns, so a token sets at most one group. The one exception is a token that contains `CAVOK` and starts with `$`: it adds the CAVOK text and also raises the maintenance flag. A token containing `CAVOK` is never a phenomenon token.

## Modules

- `CStrings` holds C strings as `seq<char>` up to the first NUL. It also has decimal digit strings read as `sscanf("%d")` reads them, `strstr`, and `strtok` splitting at spaces as the pure function `Tokens`.
- `CBuffers` has `strlen` and `strrchr` as loops over a `char` array.
- `MetarH` holds the `metar_t` and `cloud_t` records as datatypes, the sentinel constants, the cleared record and the header's well-formedness promises.
- `CloudDictionary` and `PhenomenonDictionary` hold the two constant tables and their lookups.
- `CloudLayers` shows which table entry each cloud code finds and builds the `cloud_t` of a cloud token.
- `Recognizers` has one predicate per extended regular expression of `analyse_token`, plus the functions that read the captured groups.
- `PhenomenaPattern` is the `for` loop that builds the phenomenon expression into a buffer.
- `PhenomenonDescription` is the `strncat` loop that builds a phenomenon's text.
- `Analyse` describes `analyse_token` and `parse_Metar` as functions on `MetarRecord` values:
  - `ApplyToken` is one token;
  - `AnalyseTokens` is the left-to-right fold;
  - `ParseReport` is the whole report.
- `Decoder` is the decoder as it runs. The class `Metar` has the `metar_t` fields, and its methods update them in place. `ParseMetar` works on the report buffer, and `CleanDate` on a date buffer. `ParseMetar` and the token methods of `Metar` are proved to leave exactly the state the `Analyse` functions describe. `CleanDate` is proved against `CleanDateText`, the newline step against `FirstLine`, and `StrUpc` against `UpperText`.
- `AnalyseProperties`, `TokenClasses` and `AnalyseExamples` state what the decoder promises about whole reports, which recognizers can claim a token, and the documented example tokens.
- `Display` covers `strupc` on a `char` array and the `decode_Metar` arithmetic. C's truncating `/` and `%` are written out because Dafny's are Euclidean.

Inputs the decoder reads from outside (the report text, buffer contents) are parameters.

## Model

| member | source | states |
|---|---|---|
| Decoder.ParseMetar | src/metar.c:627-647 | The record left behind is the cleared record with every token of the report's first line analysed in order: the newlines are gone and the tokens are fed left to right. The report's C string is cut at its first newline, and only newlines in the buffer changed, each to a NUL. |
| Decoder.StripNewlines | src/metar.c:638-639 | The buffer's C string becomes the text before its first newline. The only characters changed are newlines, and each becomes a NUL. |
| Decoder.CutAtNewline | src/metar.c:638-639 | Cutting a text at any of its newlines leaves its first line unchanged. This is why erasing newlines from the right ends at the first one. |
| Decoder.Metar.constructor | src/metar.h:71-90 | A new record equals the cleared `metar_t`. |
| Decoder.Metar.Clear | src/metar.c:631-635 | After `memset` and the flag reset, every field is the cleared value and `maintenance_needed` is MAINTENANCE_NOT_NEEDED. |
| Decoder.Metar.AddCloud | src/metar.c:113-131 | The layer becomes the last node of the cloud list. No other field changes. |
| Decoder.Metar.AddPhenomenon | src/metar.c:157-175 | The text becomes the last node of the phenomenon list. No other field changes. |
| Decoder.Metar.AnalyseToken | src/metar.c:238-620 | The in-place update of the fields is exactly `ApplyToken` of the old record, so every property proved of `ApplyToken` holds for the class. |
| Decoder.Metar.SetWind | src/metar.c:302-354 | Sets direction, speed, gust and unit "KT" from the wind token. No other field changes. |
| Decoder.Metar.SetVisibility | src/metar.c:374-404 | Sets the digit value and the unit "SM" or "M", each copied over the old unit without a terminator. No other field changes. |
| Decoder.Metar.SetPressure | src/metar.c:447-481 | Sets unit, decimal places and the undivided digits as the pressure step describes. |
| Decoder.Metar.AnalyseRemainder | src/metar.c:558-619 | Performs the CAVOK, phenomenon and `$` steps that follow the cloud recognizer. |
| Decoder.CleanDateText | src/metar.c:652-660 | The date with every 'T' read as a space: same length, and each character is a space where the date has 'T' and unchanged elsewhere. |
| Decoder.CleanDate | src/metar.c:652-660 | Every 'T' before the NUL becomes a space. Every other character, and everything after the NUL, is unchanged. |
| Decoder.CleanDateRemovesT | src/metar.c:652-660 | No 'T' is left in the cleaned date. |
| Decoder.CleanDateIdempotent | src/metar.c:652-660 | Cleaning a cleaned date changes nothing. |
| Decoder.CleanDateSeparatesDateAndTime | src/metar.c:649-651 | A `dateTtime` stamp whose parts contain no 'T' becomes `date time`. |
| Decoder.CleanDateKeepsCString | src/metar.c:653-655 | The cleaned buffer holds a C string of the same length: no NUL is introduced. |
| CBuffers.StrLen | src/metar.c:653 | Returns the number of characters before the first NUL. |
| CBuffers.StrRChr | src/metar.c:638 | Returns None exactly when the character is not in the C string. Otherwise it returns the position of its last occurrence. |
| CStrings.Tokens | src/metar.c:641-645 | The tokens are non-empty, contain no space, and together hold every non-space character of the text in order. The four lemmas below fix the split on every text. |
| CStrings.TokensOfEmpty | src/metar.c:641-645 | The empty text has no tokens. |
| CStrings.TokensSkipSpace | src/metar.c:641-645 | A leading space is skipped: it starts no token and adds none. |
| CStrings.TokensOfWord | src/metar.c:641-645 | A word with no space is one token, itself. |
| CStrings.TokensOfWordThen | src/metar.c:641-645 | A word followed by a space and more text is the first token, and the rest are the tokens of that text. |
| CStrings.TokensOfJoinSpaced | src/metar.c:641-645 | Splitting words joined by single spaces gives back exactly those words. |
| CStrings.DecimalValue | src/metar.c:280-285 | `sscanf("%d")` of a digit string: the digits read as a base-10 number. Its properties are the lemmas below. |
| CStrings.HasSubstring | src/metar.c:563 | `strstr(token, w) != NULL`: some position of the text starts a copy of `w`. |
| CStrings.DecimalValueBound | src/metar.c:280-285 | A string of n digits reads as a number below 10^n. |
| CStrings.DecimalValueZero | src/metar.c:249-476 | A digit string reads as 0 exactly when all its digits are '0'. These are the tokens that leave a zero-gated field open. |
| CStrings.DecimalValueOfNumeral | src/metar.c:280-285 | Reading the zero-padded decimal numeral of n gives back n. |
| MetarH.Cleared | src/metar.c:631-635 | The record after the `memset` to zero and the flag reset to MAINTENANCE_NOT_NEEDED: empty texts and lists, all numbers 0. |
| MetarH.ClearedWellFormed | src/metar.h:41-90 | The cleared record meets every promise of the header. |
| CloudDictionary.DecodeCloudAbbreviation | src/metar.c:134-153 | Returns an entry exactly when some key matches over min(key length, text length, 5) characters. The entry returned is the first such in table order. |
| CloudDictionary.KeyMatches | src/metar.c:137-149 | One loop comparison: the pattern and the key agree over the shorter of the key and at most five characters of the pattern. |
| CloudDictionary.AbbreviationsDistinct | src/metar.c:39-55 | No abbreviation appears twice in `cloud_dict`. |
| CloudDictionary.PrintAltitudesDefined | src/metar.c:39-55 | Every entry's print flag is PRINT_BASE, DONT_PRINT_BASE or NOT_APPLICABLE. |
| CloudLayers.NoCloudLookup | src/metar.c:495-507 | SKC, CLR, NSC and NCD each find their own entry, whose base is not printed. |
| CloudLayers.CoverLookup | src/metar.c:508-517 | For a layer token, the lookup of the text from its cover code on finds the cover code's own entry, whose base is printed. |
| CloudLayers.ModifierLookup | src/metar.c:525-533 | Each modifier finds its own entry, except CBMAM, which finds CB. |
| CloudLayers.CumulonimbusMammatusReadsAsCumulonimbus | src/metar.c:134-153 | CBMAM is described as ", Cumulonimbus clouds in vicinity" because the shorter key CB comes first. |
| CloudLayers.CloudOf | src/metar.c:485-552 | The `cloud_t` that one cloud token adds. `NoCloudLayer` and `CloudLayerOf` state its fields. |
| CloudLayers.NoCloudLayer | src/metar.c:485-544 | A no-cloud token records its description, base -1, DONT_PRINT_BASE and an empty modifier. |
| CloudLayers.CloudLayerOf | src/metar.c:485-544 | A layer token records the description of its cover code, its three-digit base below 1000 and PRINT_BASE. Its modifier is that code's description, or "" when there is none. |
| Recognizers.IsStationToken | src/metar.c:250-254 | `^([A-Z]+)$`: a non-empty token of capital letters. |
| Recognizers.IsDayTimeToken | src/metar.c:272-276 | `^([0-9]{2})([0-9]{4})Z$`: six digits and a `Z`. |
| Recognizers.TokenDay | src/metar.c:277-280 | The day is the first two digits read as a number. |
| Recognizers.TokenTime | src/metar.c:282-285 | The time is the next four digits read as a number. |
| Recognizers.GustGroup | src/metar.c:327-331 | The `(G[0-9]+)?` group of a wind token, empty when absent. |
| Recognizers.IsWindToken | src/metar.c:303-308 | The wind expression: `VRB` or three digits, two digits, an optional gust group, then `KT`. |
| Recognizers.WindDirection | src/metar.c:309-317 | The direction is the sentinel -1 for `VRB`, otherwise the three digits read as a number. |
| Recognizers.WindSpeed | src/metar.c:321-325 | The speed is the two digits after the direction. |
| Recognizers.WindGust | src/metar.c:327-334 | The gust is the digits after `G`, or the speed when there is no gust group. |
| Recognizers.IsVisibilityToken | src/metar.c:375-379 | `^([0-9]+)(SM)?$`: one or more digits, optionally followed by `SM`. |
| Recognizers.VisibilityDigits | src/metar.c:380-383 | The digit group of a visibility token, without `SM`. |
| Recognizers.HasStatuteMiles | src/metar.c:385-391 | The `(SM)` group took part in the match: the visibility token is not all digits. |
| Recognizers.IsTempDewToken | src/metar.c:408-412 | `^(M?)([0-9]+)/(M?)([0-9]+)$`: two signed digit groups around a `/`. |
| Recognizers.SignedValue | src/metar.c:413-431 | A group with a leading `M` is the negated value of its digits. |
| Recognizers.TokenTemp | src/metar.c:413-421 | The temperature is the signed group before the `/`. |
| Recognizers.TokenDewp | src/metar.c:423-431 | The dewpoint is the signed group after the `/`. |
| Recognizers.IsPressureToken | src/metar.c:448-452 | `^([QA])([0-9]+)$`: `Q` or `A`, then digits. |
| Recognizers.TokenQnh | src/metar.c:465-468 | The qnh is the digits after the letter. |
| Recognizers.CoverLength | src/metar.c:485 | The length of the cover group: 2 for `VV`, 3 for the other covers. |
| Recognizers.IsLayerToken | src/metar.c:485 | The second alternative of the cloud expression. `LayerTokenGrammar` states it as a grammar. |
| Recognizers.LayerBase | src/metar.c:521-524 | The three base digits of a layer token. |
| Recognizers.LayerModifier | src/metar.c:527-529 | The modifier group of a layer token, empty when it did not take part in the match. |
| Recognizers.IsCloudToken | src/metar.c:485-490 | A no-cloud code (SKC, CLR, NSC, NCD) or a layer token. |
| Recognizers.IntensityLength | src/metar.c:578-581 | The length of the `([+-]?)` group: 1 for a leading sign, otherwise 0. |
| Recognizers.CodeGroup | src/metar.c:586-588 | The code group of a phenomenon token: everything after the sign. |
| Recognizers.IsPhenomenonToken | src/metar.c:567-572 | The phenomenon expression: an optional sign and one or more table codes. |
| Recognizers.LayerTokenGrammar | src/metar.c:485 | The cloud-layer recognizer accepts exactly one of FEW, SCT, BKN, OVC or VV, then three digits, then optionally one of TCU, CU, CB, CBMAM, ACC or CLD. |
| PhenomenonDictionary.DecodePhenomena | src/metar.c:220-229 | Returns a description exactly when some table code equals the first two characters. The description belongs to that code. |
| PhenomenonDictionary.Key | src/metar.c:225 | The at most two characters `strncmp(pattern, code, 2)` compares. |
| PhenomenonDictionary.CodeDecodes | src/metar.c:220-229 | A two-letter text decodes exactly when it is a table code. |
| PhenomenonDictionary.DecodeTableCode | src/metar.c:73-105 | Every table code decodes to its own description. |
| PhenomenonDictionary.TableShape | src/metar.c:73-105 | The table has 31 entries. Every code has two characters, and every description ends in a space. |
| PhenomenonDictionary.CodesDistinct | src/metar.c:73-105 | No code appears twice, so the scan order of `decode_phenomena` does not matter. |
| PhenomenonDictionary.CodesUpper | src/metar.c:73-105 | Every code is two capital letters. |
| PhenomenonDictionary.DescriptionShape | src/metar.c:220-229 | A decoded description ends in a space. |
| PhenomenaPattern.BuildPhenomenaRegexPattern | src/metar.c:180-216 | Gives None (the C function exits) exactly when the buffer has no room for head, tail and NUL. Otherwise it gives the loop's text. With room for every code, the text is the head `^([+-]?)((`, every table code with a bar between each two, and the tail `)+)$`. |
| PhenomenaPattern.MaxCharsAdded | src/metar.c:188 | The room left for codes once head, tail and NUL are reserved. |
| PhenomenaPattern.BuildStep | src/metar.c:199-208 | One loop iteration: the code is copied when it fits in that room, then a bar when the buffer is not full. |
| PhenomenaPattern.BuiltOver | src/metar.c:195-208 | The buffer after the head and the loop over the given codes. It always holds at least the head. |
| PhenomenaPattern.PatternFor | src/metar.c:195-215 | The text the loop leaves in the buffer: the head, the codes that fit with a bar after each, the last bar dropped, and the tail. `FullPattern` states it when every code fits. |
| PhenomenaPattern.FullPattern | src/metar.c:180-216 | With a buffer of at least 118 characters, as the decoder's 275-character buffer is, the pattern holds every table code in table order. |
| PhenomenonDescription.IntensityPrefix | src/metar.c:578-583 | "Light " for a leading `-`, "Heavy " for `+`, otherwise empty. It is non-empty exactly when the sign group took part in the match. |
| PhenomenonDescription.StrNCat | src/metar.c:595 | Appending never grows the text past PHENOMENON_STR_SIZE. The result is the concatenation cut to that size. |
| PhenomenonDescription.Appended | src/metar.c:590-597 | The buffer after each description has been appended with `strncat`, never longer than the 99-character cap. |
| PhenomenonDescription.AppendedIsTruncation | src/metar.c:589-600 | Appending the descriptions one at a time gives the concatenation of all of them, cut to the buffer size. |
| PhenomenonDescription.DescribePhenomenon | src/metar.c:576-601 | The `strncat` loop over the two-letter groups computes the phenomenon text of the token. |
| PhenomenonDescription.PhenomenonText | src/metar.c:576-601 | The text a phenomenon token adds. `PhenomenonTextMeaning` states what it consists of. |
| PhenomenonDescription.PhenomenonTextMeaning | src/metar.c:576-601 | The text is the intensity word plus every group's description with the final space removed, or when that is too long the first 98 characters of it. |
| PhenomenonDescription.LightTwoCodes | src/metar.c:576-601 | `-` followed by two codes gives "Light " plus both descriptions, less the last space. |
| PhenomenonDescription.LightShowersRain | src/metar.c:576-601 | `-SHRA` becomes "Light Showers Rain". |
| Analyse.CopyInto | src/metar.c:385-391 | Copying a word without a terminator over a C string gives the word followed by whatever of the old string it did not cover. |
| Analyse.PressureStep | src/metar.c:447-481 | The pressure update: the unit from the first letter, two decimal places for `A`, the digits as qnh. |
| Analyse.LateStep | src/metar.c:558-619 | The steps after the cloud recognizer: the CAVOK text, then a phenomenon text or the maintenance flag. |
| Analyse.ApplyToken | src/metar.c:238-620 | `analyse_token` on a record value: the first recognizer in the decoder's order whose guard holds and which accepts the token decides the update. The lemmas of `AnalyseProperties` and `TokenClasses` state its properties. |
| Analyse.AnalyseTokens | src/metar.c:641-645 | The tokens analysed left to right. |
| Analyse.ParseReport | src/metar.c:627-647 | `parse_Metar` on a value: the cleared record with every token of the report's first line analysed. |
| AnalyseProperties.ApplyTokenExtends | src/metar.c:249-617 | A token never overwrites a guarded field that is already nonzero. Lists only grow at the end, and a raised maintenance flag stays raised. |
| AnalyseProperties.AnalyseTokensExtends | src/metar.c:641-645 | The same holds for any sequence of tokens. |
| AnalyseProperties.FoldFront | src/metar.c:641-645 | Analysing a token sequence is analysing its first token and then the rest. |
| AnalyseProperties.FoldAppend | src/metar.c:641-645 | Analysing two sequences after each other is analysing their concatenation. |
| AnalyseProperties.UnmatchedTokenChangesNothing | src/metar.c:249-619 | A token that no recognizer claims leaves the record unchanged. The station and gated recognizers count only while their field is still open. |
| AnalyseProperties.RepeatedGatedTokenChangesNothing | src/metar.c:271-481 | A day/time, wind, visibility, temperature or pressure token whose field is already set is unmatched and leaves the record as it was. |
| AnalyseProperties.StationIsFirstCapitalsToken | src/metar.c:249-268 | The station is the first 10 characters of the first all-capitals token, or empty when there is none. |
| AnalyseProperties.CloudsInTokenOrder | src/metar.c:485-552 | Once the station is set, the cloud list holds one layer per cloud token, in token order. |
| AnalyseProperties.PhenomenaInTokenOrder | src/metar.c:558-609 | Once the station is set, the phenomenon list holds, in token order, the CAVOK text and the phenomenon text of each token. |
| AnalyseProperties.CloudsWithoutStation | src/metar.c:249-552 | Starting without a station, the cloud list is one layer per cloud token of every token except the one taken as the station, in token order. |
| AnalyseProperties.PhenomenaWithoutStation | src/metar.c:249-609 | Starting without a station, the phenomenon list is the CAVOK and phenomenon texts of every token except the one taken as the station, in token order. |
| AnalyseProperties.ReportLists | src/metar.c:627-645 | For every report, the cloud and phenomenon lists are those of the tokens of its first line, less the first all-capitals token, which the station takes. |
| AnalyseProperties.ReportListsAfterStation | src/metar.c:627-645 | When a report's first token is the station, the station is that token cut to 10 characters, and the cloud and phenomenon lists are those of the remaining tokens in token order. |
| AnalyseProperties.MaintenanceStep | src/metar.c:614-617 | One token raises the maintenance flag exactly when it starts with `$`. Otherwise the flag is unchanged. |
| AnalyseProperties.MaintenanceFlag | src/metar.c:614-617 | After a token sequence the flag is raised exactly when some token starts with `$`. |
| AnalyseProperties.ReportMaintenance | src/metar.c:627-645 | A decoded report needs maintenance exactly when one of its tokens starts with `$`. |
| AnalyseProperties.CloudPrintAltitude | src/metar.h:41-45 | A cloud layer's print flag is one of the three defined values. |
| AnalyseProperties.ApplyTokenWellFormed | src/metar.h:71-90 | One token keeps the record well formed, and keeps every unit one of the texts the decoder writes. |
| AnalyseProperties.AnalyseTokensWellFormed | src/metar.h:71-90 | A token sequence keeps the record well formed. |
| AnalyseProperties.ReportWellFormed | src/metar.h:71-90 | Every decoded report has the following properties. `winddir` is -1 or a degree value, and the maintenance flag is 0 or 1. `qnhfp` is 0 or 2, and every print flag is defined. The station has at most 10 characters and every unit at most 5. |
| AnalyseProperties.VisibilityUnitStep | src/metar.c:385-392 | Copying "SM" or "M" without a NUL over a visibility unit gives only "", "M", "SM" or "MM". |
| TokenClasses.GatedTokenHasDigit | src/metar.c:271-481 | Every token a gated recognizer accepts contains a digit. |
| TokenClasses.PhenomenonTokenIsNotEarlier | src/metar.c:572-609 | A phenomenon token is taken by no recognizer other than the station recognizer: no gated recognizer accepts it and it is not a cloud token. So once the station is set it reaches the phenomenon pattern. |
| TokenClasses.CloudTokenIsNotGated | src/metar.c:485-552 | A cloud token is taken by no gated recognizer, and a layer token is not a station. |
| TokenClasses.CavokTokenIsNotEarlier | src/metar.c:563-565 | A token containing CAVOK is taken by no recognizer other than the station recognizer that runs before the CAVOK test. |
| TokenClasses.CavokTokenIsNotPhenomenon | src/metar.c:563-572 | A token containing CAVOK is not a phenomenon token: no table code starts with 'A' or 'C', so "CA" never spans a code group. |
| TokenClasses.DollarTokenIsUnclaimed | src/metar.c:614-617 | A token starting with `$` is taken by no other recognizer. |
| TokenClasses.LayerTokenLacksOOrK | src/metar.c:485 | No layer token contains both 'O' and 'K'. This is part of the proof that a layer token never contains "CAVOK". |
| AnalyseExamples.GustingWind | src/metar.c:302-340 | `24015G25KT` gives direction 240, speed 15, gust 25 and unit "KT". |
| AnalyseExamples.VariableWind | src/metar.c:302-340 | `VRB03KT` gives direction -1 with the gust equal to the speed, 3. |
| AnalyseExamples.FreezingTempDew | src/metar.c:407-444 | `M05/M10` gives temperature -5 and dewpoint -10. |
| AnalyseExamples.MixedSignTempDew | src/metar.c:407-444 | `05/M10` gives temperature 5 and dewpoint -10: each `M` negates only its own value. |
| AnalyseExamples.PressureHectopascals | src/metar.c:447-476 | `Q1013` gives qnh 1013 in "hPa", and the decimal places keep their old value. |
| AnalyseExamples.PressureInches | src/metar.c:447-476 | `A2992` gives the undivided qnh 2992 in `"Hg` with two implied decimal places. |
| AnalyseExamples.VisibilityMiles | src/metar.c:374-399 | `10SM` gives visibility 10 in "SM". |
| AnalyseExamples.FourDigitVisibility | src/metar.c:374-399 | A four-digit token is a visibility in metres with its digit value. |
| AnalyseExamples.VisibilityMetres | src/metar.c:374-399 | `9999` gives visibility 9999 in "M". |
| AnalyseExamples.CalmWindLeavesGuardOpen | src/metar.c:302-349 | `00000KT` stores direction 0, so a later wind token still sets the wind. |
| AnalyseExamples.MixedVisibilityUnit | src/metar.c:385-392 | `0SM` followed by `1000` gives visibility 1000 with the unit "MM": the one-character `M` copy keeps the old second letter. |
| AnalyseExamples.ZeroAltimeterKeepsDecimals | src/metar.c:447-476 | `A0000` followed by `Q1013` gives 1013 "hPa" with two decimal places kept from the first token. |
| Display.CDiv | src/main.c:130 | C's `/` on `int`, truncated toward zero. `CDivMod` states its identity and signs. |
| Display.CMod | src/main.c:130 | C's `%` on `int`, with the sign of the dividend. |
| Display.Hours | src/main.c:130 | The hours printed: `time / 100` in C's division. `HoursMinutes` states what it means. |
| Display.Minutes | src/main.c:130 | The minutes printed: `time % 100` in C's remainder. |
| Display.CDivMod | src/main.c:130 | C's truncating division and remainder recombine to the dividend, and the remainder takes the dividend's sign. |
| Display.HoursMinutes | src/main.c:130 | Hours times 100 plus minutes is the time. For a time that is not negative, the minutes lie in 0..99. |
| Display.DecodedTimeFits | src/main.c:130 | For any time a day/time token sets, hours and minutes each lie in 0..99. |
| Display.WindDirectionText | src/main.c:131-139 | "Variable" for the sentinel -1, otherwise the compass point at the index `((winddir * 4 + 45) / 90) % 16`. |
| Display.VariableExactlyForSentinel | src/main.c:131-132 | "Variable" is shown exactly when `winddir` is -1. |
| Display.Sector | src/main.c:138 | `(winddir * 4 + 45) / 90`, the compass sector before reduction to one turn. `SectorIsNearest` states what it means. |
| Display.CompassIndex | src/main.c:138 | The sector reduced modulo 16, the index into the compass names. |
| Display.CompassIndexRange | src/main.c:138-139 | For `winddir` of 0 or more, the compass index lies in 0..15. |
| Display.SectorIsNearest | src/main.c:138 | The sector is the unique multiple of 22.5 degrees nearest the direction, with half-way cases rounded up. |
| Display.NearestPointName | src/main.c:134-139 | A direction is shown with the name of its nearest compass point. |
| Display.CardinalPoints | src/main.c:134-139 | 0, 90, 180 and 270 are shown as N, E, S and W. |
| Display.NorthBoundary | src/main.c:134-139 | 360 and 349 are shown as N, and 348 as NNW. |
| Display.StrUpc | src/main.c:38-42 | Every character before the NUL is replaced by its upper-case form in place, and the same array is returned. The length and everything after the NUL are unchanged. |
| Display.ToUpper | src/main.c:40 | `toupper` in the C locale: 'a' to 'z' become 'A' to 'Z', everything else is kept. |
| Display.UpperText | src/main.c:38-42 | The upper-cased text has the same length and maps each character with `toupper`. |
| Display.UpperTextIdempotent | src/main.c:38-42 | Upper-casing twice is upper-casing once. |
| Display.UpperKeepsCString | src/main.c:38-42 | The upper-cased buffer holds a C string of the same length. |
| Display.UpperLettersAreStation | src/main.c:38-42 | An upper-cased non-empty word of ASCII letters is accepted by the station recognizer. |

## Left out

- The NOAA XML envelope (`parse_NOAA_data` and `getnodeset`) are libxml2 calls.
- The curl download (`download_Metar`, `cpReceivedData`, `getenv` and the global buffer) is network I/O.
- Option parsing with `getopt` and all `printf` output are left out. Only the values `decode_Metar` computes for printing are modelled.
- `meters_to_feet` and the `qnh / 10.0` rendering loop are floating point.
- The POSIX regular-expression engine is replaced by one hand-written recognizer per constant expression. A compile failure of those expressions (and its `exit`) is treated as impossible. The phenomenon expression's text is modelled but not compiled.
- `verbose` logging is output only.
- `malloc`, `free` and the leaks they cause are left out. Strings and list nodes are values.
- The `malloc(strlen(""))` buffer followed by a one-byte write, for a layer without a modifier, is modelled as the empty string, since the C code writes past the buffer.
- A station of 10 or more letters is stored in 10 bytes with no NUL. The model records the first 10 characters as the station.
- `strtok`'s static state, and the NULs it writes into the report, are left out. Tokenising is the pure split `Tokens` of the report's first line.
- `Decoder.ParseMetar` states the report buffer as the newline step leaves it. In C, `strtok` then also overwrites with a NUL the space that ends each token, and the model does not write those NULs.
- `sscanf("%d")` reads digit strings as unbounded naturals: the overflow of `int` on very long digit groups is not modelled.
- `PhenomenaPattern.BuildPhenomenaRegexPattern`: the exit on a too-small `len` is the result None. The pattern is built as a string value rather than in a `char` buffer, so a `len` below the text's length does not model writing past the buffer.
- The linked lists `cloud_list_t` and `phenomena_list_t` are sequences in node order. The walk to the tail in `add_cloud`/`add_phenomenon` is the append, and pointer aliasing between nodes is not modelled.
- A phenomenon code group longer than 99 characters (`TMP_SIZE`) is cut when the C code copies it to `tmp`. The model reads the whole group.
- `PhenomenonDescription.StrNCat` caps the text at 99 characters. It does not model the NUL that `strncat` then writes one byte past the 99-byte buffer.
- `Display.ToUpper` is the C-locale `toupper`: only 'a' to 'z' change.
- The phenomenon table in the code has 31 entries, and the model follows the code.
