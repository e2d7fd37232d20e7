# Tidsresan core in Dafny

Tidsresan shows a place in Scandinavia as it may have looked in a past period.
Its core is a set of pure TypeScript functions. They build the image prompt
from a chosen period, a location classification and a Stone Age geology
analysis. This project models those functions and proves what they promise.

- **sgu_data.dfy** (`SguData`) covers:
  - the uplift region cascade and the regional uplift rates;
  - the three-phase post-glacial uplift curve and the six Baltic Sea phases;
  - the "was this place under the sea" status and the elevation fallback;
  - the land cover of `analyzeLocation`, including its northern substitutions.
- **city_detection.dfy** (`CityDetection`) covers:
  - the coast heuristic and the nearest-town search;
  - the urban / coastal / rural classification with its narrative;
  - the per-town era descriptions.
- **time_periods.dfy** (`TimePeriods`) covers:
  - the twelve-period catalog;
  - lookup by id, grouping by era, and the era names.
- **generate_route.dfy** (`GenerateRoute`) covers:
  - the pure parts of the generate handler: the default period, the SGU period map and the landscape selection;
  - the anachronism exclusion tiers and the clothing table;
  - `generateImagePrompt`.
- **historical_data.dfy** (`HistoricalData`) covers the older Stone-Age-only generator:
  - the region by latitude and the elevation guess;
  - the submerged-or-land narrative;
  - the landscape-painting prompt and the known-place boxes.
- **basics.dfy** (`Basics`) holds the JavaScript pieces the rest relies on:
  - `Math.round`, number-to-text conversion and `join`;
  - `includes`, the first-occurrence `replace`, and `toLowerCase`.

**How values are represented.**
- Numbers are `real`. `Math.round(x)` is `(x + 1/2).Floor`.
- Strings are sequences of characters.
- A missing value is `Option.None`.

**How the prompts are modelled.** A prompt is a list of sentence groups (`Segment`, `LegacyPart`).
- Each group carries the values its template interpolates.
- `Render` concatenates the groups' texts.
- Properties about which sentences occur are stated on the list.
- The opening and closing of the string are stated on the rendered text.

**Facts the proofs brought out.**
- In `generateHistoricalContext`, the "inland ice" narrative for northern land in the two oldest periods is dead code (`HistoricalData.IceMarginUnreachable`). With the table's uplift and the assumed elevation, every such place is under water in those periods (`HistoricalData.UnderwaterExactly`).
- The uplift rate of Denmark is stored as 0. It is therefore replaced by the 3.0 fallback (`SguData.EffectiveRate`).

**Two worked cases.**
- At 12000 BP, Höga kusten has an uplift of 417 m (204 + 170 + 42.5, rounded) (`SguData.HogaKustenExample`).
- At Stockholm's own coordinates in the year 800, the classification is rural. Stockholm is the nearest town; it is founded in 1252, and the point lies within 2 km of it, so the coast test is never reached (`CityDetection.StockholmInYear800`).

## Model

| member | source | states |
|---|---|---|
| Basics.Round | src/lib/historical-data.ts:130 | `Math.round` gives the integer within one half below and strictly less than one half above its argument |
| Basics.RoundMonotone | src/lib/sgu-data.ts:173 | rounding preserves order, so the rounded uplift keeps the curve's monotonicity |
| Basics.NatToStringRoundTrip | src/app/api/generate/route.ts:316 | the decimal text of a number written into a template reads back as the same number |
| Basics.IntToString | src/app/api/generate/route.ts:316 | the text of an integer starts with '-' exactly for negative numbers; the digits of a non-negative number, or those after the sign, read back as the number or its magnitude |
| Basics.FirstIndex | src/lib/time-periods.ts:316 | `find` returns the first satisfying index and every earlier index fails; absence means no index satisfies |
| Basics.ToLower | src/lib/historical-data.ts:137 | lower-casing keeps the length, leaves no capital, keeps every non-capital, and moves each capital 32 code points down to its small letter |
| Basics.ToLowerIdempotent | src/lib/historical-data.ts:187 | the lower-cased text has no capitals left, and lower-casing it again changes nothing |
| Basics.ReplaceFirstSkip | src/lib/sgu-data.ts:345-346 | `replace` passes a prefix unchanged when the prefix cannot start the pattern |
| Basics.ReplaceFirstAbsent | src/lib/sgu-data.ts:345-346 | `replace` leaves a text unchanged when it lacks the pattern's first character |
| Basics.ReplaceFirstHere | src/lib/sgu-data.ts:345-346 | `replace` substitutes an occurrence at the very start |
| Basics.ReplaceFirst | src/lib/sgu-data.ts:345-346 | `replace` leaves a text that does not contain the pattern unchanged |
| Basics.ReplaceFirstAt | src/lib/sgu-data.ts:345-346 | when the pattern first occurs at position i, `replace` substitutes exactly that occurrence and keeps the text before and after it |
| Basics.ContainsAt | src/lib/historical-data.ts:186 | `includes` holds exactly when the pattern starts at some position of the text |
| Basics.ContainsAfter | src/lib/historical-data.ts:186 | text put in front of a string keeps every occurrence in it |
| Basics.Join | src/app/api/generate/route.ts:367 | `join` of no items is empty, of one item is that item, and always starts with the first item |
| Basics.JoinContainsItems | src/app/api/generate/route.ts:367 | every item occurs in the joined text, so the exclusion sentence names every excluded item |
| Basics.ConcatAppend | src/app/api/generate/route.ts:308-393 | appending sentence by sentence gives the concatenation of the two halves |
| SguData.BoxCascade | src/lib/sgu-data.ts:109-139 | some box of the region cascade always matches, so the final fallback is never reached |
| SguData.UpliftRegion | src/lib/sgu-data.ts:109-142 | the region is always a key of the rate table; Höga kusten's box comes first; the latitude bands give Denmark, Skåne, the Götaland regions, the Svealand regions and the northern regions |
| SguData.EffectiveRate | src/lib/sgu-data.ts:148-150 | the rate used is the table value, except Denmark's 0, which becomes 3.0; every rate used is positive |
| SguData.SegmentedUplift | src/lib/sgu-data.ts:154-171 | the fast, medium and slow phases, with yearsBP capped after each, add up to the closed-form weighted-years curve |
| SguData.TotalUplift | src/lib/sgu-data.ts:148-174 | the uplift is the rounded closed-form curve at the region's effective rate |
| SguData.UpliftMonotone | src/lib/sgu-data.ts:148-174 | going further back in time never gives less uplift |
| SguData.UpliftNonNegative | src/lib/sgu-data.ts:148-174 | uplift is non-negative for every non-negative age |
| SguData.UpliftSaturates | src/lib/sgu-data.ts:156-159 | beyond 14000 BP the uplift no longer changes |
| SguData.HogaKustenExample | src/lib/sgu-data.ts:148-174 | Höga kusten at 12000 BP has an uplift of 417 m |
| SguData.FindPhase | src/lib/sgu-data.ts:180-184 | the scan returns the first phase whose half-open interval holds the age, and none when no phase does |
| SguData.GetSeaPhase | src/lib/sgu-data.ts:179-186 | the phase returned is one of the six Baltic phases |
| SguData.BalticPhasesContiguous | src/lib/sgu-data.ts:37-86 | the phases are non-empty, each ends where the next begins, and together they span 14000 to 0 BP |
| SguData.ContiguousDisjoint | src/lib/sgu-data.ts:37-86 | no age lies in two phases of a contiguous table |
| SguData.ContiguousCovers | src/lib/sgu-data.ts:180-184 | in a contiguous table the scan finds a phase for every age in the table's span |
| SguData.SeaPhaseInRange | src/lib/sgu-data.ts:179-186 | for 0 ≤ yearsBP < 14000 the phase returned is exactly the one whose interval holds the age |
| SguData.SeaPhaseOutOfRange | src/lib/sgu-data.ts:185 | outside the span the lookup falls back to the most recent phase |
| SguData.SeaPhaseIs | src/lib/sgu-data.ts:179-186 | any phase holding the age is the phase returned |
| SguData.SeaPhaseBoundaries | src/lib/sgu-data.ts:181 | a boundary year belongs to the older phase |
| SguData.SeaNarrative | src/lib/sgu-data.ts:213-229 | a submerged place's description opens with "Denna plats låg ", a dry one's with "Denna plats var land, " |
| SguData.SeaStatusAt | src/lib/sgu-data.ts:191-238 | the historical elevation is today's minus the uplift; the place was under water exactly when that lies below the phase's sea level; the depth is then positive; the description matches the case |
| SguData.SubmersionMonotone | src/lib/sgu-data.ts:208-211 | lower ground at the same place and time is under water whenever higher ground is, and at least as deep |
| SguData.SkaneLittorinaExample | src/lib/sgu-data.ts:191-238 | in Skåne at 7000 BP the uplift is 7 m, so 3 m today was under water, and 12 m today was exactly at the surface, which does not count as submerged |
| SguData.EstimateElevation | src/lib/sgu-data.ts:265-282 | the fallback elevation is the region's table entry, and it is positive |
| SguData.ResolveElevation | src/lib/sgu-data.ts:243-260 | a failed request gives the regional estimate; an answer without an elevation gives 0; otherwise the answered value |
| SguData.ResolveStonePeriod | src/lib/sgu-data.ts:296-300 | a known id gives its own period; an unknown one gives "Äldre Atlantikum" |
| SguData.TundraFaunaUnchanged | src/lib/sgu-data.ts:323-341 | the aurochs substitution finds nothing in the tundra fauna |
| SguData.TundraKept | src/lib/sgu-data.ts:322-347 | the northern substitutions leave the tundra cover unchanged |
| SguData.BirchForestKept | src/lib/sgu-data.ts:322-347 | they leave the birch-forest cover unchanged |
| SguData.EarlyFarmingKept | src/lib/sgu-data.ts:322-347 | they leave the early-farming cover unchanged |
| SguData.NorthernVariantKeepsOtherBrackets | src/lib/sgu-data.ts:322-347 | outside the (5000, 8000] BP bracket the northern substitutions change nothing |
| SguData.NorthernVariantDeciduous | src/lib/sgu-data.ts:328-341 | in the temperate forest, the northern variant replaces the temperate trees by boreal trees and the aurochs by reindeer |
| SguData.NorthernVariantEffect | src/lib/sgu-data.ts:322-347 | the northern adjustment changes exactly the (5000, 8000] BP bracket, and how it does so |
| SguData.SeabedCover | src/lib/sgu-data.ts:310-318 | the seabed is named after the phase, and the vegetation and fauna are the freshwater ones exactly for a freshwater phase |
| SguData.DryLandCover | src/lib/sgu-data.ts:319-347 | dry land gets the bracket's cover, altered only in the northern regions during (5000, 8000] BP |
| SguData.AnalyzeLocation | src/lib/sgu-data.ts:287-354 | the analysis resolves the period and region, computes the sea status at the period's age, and gives the seabed or dry-land cover according to submersion |
| CityDetection.IsNearCoast | src/lib/city-detection.ts:86-105 | south of 55.5° only the south-east Skåne box (13.5°–15° east) counts; north of 60.5° only the Norrland box (17°–24° east); the strip 12.5°–13.5° east is never coastal south of 58.5° |
| CityDetection.CoastExamples | src/lib/city-detection.ts:86-105 | Stockholm's coordinates are near the coast; points inland in Småland and Närke are not |
| CityDetection.ScanFrom | src/lib/city-detection.ts:119-125 | the loop keeps the first town of minimal distance, replacing it only by a strictly closer one |
| CityDetection.Nearest | src/lib/city-detection.ts:116-125 | there is no nearest town exactly for an empty catalog; otherwise it is the first of minimal distance |
| CityDetection.FirstMinimumUnique | src/lib/city-detection.ts:119-125 | there is only one first minimum |
| CityDetection.NearestIsFirstMinimum | src/lib/city-detection.ts:116-125 | whatever town is the first of minimal distance is the one found |
| CityDetection.BracketBetween | src/lib/city-detection.ts:160-179 | with increasing thresholds, a year is in bracket b exactly when it is at least the b-th threshold and below the next |
| CityDetection.Classify | src/lib/city-detection.ts:127-180 | urban exactly for an existing town under 5 km; coastal exactly when no town is within the applicable 5 or 2 km radius and the point is near the coast; a future town under 2 km makes the place rural; a town of the period gives the town sentence for its kind; a future town gives the wilderness sentence before 4000 BC and the later-town sentence after; the coastal and rural results carry the sentence of the year's bracket |
| CityDetection.ClassifyAlwaysNarrates | src/lib/city-detection.ts:138-180 | every branch produces a description, including the future-town branch |
| CityDetection.AnalyzeLocationTypeIn | src/lib/city-detection.ts:110-189 | the nearest town (the first of minimal distance), whether it existed, the type and the rounded distance, for any catalog and distance function |
| CityDetection.CoastBracketOf | src/lib/city-detection.ts:160-167 | the coastal sentence changes at 8000 BC, 4000 BC and 800 AD |
| CityDetection.RuralBracketOf | src/lib/city-detection.ts:171-179 | the rural sentence changes at 4000 BC, 1700 BC and 800 AD |
| CityDetection.DescriptionIsNarrative | src/lib/city-detection.ts:127-188 | the description returned is the sentence of the narrative the classification chose |
| CityDetection.UrbanDescription | src/lib/city-detection.ts:139-147 | in a town of the period the description names the town by its kind: oldest settlement, medieval trading town, or plain town |
| CityDetection.FutureDescription | src/lib/city-detection.ts:148-156 | next to a town still to come the description announces it, with the coast remark only from 4000 BC on |
| CityDetection.CoastDescription | src/lib/city-detection.ts:158-168 | on the coast the description is the coastal sentence of the year's bracket |
| CityDetection.RuralDescription | src/lib/city-detection.ts:169-180 | inland and away from any town the description is the rural sentence of the year's bracket |
| CityDetection.AnalyzeLocationType | src/lib/city-detection.ts:110-189 | over the catalog there is always a nearest town |
| CityDetection.FutureTownIsRural | src/lib/city-detection.ts:136-158 | a point on a town not yet founded is rural, even when near the coast |
| CityDetection.StockholmInYear800 | src/lib/city-detection.ts:110-189 | Stockholm's coordinates in 800 are rural although the coast heuristic holds there |
| CityDetection.FirstQualifying | src/lib/city-detection.ts:254-259 | the text is that of the first bucket in priority order that is open in the year and non-empty, and no earlier bucket qualifies |
| CityDetection.FirstQualifyingStep | src/lib/city-detection.ts:254-259 | the cascade takes a bucket's text when the bucket is open and non-empty, and otherwise moves on to the next bucket |
| CityDetection.TabledTextIsPriorityLookup | src/lib/city-detection.ts:254-261 | the bucket cascade equals the priority lookup, with the fallback sentence when no bucket qualifies |
| CityDetection.CityDescription | src/lib/city-detection.ts:194-262 | a year before the founding gives the not-yet-founded sentence; an untabled town gets the generic sentence; a tabled town gets the priority lookup or the fallback |
| TimePeriods.CatalogChronological | src/lib/time-periods.ts:32-312 | the catalog has twelve periods, each with start before end, in non-overlapping chronological order |
| TimePeriods.ChronologicalOrdered | src/lib/time-periods.ts:32-312 | in a chronological catalog any earlier period ends no later than any later one starts |
| TimePeriods.CatalogDistinctIds | src/lib/time-periods.ts:32-312 | no two periods share an id |
| TimePeriods.PeriodById | src/lib/time-periods.ts:315-317 | a found period is in the list and has the id; nothing is found exactly when no period has it |
| TimePeriods.PeriodByIdFindsEntry | src/lib/time-periods.ts:315-317 | with distinct ids, looking up an entry's id gives that entry |
| TimePeriods.GetPeriodById | src/lib/time-periods.ts:315-317 | the catalog lookup finds a period with the id exactly when one exists |
| TimePeriods.CatalogLookup | src/lib/time-periods.ts:32-317 | every catalog entry is found by its own id |
| TimePeriods.OfEraMembers | src/lib/time-periods.ts:320-329 | the periods of an era are exactly the listed periods with that era |
| TimePeriods.OfEraSnoc | src/lib/time-periods.ts:322-327 | pushing a period adds it to its own era's list only |
| TimePeriods.GroupIndex | src/lib/time-periods.ts:323 | an era's group is found exactly when one exists |
| TimePeriods.AddToGroupsKeeps | src/lib/time-periods.ts:322-327 | one loop step keeps every group equal to its era's periods in order, each era in one group, every period covered, and one more member in total |
| TimePeriods.GroupByEraCorrect | src/lib/time-periods.ts:320-329 | the grouping puts each period in the group of its era, in catalog order, with no period lost or repeated |
| TimePeriods.GetPeriodsByEra | src/lib/time-periods.ts:320-329 | the catalog grouped by era has that property |
| TimePeriods.EraKeyInjective | src/lib/time-periods.ts:9 | distinct eras have distinct keys |
| TimePeriods.EraNamesComplete | src/lib/time-periods.ts:332-338 | the era names have an entry for every era and no other |
| GenerateRoute.HistoricalExclusions | src/app/api/generate/route.ts:399-431 | the six base exclusions always come first |
| GenerateRoute.ExclusionTiersDecreasing | src/app/api/generate/route.ts:405-428 | the tier thresholds strictly decrease, from 1900 down to −4000 |
| GenerateRoute.TierItemsPrefix | src/app/api/generate/route.ts:405-428 | with decreasing thresholds, a later year's tier items are a prefix of an earlier year's |
| GenerateRoute.ExclusionsNested | src/app/api/generate/route.ts:399-431 | a later year's exclusion list is a prefix of an earlier year's |
| GenerateRoute.ExclusionsConstant | src/app/api/generate/route.ts:405-428 | years on the same side of every threshold get the same list |
| GenerateRoute.ExclusionsModern | src/app/api/generate/route.ts:403-405 | from 1900 on only the six base items remain |
| GenerateRoute.ExclusionsEarliest | src/app/api/generate/route.ts:403-428 | before 4000 BC all 35 items are excluded |
| GenerateRoute.ClothingThresholdsIncreasing | src/app/api/generate/route.ts:436-537 | the clothing table's ten year thresholds strictly increase |
| GenerateRoute.PeriodClothing | src/app/api/generate/route.ts:436-537 | the outfit of a year is the table entry of its bucket, the number of thresholds at or below the year |
| GenerateRoute.ClothingBucketOf | src/app/api/generate/route.ts:436-537 | the clothing bracket of a year is the one the source's if-chain selects |
| GenerateRoute.ClothingConstant | src/app/api/generate/route.ts:436-537 | years in the same bracket get the same clothing |
| GenerateRoute.RenderOpening | src/app/api/generate/route.ts:315-338 | a segment list opening with the underwater or the historical group renders to text starting with that sentence |
| GenerateRoute.RenderClosing | src/app/api/generate/route.ts:390-391 | a segment list ending with the closing group renders to text ending with it |
| GenerateRoute.ChooseTemplate | src/app/api/generate/route.ts:343-360 | urban exactly for an urban classification of an existing, known town; otherwise coastal exactly for a coastal one; otherwise rural |
| GenerateRoute.UnderwaterParts | src/app/api/generate/route.ts:311-335 | the underwater prompt has its five groups, with no exclusion list, no composition and no person block |
| GenerateRoute.SceneParts | src/app/api/generate/route.ts:343-360 | the scene matches the chosen template, and only the urban scene is followed by the town note |
| GenerateRoute.LandParts | src/app/api/generate/route.ts:337-374 | the land prompt opens with the historical sentence, then the scene, and always has the exclusion group; it has a composition exactly when a view is given |
| GenerateRoute.PersonParts | src/app/api/generate/route.ts:377-388 | the person block is there exactly for a detected person with a description, and carries the period's clothing |
| GenerateRoute.PromptParts | src/app/api/generate/route.ts:308-394 | the prompt opens with the underwater sentence exactly when the place was submerged and with the historical one otherwise, always has the exclusion group on land, and ends with the closing group |
| GenerateRoute.PromptPartsContents | src/app/api/generate/route.ts:308-394 | the closing group appears once, at the end; under water there is no exclusion or composition; a composition appears exactly on land with a view, and the person block exactly for a detected person with a description |
| GenerateRoute.ImagePromptContents | src/app/api/generate/route.ts:300-394 | the same facts for generateImagePrompt's own arguments, with "submerged" meaning the geology analysis says so |
| GenerateRoute.ImagePrompt | src/app/api/generate/route.ts:300-394 | the prompt starts with the underwater or the historical sentence accordingly and always ends with the accuracy demand |
| GenerateRoute.SelectPeriod | src/app/api/generate/route.ts:26 | a known id selects its own period; an unknown one selects the first catalog period |
| GenerateRoute.SguPeriodFor | src/app/api/generate/route.ts:33-48 | geology is requested exactly for prehistoric and ancient periods, with the mapped SGU period or "atlantic_early" |
| GenerateRoute.SguPeriodsKnown | src/app/api/generate/route.ts:40-48 | every SGU period the map can produce is a known Stone Age period id |
| GenerateRoute.GeologyFor | src/app/api/generate/route.ts:31-64 | there is a geology analysis exactly for prehistoric and ancient periods, and it is `analyzeLocation` of the mapped period |
| GenerateRoute.LandscapeDescription | src/app/api/generate/route.ts:232-236 | the urban text for an existing town, else the coastal text for a coastal place, else the rural text |
| GenerateRoute.LandscapeMatchesTemplate | src/app/api/generate/route.ts:232-236 | for a catalog classification, the landscape text agrees with the prompt's template |
| HistoricalData.GetRegion | src/lib/historical-data.ts:85-100 | the latitude bands 66.5 / 63 / 60 / 58 / 55 decide the region north of 55°; further south, the Danish box, then west of 8° east Norway, else Scandinavia |
| HistoricalData.RegionIgnoresLongitude | src/lib/historical-data.ts:85-91 | north of 55° the longitude is never consulted |
| HistoricalData.Elevation | src/lib/historical-data.ts:103-114 | 500, 200, 50, 100 and 50 m for the five Swedish regions, and 100 m otherwise |
| HistoricalData.StoneAgeByKey | src/lib/historical-data.ts:26-82 | a key finds a period exactly when it is one of the five table keys, and the period found is stored under that key |
| HistoricalData.UpliftFactor | src/lib/historical-data.ts:129 | the factor is 1.5 north of 60°, 1.0 north of 55°, else 0.5 |
| HistoricalData.ActualUplift | src/lib/historical-data.ts:130 | the uplift used is the table uplift times the factor, rounded |
| HistoricalData.EstimatedElevation | src/lib/historical-data.ts:133 | the assumed elevation is 50 m north of 60° and 30 m elsewhere |
| HistoricalData.UnderwaterExactly | src/lib/historical-data.ts:129-136 | the place was under water exactly when the period is not the Subboreal and the place is north of 55° or the period is one of the two oldest |
| HistoricalData.NarrativeFor | src/lib/historical-data.ts:136-155 | submerged exactly when under water; the ice narrative exactly for northern land in the two oldest periods; the taiga narrative for northern land later |
| HistoricalData.IceMarginUnreachable | src/lib/historical-data.ts:143-150 | the ice narrative is never chosen, and the taiga narrative only in the Subboreal |
| HistoricalData.AnalysisTextOpening | src/lib/historical-data.ts:137-141 | the analysis opens with the under-water-or-land sentence of its narrative |
| HistoricalData.HistoricalContext | src/lib/historical-data.ts:117-158 | the context is the requested period's, and the narrative is the one chosen for the place |
| HistoricalData.HistoricalContextByKey | src/lib/historical-data.ts:117-130 | a call with a key outside the table fails, and a call with a table key gives the context of the period stored under that key |
| HistoricalData.HistoricalContextOpening | src/lib/historical-data.ts:133-141 | the analysis opens with the under-water sentence when the place lay below the period's sea level and with the land sentence otherwise |
| HistoricalData.LegacyParts | src/lib/historical-data.ts:170-191 | the prompt opens with region, period and years, ends with the quality suffix, and has a composition sentence exactly when a view is given |
| HistoricalData.LegacyPartsPeople | src/lib/historical-data.ts:186-188 | the human-activity sentence appears exactly when the activity is non-empty and does not contain "inga människor", and then in lower case |
| HistoricalData.LegacyRenderOpening | src/lib/historical-data.ts:170 | a part list starting with the opening renders to text starting with "A photorealistic landscape painting of " |
| HistoricalData.LegacyRenderSuffix | src/lib/historical-data.ts:191 | a part list ending with the suffix renders to text ending with it |
| HistoricalData.LegacyPromptFrame | src/lib/historical-data.ts:170-193 | every legacy prompt has that opening and that suffix |
| HistoricalData.LegacyImagePrompt | src/lib/historical-data.ts:161-194 | the prompt for any place, period and view has that opening and that suffix |
| HistoricalData.LegacyImagePromptByKey | src/lib/historical-data.ts:161-168 | the prompt fails exactly when the historical context for the key fails, and otherwise has the fixed opening |
| HistoricalData.KnownPlacesDisjoint | src/lib/historical-data.ts:201-206 | no point lies in two of the six known-place boxes |
| HistoricalData.PlaceFrom | src/lib/historical-data.ts:201-206 | the scan returns the first box holding the point, and none when no box does |
| HistoricalData.ApproximateLocation | src/lib/historical-data.ts:197-209 | a point in no box gets its region's name |
| HistoricalData.ApproximateLocationCorrect | src/lib/historical-data.ts:197-209 | a point in a box is named after that box's place; a point in none gets its region's name |

## Left out

- Haversine distance (city-detection.ts) is not part of this model. The distance from the point to a town is a parameter `distanceTo` of the classification.
- The Open-Elevation request of `fetchElevation` is a network call. Its outcome is an `ElevationResponse` input; only the choice among answer, 0 and regional estimate is modelled.
- The HTTP handlers are left out: the `POST` of the generate route apart from its pure fragments, and the `GET`/`POST` of the geology route. They are request parsing, JSON shaping, `Promise.all` and the OpenRouter calls.
- The `yearsBP` conversion in the generate route (route.ts:35-37) is computed but never used by the code, so it is left out.
- The `color` field of the period catalog and the catalog's other display-only prose are left out. The texts the prompts use are kept, as functions of the catalog entry.
- Generated prose is treated as data. The contracts speak about which sentence groups occur and about fixed openings and closings. They do not speak about every character of every interpolated text.
- Basics.ToLower: JavaScript's `toLowerCase` handles all of Unicode. The model lowers only A-Z and the Latin-1 capitals À-Þ (except ×). These cover every capital in the texts it is applied to.
- GenerateRoute.PeriodClothing: the outfits are data; the contract says which of the eleven table entries a year gets, not what the entries say.
- HistoricalData.LegacyPartsPeople: the "contains 'inga människor'" test is stated as `Contains` on the period's activity text. Which table entries contain it is not proved entry by entry.
- GenerateRoute.SelectPeriod: a period id the catalog lacks is modelled like any unknown id; both fall back to the first period, as the code does.
- The default period argument `'atlantisk'` of `generateHistoricalContext` and `generateImagePrompt` (historical-data.ts:120, 165) is left out: the model's callers always name a period.
- HistoricalData.HistoricalContext / HistoricalData.LegacyImagePrompt: these take a `StoneAge`, so only the five table keys reach them. The table is typed `Record<string, HistoricalContext>` (historical-data.ts:26), so any string is accepted as a key; for a key outside the five, `context` is undefined and reading `context.landUplift` throws (historical-data.ts:130, reached from generateImagePrompt at line 167). That failure is modelled as `None` by `HistoricalContextByKey` and `LegacyImagePromptByKey`, not as an exception.
- Floating-point rounding is left out: arithmetic is exact over the reals. The source's constants (0.5, 1.5, 55.3, ...) are exact there, but IEEE doubles may differ in the last bit at boundaries.
