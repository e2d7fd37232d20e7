/** The older, Stone-Age-only context generator of historical-data.ts: a
    region by latitude, a crude elevation per region, five climate periods with
    a sea level and an uplift each, the "was this place under water" narrative,
    a landscape prompt and a place name from six known boxes. */
module HistoricalData {
  import opened Basics

  // ---------------------------------------------------------------------------
  // Regions
  // ---------------------------------------------------------------------------

  datatype Region = Lappland | Norrland | Svealand | Gotaland | Skane | Danmark | Norge | Skandinavien
  {
    /** The region name the source returns. */
    function Label(): string
    {
      match this
      case Lappland => "Lappland"
      case Norrland => "Norrland"
      case Svealand => "Svealand"
      case Gotaland => "Götaland"
      case Skane => "Skåne/Södra Sverige"
      case Danmark => "Danmark"
      case Norge => "Norge"
      case Skandinavien => "Skandinavien"
    }

    predicate North()
    {
      this == Lappland || this == Norrland
    }
  }

  /** getRegion: latitude bands north of 55 degrees; further south a Danish box,
      anything west of 8 degrees east is Norway, and the rest Scandinavia. */
  function GetRegion(lat: real, lng: real): (r: Region)
    ensures r == Lappland <==> lat > 66.5
    ensures r == Norrland <==> 63.0 < lat <= 66.5
    ensures r == Svealand <==> 60.0 < lat <= 63.0
    ensures r == Gotaland <==> 58.0 < lat <= 60.0
    ensures r == Skane <==> 55.0 < lat <= 58.0
    ensures r == Danmark <==> lat <= 55.0 && lat > 54.0 && 8.0 < lng < 16.0
    ensures r == Norge <==> lat <= 55.0 && !(lat > 54.0 && 8.0 < lng < 16.0) && lng < 8.0
  {
    if lat > 66.5 then Lappland
    else if lat > 63.0 then Norrland
    else if lat > 60.0 then Svealand
    else if lat > 58.0 then Gotaland
    else if lat > 55.0 then Skane
    else if lat > 54.0 && lng > 8.0 && lng < 16.0 then Danmark
    else if lng < 8.0 then Norge
    else Skandinavien
  }

  /** North of 55 degrees the longitude plays no part. */
  lemma RegionIgnoresLongitude(lat: real, lng: real, lng': real)
    requires lat > 55.0
    ensures GetRegion(lat, lng) == GetRegion(lat, lng')
    ensures GetRegion(lat, lng) !in {Danmark, Norge, Skandinavien}
  {
  }

  /** getElevation: a fixed guess per region, 100 m where none is listed. */
  function Elevation(lat: real, lng: real): (r: int)
    ensures GetRegion(lat, lng) == Lappland ==> r == 500
    ensures GetRegion(lat, lng) == Norrland ==> r == 200
    ensures GetRegion(lat, lng) in {Svealand, Skane} ==> r == 50
    ensures GetRegion(lat, lng) in {Gotaland, Danmark, Norge, Skandinavien} ==> r == 100
  {
    match GetRegion(lat, lng)
    case Lappland => 500
    case Norrland => 200
    case Svealand => 50
    case Gotaland => 100
    case Skane => 50
    case _ => 100
  }

  // ---------------------------------------------------------------------------
  // Stone Age periods
  // ---------------------------------------------------------------------------

  /** The five keys of STONE_AGE_PERIODS. */
  datatype StoneAge = Senglacial | Preboreal | Boreal | Atlantisk | Subboreal
  {
    /** Sea level then, metres relative to today. */
    function SeaLevelDiff(): int
    {
      match this
      case Senglacial => -50
      case Preboreal => -40
      case Boreal => -25
      case Atlantisk => 3
      case Subboreal => 0
    }

    /** Land uplift since then, metres. */
    function LandUplift(): int
    {
      match this
      case Senglacial => 200
      case Preboreal => 150
      case Boreal => 100
      case Atlantisk => 50
      case Subboreal => 20
    }

    function Title(): string
    {
      match this
      case Senglacial => "Senglacial tid"
      case Preboreal => "Preboreal tid (Äldre stenåldern)"
      case Boreal => "Boreal tid"
      case Atlantisk => "Atlantisk tid (Mellanneolitikum)"
      case Subboreal => "Subboreal tid (Senneolitikum)"
    }

    function YearRange(): string
    {
      match this
      case Senglacial => "12000-9700 f.Kr."
      case Preboreal => "9700-8900 f.Kr."
      case Boreal => "8900-7500 f.Kr."
      case Atlantisk => "7500-3800 f.Kr."
      case Subboreal => "3800-500 f.Kr."
    }

    function Climate(): string
    {
      match this
      case Senglacial => "Arktiskt, tundraklimat med korta somrar"
      case Preboreal => "Subarktiskt, varmare än idag på somrarna"
      case Boreal => "Tempererat, torrare än idag"
      case Atlantisk => "Varmt och fuktigt, 2-3°C varmare än idag"
      case Subboreal => "Svalare och torrare än atlantisk tid"
    }

    function Vegetation(): string
    {
      match this
      case Senglacial => "Tundra med lavar, mossor, dvärgbjörk och vide"
      case Preboreal => "Björkskog börjar sprida sig, tundra i norr"
      case Boreal => "Tallskog dominerar, hassel börjar komma"
      case Atlantisk => "Lövskog med ek, alm, lind, ask - \"klimatoptimum\""
      case Subboreal => "Öppen betesmark, boken kommer, jordbrukslandskap"
    }

    function Fauna(): string
    {
      match this
      case Senglacial => "Ren, fjällräv, lämmel, snöuggla, mammut (utdöende)"
      case Preboreal => "Ren, älg, bäver, varg, björn, havsfåglar"
      case Boreal => "Älg, kronhjort, vildsvin, uroxe, bäver"
      case Atlantisk => "Kronhjort, vildsvin, uroxe, älg, säl, tumlare"
      case Subboreal => "Tamboskap, kronhjort, vildsvin (minskande), häst"
    }

    function HumanActivity(): string
    {
      match this
      case Senglacial => "Få eller inga människor, de första jägarna börjar anlända"
      case Preboreal => "Maglemosekulturen - jägare och samlare längs kuster och vattendrag"
      case Boreal => "Kongemosekulturen - säsongsläger, fiske, jakt på sjödäggdjur"
      case Atlantisk => "Ertebøllekulturen - bofast vid kusten, skalbankar, de första jordbrukarna kommer"
      case Subboreal => "Trattbägarkultur, gånggrifter, megalitgravar, jordbruk etablerat"
    }

    function LandscapeDescription(): string
    {
      match this
      case Senglacial =>
        "Öppet tundralandskap med permafrost, stora issjöar, inlandsisen drar sig tillbaka"
      case Preboreal =>
        "Björkskogar etableras, många sjöar från smältvatten, Östersjön är en sötvattenssjö (Ancylussjön)"
      case Boreal =>
        "Täta tallskogar, mindre sjöar, kustlinjen förändras snabbt på grund av landhöjning"
      case Atlantisk =>
        "Täta lövskogar, havet står som högst (Littorinahavet), många öar som idag är fastland"
      case Subboreal =>
        "Öppnare landskap, de första åkrarna, betesmarker, bosättningar med långhus"
    }
  }

  /** The key under which a period is stored in the period table. */
  function KeyOf(period: StoneAge): string
  {
    match period
    case Senglacial => "senglacial"
    case Preboreal => "preboreal"
    case Boreal => "boreal"
    case Atlantisk => "atlantisk"
    case Subboreal => "subboreal"
  }

  /** Looking a key up in the period table: one of the five keys finds its
      period, any other string finds nothing. */
  function StoneAgeByKey(key: string): (r: Option<StoneAge>)
    ensures r.Some? <==> key in {"senglacial", "preboreal", "boreal", "atlantisk", "subboreal"}
    ensures r.Some? ==> KeyOf(r.value) == key
  {
    if key == "senglacial" then Some(Senglacial)
    else if key == "preboreal" then Some(Preboreal)
    else if key == "boreal" then Some(Boreal)
    else if key == "atlantisk" then Some(Atlantisk)
    else if key == "subboreal" then Some(Subboreal)
    else None
  }

  /** Every period is found again under its own key. */
  lemma KeyRoundTrip(period: StoneAge)
    ensures StoneAgeByKey(KeyOf(period)) == Some(period)
  {
  }

  // ---------------------------------------------------------------------------
  // generateHistoricalContext
  // ---------------------------------------------------------------------------

  /** Uplift is largest in the north. */
  function UpliftFactor(lat: real): (f: real)
    ensures lat > 60.0 ==> f == 1.5
    ensures 55.0 < lat <= 60.0 ==> f == 1.0
    ensures lat <= 55.0 ==> f == 0.5
  {
    if lat > 60.0 then 1.5 else if lat > 55.0 then 1.0 else 0.5
  }

  /** The table's uplift scaled by the latitude factor, rounded. */
  function ActualUplift(period: StoneAge, lat: real): (u: int)
    ensures u as real - 0.5 <= period.LandUplift() as real * UpliftFactor(lat) < u as real + 0.5
  {
    Round(period.LandUplift() as real * UpliftFactor(lat))
  }

  /** The assumed present-day elevation: 50 m north of 60 degrees, 30 m elsewhere. */
  function EstimatedElevation(lat: real): (e: int)
    ensures e == 50 || e == 30
    ensures e == 50 <==> lat > 60.0
  {
    if lat > 60.0 then 50 else 30
  }

  /** The place lay under water when its elevation then was below that period's sea level. */
  predicate WasUnderwater(period: StoneAge, lat: real)
  {
    EstimatedElevation(lat) - ActualUplift(period, lat) < period.SeaLevelDiff()
  }

  /** Worked out over the table: everything north of 55 degrees was under water
      before the Subboreal; south of it only the two oldest periods were. */
  lemma {:induction false} UnderwaterExactly(period: StoneAge, lat: real)
    ensures WasUnderwater(period, lat) <==>
      period != Subboreal && (lat > 55.0 || period == Senglacial || period == Preboreal)
  {
    var f := UpliftFactor(lat);
    var u := ActualUplift(period, lat);
    var h := EstimatedElevation(lat) - u;
    if lat > 60.0 {
      RoundInt(period.LandUplift() * 3 / 2);
      assert period.LandUplift() as real * 1.5 == (period.LandUplift() * 3 / 2) as real;
    } else if lat > 55.0 {
      RoundInt(period.LandUplift());
    } else {
      RoundInt(period.LandUplift() / 2);
      assert period.LandUplift() as real * 0.5 == (period.LandUplift() / 2) as real;
    }
  }

  /** Which narrative the location analysis tells. */
  datatype Narrative =
    | Submerged       // the place was under water
    | IceMargin       // northern land in the two oldest periods
    | Taiga           // northern land later on
    | PeriodLandscape // land elsewhere: the period's own landscape

  function NarrativeFor(period: StoneAge, lat: real, lng: real): (n: Narrative)
    ensures n == Submerged <==> WasUnderwater(period, lat)
    ensures n == IceMargin <==>
      !WasUnderwater(period, lat) && GetRegion(lat, lng).North() && (period == Senglacial || period == Preboreal)
    ensures n == Taiga <==>
      !WasUnderwater(period, lat) && GetRegion(lat, lng).North() && period != Senglacial && period != Preboreal
  {
    if WasUnderwater(period, lat) then Submerged
    else if GetRegion(lat, lng).North() then
      if period == Senglacial || period == Preboreal then IceMargin else Taiga
    else PeriodLandscape
  }

  /** The ice-margin narrative can never be told: north of 63 degrees both
      periods it is meant for have the place under water. */
  lemma IceMarginUnreachable(period: StoneAge, lat: real, lng: real)
    ensures NarrativeFor(period, lat, lng) != IceMargin
    ensures NarrativeFor(period, lat, lng) == Taiga ==> period == Subboreal
  {
    UnderwaterExactly(period, lat);
  }

  function AnalysisOpening(period: StoneAge, underwater: bool): string
  {
    "Under " + ToLower(period.Title())
      + (if underwater then " låg denna plats troligen under vatten. " else " var detta område land. ")
  }

  function NarrativeText(n: Narrative, period: StoneAge, region: Region, uplift: int): string
  {
    match n
    case Submerged =>
      "Landhöjningen i " + region.Label() + " har varit cirka " + IntToString(uplift) + " meter sedan dess. "
      + "Kustlinjen låg långt inåt land jämfört med idag."
    case IceMargin =>
      "Inlandsisen täckte fortfarande delar av området eller hade nyligen smält. "
      + "Landskapet präglades av smältvattenströmmar och issjöar."
    case Taiga =>
      "Tajgan dominerade med tall och björk. "
      + "Renjakt var viktig för de få människor som bodde här."
    case PeriodLandscape => period.LandscapeDescription() + " " + period.HumanActivity()
  }

  /** The location analysis: whether the place was under water or land, then
      the narrative. */
  function AnalysisText(n: Narrative, period: StoneAge, region: Region, uplift: int): string
  {
    AnalysisOpening(period, n == Submerged) + NarrativeText(n, period, region, uplift)
  }

  /** The analysis text opens with its under-water-or-land sentence. */
  lemma AnalysisTextOpening(n: Narrative, period: StoneAge, region: Region, uplift: int)
    ensures AnalysisOpening(period, n == Submerged) <= AnalysisText(n, period, region, uplift)
  {
    PrefixOfAppend(AnalysisOpening(period, n == Submerged), NarrativeText(n, period, region, uplift));
  }

  /** The result of generateHistoricalContext: the period's table entry (here
      its key), the narrative chosen and the location analysis text. */
  datatype ContextResult = ContextResult(context: StoneAge, narrative: Narrative, locationAnalysis: string)

  /** generateHistoricalContext. */
  function HistoricalContext(lat: real, lng: real, period: StoneAge): (r: ContextResult)
    ensures r.context == period
    ensures r.narrative == NarrativeFor(period, lat, lng)
  {
    var n := NarrativeFor(period, lat, lng);
    ContextResult(period, n, AnalysisText(n, period, GetRegion(lat, lng), ActualUplift(period, lat)))
  }

  /** generateHistoricalContext called with a period key: a key missing from
      the table has no entry to read, and the call fails (None); a key in the
      table gives the result for its period. */
  function HistoricalContextByKey(lat: real, lng: real, key: string): (r: Option<ContextResult>)
    ensures r.Some? <==> StoneAgeByKey(key).Some?
    ensures r.Some? ==> KeyOf(r.value.context) == key
    ensures r.Some? ==> r.value == HistoricalContext(lat, lng, r.value.context)
  {
    match StoneAgeByKey(key)
    case None => None
    case Some(period) => Some(HistoricalContext(lat, lng, period))
  }

  /** The analysis opens by saying the place was under water exactly when it
      lay below the period's sea level, and that it was land otherwise. */
  lemma HistoricalContextOpening(lat: real, lng: real, period: StoneAge)
    ensures AnalysisOpening(period, WasUnderwater(period, lat)) <= HistoricalContext(lat, lng, period).locationAnalysis
  {
    AnalysisTextOpening(NarrativeFor(period, lat, lng), period, GetRegion(lat, lng), ActualUplift(period, lat));
  }

  // ---------------------------------------------------------------------------
  // generateImagePrompt (legacy)
  // ---------------------------------------------------------------------------

  const LegacyOpeningText := "A photorealistic landscape painting of "
  const LegacySuffixText :=
    "Highly detailed, natural lighting, National Geographic style photography, "
    + "8K resolution, atmospheric perspective."
  const NoPeopleMarker := "inga människor"

  /** One sentence group of the legacy prompt with the values it interpolates. */
  datatype LegacyPart =
    | Opening(region: string, title: string, yearRange: string)
    | Landscape(description: string)
    | Flora(vegetation: string)
    | Wildlife(fauna: string)
    | ClimateLine(climate: string)
    | CompositionLine(view: string)
    | People(activity: string)  // already lower-cased
    | Suffix
  {
    function Text(): string
    {
      match this
      case Opening(region, title, years) =>
        LegacyOpeningText + region + ", Scandinavia during the " + title + " (" + years + "). "
      case Landscape(d) => d + ". "
      case Flora(v) => "Vegetation: " + v + ". "
      case Wildlife(f) => "Wildlife visible: " + f + ". "
      case ClimateLine(c) => "The climate is " + c + ". "
      case CompositionLine(view) =>
        "The composition shows a similar viewpoint to: " + view
        + ", but transformed to show how it looked in prehistoric times. "
      case People(activity) => "In the distance, signs of " + activity + " might be visible. "
      case Suffix => LegacySuffixText
    }
  }

  /** The human-activity sentence is written only for a non-empty activity that
      does not say there were no people. */
  predicate ShowsPeople(activity: string)
  {
    |activity| > 0 && !Contains(activity, NoPeopleMarker)
  }

  /** The texts of a STONE_AGE_PERIODS entry the legacy prompt interpolates. */
  datatype ContextTexts = ContextTexts(
    title: string, yearRange: string, landscapeDescription: string,
    vegetation: string, fauna: string, climate: string, humanActivity: string)

  function TextsOf(period: StoneAge): ContextTexts
  {
    ContextTexts(period.Title(), period.YearRange(), period.LandscapeDescription(),
                 period.Vegetation(), period.Fauna(), period.Climate(), period.HumanActivity())
  }

  /** The legacy prompt's segments for a period's texts in a region, with the
      current view ("" when none was given). */
  function LegacyParts(region: string, c: ContextTexts, view: string): (r: seq<LegacyPart>)
    ensures |r| >= 6
    ensures r[0] == Opening(region, c.title, c.yearRange)
    ensures r[|r| - 1] == Suffix && forall i | 0 <= i < |r| - 1 :: r[i] != Suffix
    ensures (exists i | 0 <= i < |r| :: r[i].CompositionLine?) <==> |view| > 0
    ensures |view| > 0 ==> CompositionLine(view) in r
  {
    var front := [Opening(region, c.title, c.yearRange),
                  Landscape(c.landscapeDescription),
                  Flora(c.vegetation),
                  Wildlife(c.fauna),
                  ClimateLine(c.climate)];
    var comp := if |view| > 0 then [CompositionLine(view)] else [];
    var people := if ShowsPeople(c.humanActivity) then [People(ToLower(c.humanActivity))] else [];
    var r := front + comp + people + [Suffix];
    assert forall i | 0 <= i < 5 :: r[i] == front[i];
    assert forall i | 0 <= i < |comp| :: r[5 + i] == comp[i];
    assert forall i | 0 <= i < |people| :: r[5 + |comp| + i] == people[i];
    assert |comp| == 1 ==> r[5] == CompositionLine(view);
    r
  }

  /** The human-activity sentence is there exactly when the activity shows people. */
  lemma LegacyPartsPeople(region: string, c: ContextTexts, view: string)
    ensures var r := LegacyParts(region, c, view);
      (exists i | 0 <= i < |r| :: r[i].People?) <==> ShowsPeople(c.humanActivity)
    ensures ShowsPeople(c.humanActivity) ==> People(ToLower(c.humanActivity)) in LegacyParts(region, c, view)
    ensures var r := LegacyParts(region, c, view);
      forall i | 0 <= i < |r| :: r[i].People? ==> r[i] == People(ToLower(c.humanActivity))
  {
    var r := LegacyParts(region, c, view);
    var comp := if |view| > 0 then [CompositionLine(view)] else [];
    assert forall i | 0 <= i < 5 + |comp| :: !r[i].People?;
    if ShowsPeople(c.humanActivity) {
      assert r[5 + |comp|] == People(ToLower(c.humanActivity));
    }
  }

  function LegacyTexts(parts: seq<LegacyPart>): seq<string>
  {
    seq(|parts|, i requires 0 <= i < |parts| => parts[i].Text())
  }

  function LegacyRender(parts: seq<LegacyPart>): string
  {
    Concat(LegacyTexts(parts))
  }

  /** A part list that opens with the opening sentence renders to a string that
      starts with the painting phrase. */
  lemma LegacyRenderOpening(parts: seq<LegacyPart>)
    requires |parts| > 0 && parts[0].Opening?
    ensures LegacyOpeningText <= LegacyRender(parts)
  {
    var ts := LegacyTexts(parts);
    ConcatEnds(ts);
    var p := parts[0];
    var tail := p.region + ", Scandinavia during the " + p.title + " (" + p.yearRange + "). ";
    assert ts[0] == LegacyOpeningText + tail;
    AppendAssoc(LegacyOpeningText, tail, Concat(ts[1..]));
    assert LegacyRender(parts) == LegacyOpeningText + (tail + Concat(ts[1..]));
    PrefixOfAppend(LegacyOpeningText, tail + Concat(ts[1..]));
  }

  /** A part list that ends with the suffix renders to a string that ends with it. */
  lemma LegacyRenderSuffix(parts: seq<LegacyPart>)
    requires |parts| > 0 && parts[|parts| - 1] == Suffix
    ensures exists front :: LegacyRender(parts) == front + LegacySuffixText
  {
    var ts := LegacyTexts(parts);
    ConcatEnds(ts);
    assert LegacyRender(parts) == Concat(ts[..|ts| - 1]) + LegacySuffixText;
  }

  /** The legacy prompt for a region name, a period's texts and a view. */
  function LegacyPrompt(region: string, c: ContextTexts, view: string): string
  {
    LegacyRender(LegacyParts(region, c, view))
  }

  /** Every legacy prompt opens with the painting phrase and closes with the
      quality demands. */
  lemma LegacyPromptFrame(region: string, c: ContextTexts, view: string)
    ensures LegacyOpeningText <= LegacyPrompt(region, c, view)
    ensures exists front :: LegacyPrompt(region, c, view) == front + LegacySuffixText
  {
    var parts := LegacyParts(region, c, view);
    LegacyRenderOpening(parts);
    LegacyRenderSuffix(parts);
  }

  /** generateImagePrompt of the Stone Age generator: for any place, period
      and view the prompt has the fixed opening and quality suffix. */
  function LegacyImagePrompt(lat: real, lng: real, period: StoneAge, view: string): (p: string)
    ensures LegacyOpeningText <= p
    ensures exists front :: p == front + LegacySuffixText
  {
    LegacyPromptFrame(GetRegion(lat, lng).Label(), TextsOf(period), view);
    LegacyPrompt(GetRegion(lat, lng).Label(), TextsOf(period), view)
  }

  /** generateImagePrompt of the Stone Age generator called with a period
      key: it fails (None) exactly when the key is not in the table, since
      it first builds the historical context for that key. */
  function LegacyImagePromptByKey(lat: real, lng: real, key: string, view: string): (r: Option<string>)
    ensures r.Some? <==> HistoricalContextByKey(lat, lng, key).Some?
    ensures r.Some? ==> LegacyOpeningText <= r.value
  {
    match StoneAgeByKey(key)
    case None => None
    case Some(period) => Some(LegacyImagePrompt(lat, lng, period, view))
  }

  // ---------------------------------------------------------------------------
  // getApproximateLocation
  // ---------------------------------------------------------------------------

  /** An open latitude/longitude rectangle around a known place. */
  datatype Box = Box(name: string, latLo: real, latHi: real, lngLo: real, lngHi: real)

  predicate InBox(b: Box, lat: real, lng: real)
  {
    b.latLo < lat < b.latHi && b.lngLo < lng < b.lngHi
  }

  /** The known places in the order the source tests them. */
  const KnownPlaces := [
    Box("Stockholm", 59.3, 59.4, 17.9, 18.2),
    Box("Göteborg", 57.6, 57.8, 11.9, 12.1),
    Box("Malmö", 55.5, 55.7, 12.9, 13.1),
    Box("Uppsala", 59.8, 60.0, 17.5, 17.8),
    Box("Köpenhamn", 55.6, 55.8, 12.5, 12.7),
    Box("Oslo", 59.8, 60.0, 10.6, 10.9)]

  /** No point lies in two of the boxes, so the order of the tests is immaterial. */
  lemma KnownPlacesDisjoint(i: nat, j: nat, lat: real, lng: real)
    requires i < j < |KnownPlaces|
    ensures !(InBox(KnownPlaces[i], lat, lng) && InBox(KnownPlaces[j], lat, lng))
  {
  }

  /** The first box from `k` on that holds the point. */
  function PlaceFrom(boxes: seq<Box>, k: nat, lat: real, lng: real): (r: Option<nat>)
    requires k <= |boxes|
    ensures r.Some? ==> k <= r.value < |boxes| && InBox(boxes[r.value], lat, lng)
    ensures r.Some? ==> forall j | k <= j < r.value :: !InBox(boxes[j], lat, lng)
    ensures r.None? ==> forall j | k <= j < |boxes| :: !InBox(boxes[j], lat, lng)
    decreases |boxes| - k
  {
    if k == |boxes| then None
    else if InBox(boxes[k], lat, lng) then Some(k)
    else PlaceFrom(boxes, k + 1, lat, lng)
  }

  /** getApproximateLocation. */
  function ApproximateLocation(lat: real, lng: real): (r: string)
    ensures PlaceFrom(KnownPlaces, 0, lat, lng).None? ==> r == GetRegion(lat, lng).Label()
  {
    match PlaceFrom(KnownPlaces, 0, lat, lng)
    case Some(i) => KnownPlaces[i].name
    case None => GetRegion(lat, lng).Label()
  }

  /** A point inside a known place's box is named after that place; a point in
      none of them gets its region's name. */
  lemma ApproximateLocationCorrect(lat: real, lng: real)
    ensures forall i | 0 <= i < |KnownPlaces| && InBox(KnownPlaces[i], lat, lng) ::
      ApproximateLocation(lat, lng) == KnownPlaces[i].name
    ensures (forall i | 0 <= i < |KnownPlaces| :: !InBox(KnownPlaces[i], lat, lng)) ==>
      ApproximateLocation(lat, lng) == GetRegion(lat, lng).Label()
  {
    var r := PlaceFrom(KnownPlaces, 0, lat, lng);
    forall i | 0 <= i < |KnownPlaces| && InBox(KnownPlaces[i], lat, lng)
      ensures ApproximateLocation(lat, lng) == KnownPlaces[i].name
    {
      assert r.Some?;
      if r.value < i {
        KnownPlacesDisjoint(r.value, i, lat, lng);
      } else if r.value > i {
        assert false;
      }
    }
  }
}
