/** The geological model of sgu-data.ts: land-uplift regions and rates, the
    three-phase uplift curve, the Baltic Sea phase table, the sea-status
    resolver and the pure part of the per-location analysis. */
module SguData {
  import opened Basics

  // ---------------------------------------------------------------------------
  // Uplift regions and rates
  // ---------------------------------------------------------------------------

  /** The ten land-uplift regions (the keys of the rate table). */
  datatype Region =
    | HogaKusten | NorrlandKust | NorrlandInland | SvealandKust | Stockholm
    | Gotland | GotalandVast | GotalandOst | Skane | Danmark
  {
    /** The string under which the source's tables store this region. */
    function Key(): string
    {
      match this
      case HogaKusten => "höga_kusten"
      case NorrlandKust => "norrland_kust"
      case NorrlandInland => "norrland_inland"
      case SvealandKust => "svealand_kust"
      case Stockholm => "stockholm"
      case Gotland => "gotland"
      case GotalandVast => "götaland_väst"
      case GotalandOst => "götaland_öst"
      case Skane => "skåne"
      case Danmark => "danmark"
    }

    /** The regions whose key contains "norrland", plus Höga kusten. */
    predicate IsNorthern()
    {
      this == NorrlandKust || this == NorrlandInland || this == HogaKusten
    }
  }

  /** Present-day uplift in mm/year, keyed by region. */
  const LandUpliftRates: map<string, real> := map[
    "höga_kusten" := 8.5,
    "norrland_kust" := 7.5,
    "norrland_inland" := 8.0,
    "svealand_kust" := 5.0,
    "stockholm" := 4.5,
    "gotland" := 2.0,
    "götaland_väst" := 3.0,
    "götaland_öst" := 2.5,
    "skåne" := 0.5,
    "danmark" := 0.0
  ]

  /** The bounding-box tests of getUpliftRegion in source order; None stands for
      falling off the end of the cascade. */
  function BoxCascade(lat: real, lng: real): (r: Option<Region>)
    ensures r.Some?
  {
    if 62.5 <= lat <= 63.5 && 17.0 <= lng <= 19.0 then Some(HogaKusten)
    else if lat > 63.0 then Some(if lng < 16.0 then NorrlandInland else NorrlandKust)
    else if 60.0 < lat <= 63.0 then Some(if lng > 17.0 then NorrlandKust else SvealandKust)
    else if 58.5 < lat <= 60.0 then Some(if 17.0 < lng < 19.5 then Stockholm else SvealandKust)
    else if 56.9 < lat < 58.0 && 18.0 < lng < 19.5 then Some(Gotland)
    else if 56.0 < lat <= 58.5 then Some(if lng < 14.0 then GotalandVast else GotalandOst)
    else if lat <= 56.0 && lat > 55.3 then Some(Skane)
    else if lat <= 55.3 || lng < 11.0 then Some(Danmark)
    else None
  }

  /** getUpliftRegion: the cascade, with "svealand_kust" as the final fallback. */
  function UpliftRegion(lat: real, lng: real): (r: Region)
    ensures r.Key() in LandUpliftRates
    ensures 62.5 <= lat <= 63.5 && 17.0 <= lng <= 19.0 ==> r == HogaKusten
    ensures lat <= 55.3 ==> r == Danmark
    ensures 55.3 < lat <= 56.0 ==> r == Skane
    ensures 56.0 < lat <= 58.5 ==> r in {Gotland, GotalandVast, GotalandOst}
    ensures 58.5 < lat <= 60.0 ==> r in {Stockholm, SvealandKust}
    ensures 60.0 < lat ==> r.IsNorthern() || r == SvealandKust
    ensures r.IsNorthern() ==> lat > 60.0
  {
    BoxCascade(lat, lng).GetOr(SvealandKust)
  }

  /** `LAND_UPLIFT_RATES[region] || 3.0`: a zero (or missing) rate counts as 3.0. */
  function EffectiveRate(region: Region): (rate: real)
    ensures rate > 0.0
    ensures region == Danmark ==> rate == 3.0
    ensures region != Danmark ==> rate == LandUpliftRates[region.Key()]
  {
    var key := region.Key();
    if key in LandUpliftRates && LandUpliftRates[key] != 0.0 then LandUpliftRates[key] else 3.0
  }

  // ---------------------------------------------------------------------------
  // Three-phase uplift curve
  // ---------------------------------------------------------------------------

  function Clamp(x: real, lo: real, hi: real): (r: real)
    requires lo <= hi
    ensures lo <= r <= hi
  {
    if x < lo then lo else if x > hi then hi else x
  }

  /** Years weighted by the phase multipliers: 12x for the part beyond 10000 BP
      (at most 4000 years), 4x between 5000 and 10000 BP, 1x below 5000 BP. */
  function WeightedYears(yearsBP: real): real
  {
    12.0 * Clamp(yearsBP - 10000.0, 0.0, 4000.0)
    + 4.0 * Clamp(Min(yearsBP, 10000.0) - 5000.0, 0.0, 5000.0)
    + Min(yearsBP, 5000.0)
  }

  /** Closed form of the uplift (metres, before rounding) for a rate in mm/year. */
  function UpliftModel(rate: real, yearsBP: real): real
  {
    rate / 1000.0 * WeightedYears(yearsBP)
  }

  /** The source's sequence of phases: each phase consumes its years and caps
      yearsBP at the phase's lower breakpoint. */
  function SegmentedUplift(rate: real, yearsBP: real): (total: real)
    ensures total == UpliftModel(rate, yearsBP)
  {
    var fast := if yearsBP > 10000.0 then Min(yearsBP - 10000.0, 4000.0) * rate * 12.0 / 1000.0 else 0.0;
    var y1 := if yearsBP > 10000.0 then 10000.0 else yearsBP;
    var medium := if y1 > 5000.0 then Min(y1 - 5000.0, 5000.0) * rate * 4.0 / 1000.0 else 0.0;
    var y2 := if y1 > 5000.0 then 5000.0 else y1;
    fast + medium + y2 * rate / 1000.0
  }

  /** calculateTotalUplift: rounded uplift in metres since `yearsBP`. */
  function TotalUplift(lat: real, lng: real, yearsBP: real): (r: int)
    ensures r == Round(UpliftModel(EffectiveRate(UpliftRegion(lat, lng)), yearsBP))
  {
    Round(SegmentedUplift(EffectiveRate(UpliftRegion(lat, lng)), yearsBP))
  }

  lemma WeightedYearsMonotone(y1: real, y2: real)
    requires y1 <= y2
    ensures WeightedYears(y1) <= WeightedYears(y2)
  {
  }

  lemma ScaleMonotone(a: real, x: real, y: real)
    requires a >= 0.0 && x <= y
    ensures a * x <= a * y
  {
    assert a * y - a * x == a * (y - x);
  }

  /** Uplift never decreases as one goes further back in time. */
  lemma UpliftModelMonotone(rate: real, y1: real, y2: real)
    requires rate >= 0.0 && y1 <= y2
    ensures UpliftModel(rate, y1) <= UpliftModel(rate, y2)
  {
    WeightedYearsMonotone(y1, y2);
    ScaleMonotone(rate / 1000.0, WeightedYears(y1), WeightedYears(y2));
  }

  lemma {:induction false} UpliftMonotone(lat: real, lng: real, y1: real, y2: real)
    requires y1 <= y2
    ensures TotalUplift(lat, lng, y1) <= TotalUplift(lat, lng, y2)
  {
    var rate := EffectiveRate(UpliftRegion(lat, lng));
    UpliftModelMonotone(rate, y1, y2);
    RoundMonotone(UpliftModel(rate, y1), UpliftModel(rate, y2));
  }

  /** Uplift is non-negative for any non-negative age. */
  lemma {:induction false} UpliftNonNegative(lat: real, lng: real, yearsBP: real)
    requires yearsBP >= 0.0
    ensures TotalUplift(lat, lng, yearsBP) >= 0
  {
    var rate := EffectiveRate(UpliftRegion(lat, lng));
    ScaleMonotone(rate / 1000.0, 0.0, WeightedYears(yearsBP));
  }

  /** Beyond 14000 BP the curve is flat: every phase is exhausted. */
  lemma UpliftSaturates(lat: real, lng: real, yearsBP: real)
    requires yearsBP >= 14000.0
    ensures TotalUplift(lat, lng, yearsBP) == TotalUplift(lat, lng, 14000.0)
  {
  }

  /** Höga kusten at 12000 BP: 204 + 170 + 42.5 = 416.5 m, rounded to 417. */
  lemma HogaKustenExample()
    ensures UpliftRegion(63.0, 18.0) == HogaKusten
    ensures TotalUplift(63.0, 18.0, 12000.0) == 417
  {
    assert UpliftModel(8.5, 12000.0) == 416.5;
  }

  // ---------------------------------------------------------------------------
  // Baltic Sea phases
  // ---------------------------------------------------------------------------

  datatype Salinity = Freshwater | Brackish | Marine

  /** A Baltic stage covering the years BP in [endYear, startYear). */
  datatype SeaPhase = SeaPhase(
    name: string,
    startYear: int,
    endYear: int,
    seaLevel: int,
    salinity: Salinity,
    description: string)

  const BalticSeaPhases: seq<SeaPhase> := [
    SeaPhase("Baltiska issjön", 14000, 11700, 25, Freshwater,
      "Sötvattenssjö dämmd av inlandsisen"),
    SeaPhase("Yoldiahavet", 11700, 10700, -25, Brackish,
      "Bräckt hav med förbindelse till Atlanten via Mellansverige"),
    SeaPhase("Ancylussjön", 10700, 9000, -10, Freshwater,
      "Stor sötvattensjö utan havsförbindelse"),
    SeaPhase("Littorinahavet (tidig)", 9000, 6000, 5, Marine,
      "Salt hav, havsytan stiger, varmt klimat"),
    SeaPhase("Littorinahavet (sen)", 6000, 4000, 3, Marine,
      "Högsta havsnivån, varm period"),
    SeaPhase("Postlittorina/Östersjön", 4000, 0, 0, Brackish,
      "Gradvis övergång till dagens bräckta Östersjö")
  ]

  predicate InPhase(phase: SeaPhase, yearsBP: real)
  {
    phase.endYear as real <= yearsBP < phase.startYear as real
  }

  /** The scan of getSeaPhase from index `from`: the first phase containing `yearsBP`. */
  function FindPhase(phases: seq<SeaPhase>, yearsBP: real, from: nat): (r: Option<nat>)
    requires from <= |phases|
    ensures r.Some? ==> from <= r.value < |phases| && InPhase(phases[r.value], yearsBP)
    ensures r.Some? ==> forall j | from <= j < r.value :: !InPhase(phases[j], yearsBP)
    ensures r.None? ==> forall j | from <= j < |phases| :: !InPhase(phases[j], yearsBP)
    decreases |phases| - from
  {
    if from == |phases| then None
    else if InPhase(phases[from], yearsBP) then Some(from)
    else FindPhase(phases, yearsBP, from + 1)
  }

  /** getSeaPhase: the first containing phase, else the most recent one. */
  function GetSeaPhase(yearsBP: real): (phase: SeaPhase)
    ensures phase in BalticSeaPhases
  {
    match FindPhase(BalticSeaPhases, yearsBP, 0)
    case Some(i) => BalticSeaPhases[i]
    case None => BalticSeaPhases[|BalticSeaPhases| - 1]
  }

  /** Each phase is a non-empty interval and each one ends where the next begins. */
  predicate Contiguous(phases: seq<SeaPhase>)
  {
    && (forall i | 0 <= i < |phases| :: phases[i].endYear < phases[i].startYear)
    && (forall i | 0 <= i < |phases| - 1 :: phases[i].endYear == phases[i + 1].startYear)
  }

  lemma BalticPhasesContiguous()
    ensures Contiguous(BalticSeaPhases)
    ensures BalticSeaPhases[0].startYear == 14000
    ensures BalticSeaPhases[|BalticSeaPhases| - 1].endYear == 0
  {
  }

  /** In a contiguous table a later phase starts no later than an earlier one ends. */
  lemma {:induction false} ContiguousOrdered(phases: seq<SeaPhase>, i: nat, j: nat)
    requires Contiguous(phases)
    requires i < j < |phases|
    ensures phases[j].startYear <= phases[i].endYear
    decreases j - i
  {
    if j > i + 1 {
      ContiguousOrdered(phases, i, j - 1);
    }
  }

  /** The intervals of a contiguous table are pairwise disjoint. */
  lemma ContiguousDisjoint(phases: seq<SeaPhase>, i: nat, j: nat, yearsBP: real)
    requires Contiguous(phases)
    requires i < |phases| && j < |phases|
    requires InPhase(phases[i], yearsBP) && InPhase(phases[j], yearsBP)
    ensures i == j
  {
    if i < j {
      ContiguousOrdered(phases, i, j);
    } else if j < i {
      ContiguousOrdered(phases, j, i);
    }
  }

  /** A contiguous table covers everything from its last end to the start at `from`. */
  lemma {:induction false} ContiguousCovers(phases: seq<SeaPhase>, yearsBP: real, from: nat)
    requires Contiguous(phases)
    requires from < |phases|
    requires phases[|phases| - 1].endYear as real <= yearsBP < phases[from].startYear as real
    ensures FindPhase(phases, yearsBP, from).Some?
    decreases |phases| - from
  {
    if !InPhase(phases[from], yearsBP) {
      assert from < |phases| - 1;
      ContiguousCovers(phases, yearsBP, from + 1);
    }
  }

  /** For 0 <= yearsBP < 14000, getSeaPhase returns exactly the phase whose
      half-open interval contains yearsBP. */
  lemma SeaPhaseInRange(yearsBP: real)
    requires 0.0 <= yearsBP < 14000.0
    ensures InPhase(GetSeaPhase(yearsBP), yearsBP)
    ensures forall i | 0 <= i < |BalticSeaPhases| ::
      InPhase(BalticSeaPhases[i], yearsBP) <==> BalticSeaPhases[i] == GetSeaPhase(yearsBP)
  {
    BalticPhasesContiguous();
    ContiguousCovers(BalticSeaPhases, yearsBP, 0);
    var k := FindPhase(BalticSeaPhases, yearsBP, 0).value;
    forall i | 0 <= i < |BalticSeaPhases| && InPhase(BalticSeaPhases[i], yearsBP)
      ensures i == k
    {
      ContiguousDisjoint(BalticSeaPhases, i, k, yearsBP);
    }
  }

  /** Outside [0, 14000) the lookup saturates to the most recent phase. */
  lemma SeaPhaseOutOfRange(yearsBP: real)
    requires yearsBP < 0.0 || yearsBP >= 14000.0
    ensures GetSeaPhase(yearsBP) == BalticSeaPhases[5]
    ensures GetSeaPhase(yearsBP).name == "Postlittorina/Östersjön"
  {
    assert forall i | 0 <= i < |BalticSeaPhases| :: !InPhase(BalticSeaPhases[i], yearsBP);
  }

  /** A phase whose interval contains the year is the phase looked up. */
  lemma SeaPhaseIs(yearsBP: real, i: nat)
    requires i < |BalticSeaPhases| && InPhase(BalticSeaPhases[i], yearsBP)
    ensures GetSeaPhase(yearsBP) == BalticSeaPhases[i]
  {
    SeaPhaseInRange(yearsBP);
  }

  /** Boundary years belong to the older phase (half-open intervals). */
  lemma SeaPhaseBoundaries()
    ensures GetSeaPhase(11700.0) == BalticSeaPhases[0]
    ensures GetSeaPhase(10700.0) == BalticSeaPhases[1]
    ensures GetSeaPhase(9000.0) == BalticSeaPhases[2]
    ensures GetSeaPhase(6000.0) == BalticSeaPhases[3]
    ensures GetSeaPhase(4000.0) == BalticSeaPhases[4]
    ensures GetSeaPhase(0.0) == BalticSeaPhases[5]
  {
    SeaPhaseIs(11700.0, 0);
    SeaPhaseIs(10700.0, 1);
    SeaPhaseIs(9000.0, 2);
    SeaPhaseIs(6000.0, 3);
    SeaPhaseIs(4000.0, 4);
    SeaPhaseIs(0.0, 5);
  }

  // ---------------------------------------------------------------------------
  // Sea status
  // ---------------------------------------------------------------------------

  datatype SeaStatus = SeaStatus(
    wasUnderwater: bool,
    historicalElevation: real,
    seaLevel: real,
    seaPhase: SeaPhase,
    uplift: int,
    description: string)

  function WaterSentence(salinity: Salinity): string
  {
    match salinity
    case Freshwater => "Vattnet var sött."
    case Brackish => "Vattnet var bräckt."
    case Marine => "Vattnet var salt, liknande Nordsjön."
  }

  const SubmergedOpening := "Denna plats låg "
  const EmergedOpening := "Denna plats var land, "

  function SeaNarrative(wasUnderwater: bool, historicalElevation: real, phase: SeaPhase, uplift: int): (text: string)
    ensures wasUnderwater ==> SubmergedOpening <= text
    ensures !wasUnderwater ==> EmergedOpening <= text
  {
    if wasUnderwater then
      var rest := IntToString(Round(phase.seaLevel as real - historicalElevation))
        + " meter under " + phase.name + "s yta. "
        + phase.description + ". "
        + WaterSentence(phase.salinity);
      PrefixOfAppend(SubmergedOpening, rest);
      SubmergedOpening + rest
    else
      var rest := IntToString(Round(historicalElevation - phase.seaLevel as real))
        + " meter över " + phase.name + "s yta. "
        + "Sedan dess har marken höjts cirka " + IntToString(uplift)
        + " meter på grund av landhöjning efter istiden.";
      PrefixOfAppend(EmergedOpening, rest);
      EmergedOpening + rest
  }

  /** calculateHistoricalSeaStatus for a present-day elevation in metres. */
  function SeaStatusAt(currentElevation: real, lat: real, lng: real, yearsBP: real): (s: SeaStatus)
    ensures s.uplift == TotalUplift(lat, lng, yearsBP)
    ensures s.seaPhase == GetSeaPhase(yearsBP)
    ensures s.historicalElevation == currentElevation - s.uplift as real
    ensures s.seaLevel == s.seaPhase.seaLevel as real
    ensures s.wasUnderwater <==> s.historicalElevation < s.seaLevel
    ensures s.wasUnderwater ==> s.seaLevel - s.historicalElevation > 0.0
    ensures s.wasUnderwater ==> SubmergedOpening <= s.description
    ensures !s.wasUnderwater ==> EmergedOpening <= s.description
  {
    var uplift := TotalUplift(lat, lng, yearsBP);
    var phase := GetSeaPhase(yearsBP);
    var historical := currentElevation - uplift as real;
    var under := historical < phase.seaLevel as real;
    SeaStatus(under, historical, phase.seaLevel as real, phase, uplift,
      SeaNarrative(under, historical, phase, uplift))
  }

  /** Lower ground is submerged whenever higher ground at the same place and time is. */
  lemma SubmersionMonotone(e1: real, e2: real, lat: real, lng: real, yearsBP: real)
    requires e1 <= e2
    requires SeaStatusAt(e2, lat, lng, yearsBP).wasUnderwater
    ensures SeaStatusAt(e1, lat, lng, yearsBP).wasUnderwater
    ensures SeaStatusAt(e2, lat, lng, yearsBP).seaLevel - SeaStatusAt(e2, lat, lng, yearsBP).historicalElevation
         <= SeaStatusAt(e1, lat, lng, yearsBP).seaLevel - SeaStatusAt(e1, lat, lng, yearsBP).historicalElevation
  {
  }

  /** Skåne, 7000 BP (early Littorina Sea, sea level +5 m): 6.5 m of uplift rounds
      to 7, so 3 m today lay 9 m under the surface, and 12 m today was level with it,
      which does not count as submerged. */
  lemma SkaneLittorinaExample()
    ensures SeaStatusAt(3.0, 55.6, 13.0, 7000.0).uplift == 7
    ensures SeaStatusAt(3.0, 55.6, 13.0, 7000.0).wasUnderwater
    ensures SeaStatusAt(3.0, 55.6, 13.0, 7000.0).historicalElevation == -4.0
    ensures !SeaStatusAt(12.0, 55.6, 13.0, 7000.0).wasUnderwater
  {
    SeaPhaseIs(7000.0, 3);
    assert UpliftRegion(55.6, 13.0) == Skane;
    assert UpliftModel(0.5, 7000.0) == 6.5;
    assert TotalUplift(55.6, 13.0, 7000.0) == 7;
  }

  // ---------------------------------------------------------------------------
  // Elevation provider
  // ---------------------------------------------------------------------------

  /** Estimated elevation in metres, keyed by region. */
  const ElevationEstimates: map<string, int> := map[
    "höga_kusten" := 50,
    "norrland_kust" := 30,
    "norrland_inland" := 300,
    "svealand_kust" := 20,
    "stockholm" := 15,
    "gotland" := 30,
    "götaland_väst" := 50,
    "götaland_öst" := 100,
    "skåne" := 50,
    "danmark" := 20
  ]

  /** estimateElevation: the regional estimate, `|| 50` for a missing or zero entry. */
  function EstimateElevation(lat: real, lng: real): (e: int)
    ensures e > 0
    ensures e == ElevationEstimates[UpliftRegion(lat, lng).Key()]
  {
    var key := UpliftRegion(lat, lng).Key();
    if key in ElevationEstimates && ElevationEstimates[key] != 0 then ElevationEstimates[key] else 50
  }

  /** What the elevation service delivered: a failure (network error or a non-OK
      status) or an OK body, which may lack an elevation. */
  datatype ElevationResponse = Failed | Answered(elevation: Option<real>)

  /** fetchElevation: the answered value, 0 for an answer without elevation, and
      the regional estimate when the request failed. The source's `|| 0` only
      maps a missing (or zero) elevation to 0, so an answered value is kept as is. */
  function ResolveElevation(response: ElevationResponse, lat: real, lng: real): (e: real)
    ensures response.Failed? ==> e == EstimateElevation(lat, lng) as real
    ensures response.Answered? && response.elevation.Some? ==> e == response.elevation.value
    ensures response.Answered? && response.elevation.None? ==> e == 0.0
  {
    match response
    case Failed => EstimateElevation(lat, lng) as real
    case Answered(Some(v)) => v
    case Answered(None) => 0.0
  }

  // ---------------------------------------------------------------------------
  // Stone-age periods and the per-location analysis
  // ---------------------------------------------------------------------------

  datatype StonePeriod = StonePeriod(id: string, name: string, yearsBP: int, yearRange: string, culture: string)

  const StoneAgePeriods: seq<StonePeriod> := [
    StonePeriod("late_glacial", "Senglacial tid", 12000, "14000-11700 BP", "Hamburgkulturen"),
    StonePeriod("preboreal", "Preboreal", 10500, "11700-10200 BP", "Maglemosekulturen"),
    StonePeriod("boreal", "Boreal", 9000, "10200-8000 BP", "Maglemosekulturen"),
    StonePeriod("atlantic_early", "Äldre Atlantikum", 7000, "8000-6000 BP", "Kongemosekulturen"),
    StonePeriod("atlantic_late", "Yngre Atlantikum", 5500, "6000-5000 BP", "Ertebøllekulturen"),
    StonePeriod("subboreal", "Subboreal (Neolitikum)", 4000, "5000-2500 BP", "Trattbägarkulturen")
  ]

  /** The period analyzeLocation works with: the one named, else "Äldre Atlantikum". */
  function ResolveStonePeriod(id: string): (p: StonePeriod)
    ensures p in StoneAgePeriods
    ensures (exists i | 0 <= i < |StoneAgePeriods| :: StoneAgePeriods[i].id == id) ==> p.id == id
    ensures (forall i | 0 <= i < |StoneAgePeriods| :: StoneAgePeriods[i].id != id) ==> p == StoneAgePeriods[3]
  {
    match FirstIndex(StoneAgePeriods, (p: StonePeriod) => p.id == id, 0)
    case Some(i) => StoneAgePeriods[i]
    case None => StoneAgePeriods[3]
  }

  datatype LandCover = LandCover(landscape: string, vegetation: string, fauna: string)

  /** The temperate trees the northern regions replace with boreal ones. */
  const TemperateTrees := "Ek, alm, lind"
  const BorealTrees := "Tall, gran, björk"
  const Aurochs := "uroxe"
  const Reindeer := "ren"

  const TundraVegetation := "Lavar, mossor, dvärgbjörk, vide"
  const TundraFauna := "Ren, fjällräv, lämmel, mammut (utdöende)"
  const BirchForestVegetation := "Björk, tall börjar etableras, vide"
  const BirchForestFauna := "Älg, ren, bäver, varg, björn"
  const DeciduousVegetationTail := ", ask, hassel"
  const DeciduousFaunaHead := "Kronhjort, vildsvin, "
  const DeciduousFaunaTail := ", älg, säl vid kust"
  const EarlyFarmingVegetation := "Blandskog, betesmarker, tidiga åkrar"
  const EarlyFarmingFauna := "Tamboskap, kronhjort, vildsvin, häst (tam)"

  const TundraCover := LandCover("Tundra och glaciärnära landskap, permafrost",
    TundraVegetation, TundraFauna)
  const BirchForestCover := LandCover("Öppen björkskog, många sjöar från smältvatten",
    BirchForestVegetation, BirchForestFauna)
  const DeciduousForestCover := LandCover("Tät lövskog, klimatoptimum (2-3°C varmare)",
    TemperateTrees + DeciduousVegetationTail, DeciduousFaunaHead + Aurochs + DeciduousFaunaTail)
  const EarlyFarmingCover := LandCover("Öppnare landskap, tidigt jordbruk",
    EarlyFarmingVegetation, EarlyFarmingFauna)

  /** The dry-land bracket cascade on the period's age. */
  function LandCoverFor(yearsBP: int): LandCover
  {
    if yearsBP > 10000 then TundraCover
    else if yearsBP > 8000 then BirchForestCover
    else if yearsBP > 5000 then DeciduousForestCover
    else EarlyFarmingCover
  }

  /** The regional adjustment: boreal trees for temperate ones, reindeer for aurochs. */
  function NorthernVariant(cover: LandCover): LandCover
  {
    LandCover(cover.landscape,
      ReplaceFirst(cover.vegetation, TemperateTrees, BorealTrees),
      ReplaceFirst(cover.fauna, Aurochs, Reindeer))
  }

  /** The end of the tundra fauna: one 'u', followed by 't'. */
  lemma TundraFaunaTail(c: string)
    requires c == "utdöende)"
    ensures ReplaceFirst(c, Aurochs, Reindeer) == c
  {
    ReplaceFirstMismatch(c, Aurochs, Reindeer);
    ReplaceFirstAbsent(c[1..], Aurochs, Reindeer);
    assert [c[0]] + c[1..] == c;
  }

  /** One more 'u' followed by 't' in front of an unchanged tail. */
  lemma TundraFaunaMiddle(b: string, c: string)
    requires b == "ut (" && ReplaceFirst(c, Aurochs, Reindeer) == c
    ensures ReplaceFirst(b + c, Aurochs, Reindeer) == b + c
  {
    ReplaceFirstSkip(b[1..], c, Aurochs, Reindeer);
    ReplaceFirstMismatch(b + c, Aurochs, Reindeer);
    assert (b + c)[1..] == b[1..] + c;
    assert [(b + c)[0]] + (b[1..] + c) == b + c;
  }

  /** The tundra fauna, taken apart at its two 'u's. */
  lemma TundraFaunaPieces(a: string, b: string, c: string)
    requires a == "Ren, fjällräv, lämmel, mamm" && b == "ut (" && c == "utdöende)"
    ensures ReplaceFirst(a + (b + c), Aurochs, Reindeer) == a + (b + c)
  {
    TundraFaunaTail(c);
    TundraFaunaMiddle(b, c);
    ReplaceFirstSkip(a, b + c, Aurochs, Reindeer);
  }

  /** The tundra fauna mentions 'u' twice, never followed by 'r', so the aurochs
      substitution finds nothing. */
  lemma TundraFaunaUnchanged()
    ensures ReplaceFirst(TundraFauna, Aurochs, Reindeer) == TundraFauna
  {
    var a, b, c := "Ren, fjällräv, lämmel, mamm", "ut (", "utdöende)";
    assert TundraFauna == a + (b + c);
    TundraFaunaPieces(a, b, c);
  }

  /** The tundra vegetation has no 'E', so the tree substitution finds nothing. */
  lemma TundraVegetationUnchanged(vegetation: string)
    requires vegetation == TundraVegetation
    ensures ReplaceFirst(vegetation, TemperateTrees, BorealTrees) == vegetation
  {
    assert TemperateTrees[0] !in vegetation;
    TreesAbsent(vegetation);
  }

  lemma TundraKept()
    ensures NorthernVariant(TundraCover) == TundraCover
  {
    TundraVegetationUnchanged(TundraVegetation);
    TundraFaunaUnchanged();
  }

  /** A vegetation without the 'E' that starts the temperate trees is left alone. */
  lemma TreesAbsent(vegetation: string)
    requires TemperateTrees[0] !in vegetation
    ensures ReplaceFirst(vegetation, TemperateTrees, BorealTrees) == vegetation
  {
    ReplaceFirstAbsent(vegetation, TemperateTrees, BorealTrees);
  }

  /** A fauna without the 'u' that starts the aurochs is left alone. */
  lemma AurochsAbsent(fauna: string)
    requires Aurochs[0] !in fauna
    ensures ReplaceFirst(fauna, Aurochs, Reindeer) == fauna
  {
    ReplaceFirstAbsent(fauna, Aurochs, Reindeer);
  }

  lemma BirchForestVegetationKept(vegetation: string)
    requires vegetation == BirchForestVegetation
    ensures ReplaceFirst(vegetation, TemperateTrees, BorealTrees) == vegetation
  {
    assert TemperateTrees[0] !in vegetation;
    TreesAbsent(vegetation);
  }

  lemma BirchForestFaunaKept(fauna: string)
    requires fauna == BirchForestFauna
    ensures ReplaceFirst(fauna, Aurochs, Reindeer) == fauna
  {
    assert Aurochs[0] !in fauna;
    AurochsAbsent(fauna);
  }

  lemma EarlyFarmingVegetationKept(vegetation: string)
    requires vegetation == EarlyFarmingVegetation
    ensures ReplaceFirst(vegetation, TemperateTrees, BorealTrees) == vegetation
  {
    assert TemperateTrees[0] !in vegetation;
    TreesAbsent(vegetation);
  }

  lemma EarlyFarmingFaunaKept(fauna: string)
    requires fauna == EarlyFarmingFauna
    ensures ReplaceFirst(fauna, Aurochs, Reindeer) == fauna
  {
    assert Aurochs[0] !in fauna;
    AurochsAbsent(fauna);
  }

  lemma BirchForestKept()
    ensures NorthernVariant(BirchForestCover) == BirchForestCover
  {
    BirchForestVegetationKept(BirchForestVegetation);
    BirchForestFaunaKept(BirchForestFauna);
  }

  lemma EarlyFarmingKept()
    ensures NorthernVariant(EarlyFarmingCover) == EarlyFarmingCover
  {
    EarlyFarmingVegetationKept(EarlyFarmingVegetation);
    EarlyFarmingFaunaKept(EarlyFarmingFauna);
  }

  /** Tundra, birch forest and early farming: the substitution patterns never occur. */
  lemma NorthernVariantKeepsOtherBrackets(yearsBP: int)
    requires !(5000 < yearsBP <= 8000)
    ensures NorthernVariant(LandCoverFor(yearsBP)) == LandCoverFor(yearsBP)
  {
    if yearsBP > 10000 {
      TundraKept();
    } else if yearsBP > 8000 {
      BirchForestKept();
    } else {
      EarlyFarmingKept();
    }
  }

  /** The temperate forest: boreal trees and reindeer take the place of the
      temperate trees and the aurochs. */
  lemma NorthernVariantDeciduous()
    ensures NorthernVariant(DeciduousForestCover) ==
      LandCover(DeciduousForestCover.landscape, BorealTrees + DeciduousVegetationTail,
        DeciduousFaunaHead + Reindeer + DeciduousFaunaTail)
  {
    ReplaceFirstHere(TemperateTrees, DeciduousVegetationTail, BorealTrees);
    var rest := Aurochs + DeciduousFaunaTail;
    assert DeciduousForestCover.fauna == DeciduousFaunaHead + rest;
    ReplaceFirstSkip(DeciduousFaunaHead, rest, Aurochs, Reindeer);
    ReplaceFirstHere(Aurochs, DeciduousFaunaTail, Reindeer);
    assert DeciduousFaunaHead + (Reindeer + DeciduousFaunaTail) == DeciduousFaunaHead + Reindeer + DeciduousFaunaTail;
  }

  /** The northern adjustment only changes the (5000, 8000] bracket. */
  lemma NorthernVariantEffect(yearsBP: int)
    ensures !(5000 < yearsBP <= 8000) ==> NorthernVariant(LandCoverFor(yearsBP)) == LandCoverFor(yearsBP)
    ensures 5000 < yearsBP <= 8000 ==>
      NorthernVariant(LandCoverFor(yearsBP)).vegetation == BorealTrees + DeciduousVegetationTail
    ensures 5000 < yearsBP <= 8000 ==>
      NorthernVariant(LandCoverFor(yearsBP)).fauna == DeciduousFaunaHead + Reindeer + DeciduousFaunaTail
  {
    if 5000 < yearsBP <= 8000 {
      NorthernVariantDeciduous();
    } else {
      NorthernVariantKeepsOtherBrackets(yearsBP);
    }
  }

  datatype GeoAnalysis = GeoAnalysis(
    period: StonePeriod,
    elevation: real,
    region: Region,
    seaStatus: SeaStatus,
    landscape: string,
    vegetation: string,
    fauna: string)

  const SeabedPrefix := "Havsbotten under "
  const FreshwaterVegetation := "Alger, vass vid stränder"
  const MarineVegetation := "Marina alger, tång"
  const FreshwaterFauna := "Sötvattensfisk, säl (vid kuster)"
  const MarineFauna := "Torsk, sill, säl, tumlare"

  /** The sea floor of a submerged location: only fresh water versus any other
      salinity makes a difference. */
  function SeabedCover(phase: SeaPhase): (c: LandCover)
    ensures c.landscape == SeabedPrefix + phase.name
    ensures phase.salinity == Freshwater <==> c.vegetation == FreshwaterVegetation
    ensures phase.salinity == Freshwater <==> c.fauna == FreshwaterFauna
  {
    if phase.salinity == Freshwater then LandCover(SeabedPrefix + phase.name, FreshwaterVegetation, FreshwaterFauna)
    else LandCover(SeabedPrefix + phase.name, MarineVegetation, MarineFauna)
  }

  /** Dry land: the bracket's cover, adjusted in the northern regions. */
  function DryLandCover(region: Region, yearsBP: int): (c: LandCover)
    ensures c.landscape == LandCoverFor(yearsBP).landscape
    ensures !region.IsNorthern() || !(5000 < yearsBP <= 8000) ==> c == LandCoverFor(yearsBP)
    ensures region.IsNorthern() && 5000 < yearsBP <= 8000 ==>
      c.vegetation == BorealTrees + DeciduousVegetationTail && c.fauna == DeciduousFaunaHead + Reindeer + DeciduousFaunaTail
  {
    NorthernVariantEffect(yearsBP);
    var base := LandCoverFor(yearsBP);
    if region.IsNorthern() then NorthernVariant(base) else base
  }

  /** analyzeLocation with the resolved elevation passed in. */
  function AnalyzeLocation(lat: real, lng: real, periodId: string, elevation: real): (g: GeoAnalysis)
    ensures g.period == ResolveStonePeriod(periodId)
    ensures g.region == UpliftRegion(lat, lng)
    ensures g.elevation == elevation
    ensures g.seaStatus == SeaStatusAt(elevation, lat, lng, g.period.yearsBP as real)
    ensures g.seaStatus.wasUnderwater ==>
      LandCover(g.landscape, g.vegetation, g.fauna) == SeabedCover(g.seaStatus.seaPhase)
    ensures !g.seaStatus.wasUnderwater ==>
      LandCover(g.landscape, g.vegetation, g.fauna) == DryLandCover(g.region, g.period.yearsBP)
  {
    var period := ResolveStonePeriod(periodId);
    var region := UpliftRegion(lat, lng);
    var status := SeaStatusAt(elevation, lat, lng, period.yearsBP as real);
    var cover := if status.wasUnderwater then SeabedCover(status.seaPhase) else DryLandCover(region, period.yearsBP);
    GeoAnalysis(period, elevation, region, status, cover.landscape, cover.vegetation, cover.fauna)
  }
}
