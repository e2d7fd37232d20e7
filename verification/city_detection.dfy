/** The location classifier of city-detection.ts: the catalog of Swedish towns,
    the coast heuristic, the urban / coastal / rural decision with its narrative,
    and the per-town description lookup. Great-circle distance is a parameter. */
module CityDetection {
  import opened Basics

  // ---------------------------------------------------------------------------
  // Catalog
  // ---------------------------------------------------------------------------

  datatype HistoricalType = AncientSettlement | MedievalTown | EarlyModern | Industrial | Modern

  /** A catalog town; `foundedYear` is negative for years BC. */
  datatype CityInfo = CityInfo(
    name: string,
    lat: real,
    lng: real,
    foundedYear: int,
    historicalType: HistoricalType,
    population: nat)

  const SwedishCities: seq<CityInfo> := [
    CityInfo("Stockholm", 59.3293, 18.0686, 1252, MedievalTown, 1000000),
    CityInfo("Göteborg", 57.7089, 11.9746, 1621, EarlyModern, 580000),
    CityInfo("Malmö", 55.6050, 13.0038, 1275, MedievalTown, 350000),
    CityInfo("Uppsala", 59.8586, 17.6389, 1164, MedievalTown, 170000),
    CityInfo("Linköping", 58.4108, 15.6214, 1287, MedievalTown, 160000),
    CityInfo("Västerås", 59.6099, 16.5448, 1000, AncientSettlement, 155000),
    CityInfo("Örebro", 59.2753, 15.2134, 1200, MedievalTown, 150000),
    CityInfo("Norrköping", 58.5877, 16.1924, 1350, MedievalTown, 140000),
    CityInfo("Helsingborg", 56.0465, 12.6945, 1085, MedievalTown, 145000),
    CityInfo("Jönköping", 57.7826, 14.1618, 1284, MedievalTown, 140000),
    CityInfo("Lund", 55.7047, 13.1910, 990, AncientSettlement, 125000),
    CityInfo("Umeå", 63.8258, 20.2630, 1622, EarlyModern, 130000),
    CityInfo("Gävle", 60.6749, 17.1413, 1446, MedievalTown, 100000),
    CityInfo("Borås", 57.7210, 12.9401, 1621, EarlyModern, 110000),
    CityInfo("Sundsvall", 62.3908, 17.3069, 1621, EarlyModern, 100000),
    CityInfo("Eskilstuna", 59.3666, 16.5077, 1659, EarlyModern, 105000),
    CityInfo("Karlstad", 59.4022, 13.5115, 1584, EarlyModern, 95000),
    CityInfo("Växjö", 56.8777, 14.8091, 1342, MedievalTown, 95000),
    CityInfo("Halmstad", 56.6745, 12.8578, 1307, MedievalTown, 100000),
    CityInfo("Luleå", 65.5848, 22.1547, 1621, EarlyModern, 80000),
    CityInfo("Gamla Uppsala", 59.8979, 17.6330, -500, AncientSettlement, 5000),
    CityInfo("Birka", 59.3333, 17.5500, 750, AncientSettlement, 100),
    CityInfo("Sigtuna", 59.6178, 17.7256, 970, AncientSettlement, 10000),
    CityInfo("Visby", 57.6348, 18.2948, 900, AncientSettlement, 25000),
    CityInfo("Kalmar", 56.6634, 16.3566, 1100, MedievalTown, 70000),
    CityInfo("Skara", 58.3864, 13.4384, 1000, AncientSettlement, 20000),
    CityInfo("Falun", 60.6065, 15.6355, 1641, EarlyModern, 60000),
    CityInfo("Ystad", 55.4295, 13.8200, 1244, MedievalTown, 30000),
    CityInfo("Trelleborg", 55.3758, 13.1566, 1257, MedievalTown, 45000),
    CityInfo("Varberg", 57.1057, 12.2508, 1300, MedievalTown, 35000),
    CityInfo("Karlskrona", 56.1612, 15.5869, 1680, EarlyModern, 65000),
    CityInfo("Hudiksvall", 61.7271, 17.1053, 1582, EarlyModern, 40000)
  ]

  // ---------------------------------------------------------------------------
  // Coast heuristic
  // ---------------------------------------------------------------------------

  /** isNearCoast: six boxes (west coast, south-east Skåne, Blekinge/Kalmar,
      the Stockholm archipelago, the Norrland coast, Gotland). */
  predicate IsNearCoast(lat: real, lng: real): (near: bool)
    ensures lat < 55.5 ==> (near <==> 13.5 < lng < 15.0)
    ensures lat >= 60.5 ==> (near <==> 17.0 < lng < 24.0)
    ensures 12.5 <= lng <= 13.5 && lat < 58.5 ==> !near
  {
    || (lng < 12.5 && 55.5 <= lat <= 59.0)
    || (lat < 56.5 && 13.5 < lng < 15.0)
    || (55.5 <= lat < 58.0 && 15.0 < lng < 17.0)
    || (58.5 <= lat < 60.5 && lng > 18.0)
    || (lat >= 60.0 && 17.0 < lng < 24.0)
    || (56.9 <= lat <= 58.4 && 18.0 <= lng <= 19.5)
  }

  /** Points well inland and well offshore are not near the coast; the capital's
      own coordinates are. */
  lemma CoastExamples()
    ensures IsNearCoast(59.3293, 18.0686)
    ensures !IsNearCoast(57.7826, 14.1618)
    ensures !IsNearCoast(59.2753, 15.2134)
  {
  }

  // ---------------------------------------------------------------------------
  // Nearest town
  // ---------------------------------------------------------------------------

  /** Entry k is the first entry of minimal distance. */
  predicate IsFirstMinimum(cities: seq<CityInfo>, distanceTo: CityInfo -> real, k: nat)
  {
    && k < |cities|
    && (forall j | 0 <= j < |cities| :: distanceTo(cities[k]) <= distanceTo(cities[j]))
    && (forall j | 0 <= j < k :: distanceTo(cities[j]) > distanceTo(cities[k]))
  }

  /** The scan of the search loop from entry i on, with `best` the entry kept so
      far: a later entry replaces it only when strictly closer. */
  function ScanFrom(cities: seq<CityInfo>, distanceTo: CityInfo -> real, i: nat, best: nat): (r: nat)
    requires best < i <= |cities|
    requires forall j | 0 <= j < i :: distanceTo(cities[best]) <= distanceTo(cities[j])
    requires forall j | 0 <= j < best :: distanceTo(cities[j]) > distanceTo(cities[best])
    ensures IsFirstMinimum(cities, distanceTo, r)
    decreases |cities| - i
  {
    if i == |cities| then best
    else if distanceTo(cities[i]) < distanceTo(cities[best]) then ScanFrom(cities, distanceTo, i + 1, i)
    else ScanFrom(cities, distanceTo, i + 1, best)
  }

  /** The index of the nearest town; None when the catalog is empty (the source's
      `null` with distance Infinity). */
  function Nearest(cities: seq<CityInfo>, distanceTo: CityInfo -> real): (r: Option<nat>)
    ensures r.None? <==> |cities| == 0
    ensures r.Some? ==> IsFirstMinimum(cities, distanceTo, r.value)
  {
    if |cities| == 0 then None else Some(ScanFrom(cities, distanceTo, 1, 0))
  }

  /** There is only one first minimum, so the scan's answer is determined by the
      distances alone. */
  lemma FirstMinimumUnique(cities: seq<CityInfo>, distanceTo: CityInfo -> real, k: nat, m: nat)
    requires IsFirstMinimum(cities, distanceTo, k) && IsFirstMinimum(cities, distanceTo, m)
    ensures k == m
  {
    var dk, dm := distanceTo(cities[k]), distanceTo(cities[m]);
    assert dk == dm;
  }

  /** Whatever entry is the first of minimal distance is the one the scan keeps. */
  lemma NearestIsFirstMinimum(cities: seq<CityInfo>, distanceTo: CityInfo -> real, k: nat)
    requires IsFirstMinimum(cities, distanceTo, k)
    ensures Nearest(cities, distanceTo) == Some(k)
  {
    FirstMinimumUnique(cities, distanceTo, k, Nearest(cities, distanceTo).value);
  }

  // ---------------------------------------------------------------------------
  // Classification
  // ---------------------------------------------------------------------------

  datatype LocationType = Urban | Coastal | Rural

  /** Which sentence the classifier chooses; `Text` spells it out. */
  datatype Narrative =
    | AtAncientSettlement(town: string)
    | InMedievalTown(town: string)
    | InTown(town: string)
    | FutureWilderness(town: string, founded: int)
    | FutureTown(town: string, founded: int, nearCoast: bool)
    | CoastNarrative(coastBracket: nat)
    | RuralNarrative(ruralBracket: nat)
  {
    function Text(): string
    {
      match this
      case AtAncientSettlement(t) => UrbanText(t, AncientSettlement)
      case InMedievalTown(t) => UrbanText(t, MedievalTown)
      case InTown(t) => UrbanText(t, Modern)
      case FutureWilderness(t, f) => FutureText(t, f, None)
      case FutureTown(t, f, c) => FutureText(t, f, Some(c))
      case CoastNarrative(b) => CoastText(b)
      case RuralNarrative(b) => RuralText(b)
    }
  }

  function UrbanText(town: string, kind: HistoricalType): string
  {
    match kind
    case AncientSettlement => "Du befinner dig vid " + town + ", en av Skandinaviens äldsta bosättningar."
    case MedievalTown => "Du befinner dig i " + town + ", en medeltida handelsstad."
    case _ => "Du befinner dig i " + town + "."
  }

  /** The sentence about a town still to come; `nearCoast` is None when the
      year lies before 4000 BC. */
  function FutureText(town: string, founded: int, nearCoast: Option<bool>): string
  {
    match nearCoast
    case None =>
      "Här, där " + town + " en dag kommer att grundas (" + IntToString(founded) + " e.Kr.), finns nu endast vildmark."
    case Some(c) =>
      "Denna plats kommer senare att bli " + town + " (grundat " + IntToString(founded) + " e.Kr.), men nu är det "
      + (if c then "en kustremsa med fiskelägen" else "glest befolkad bygd") + "."
  }

  function CoastText(bracket: nat): string
  {
    if bracket == 0 then "Du befinner dig vid den forna Östersjökusten, där jägare-samlare fiskar och jagar säl."
    else if bracket == 1 then "Kusten här är rik på fisk och säl. Stenåldersmänniskor har lägerplatser längs stranden."
    else if bracket == 2 then "Ett kustsamhälle med fiskare och handelsmän. Båtar syns i viken."
    else "En livlig kust med handel och fiske."
  }

  function RuralText(bracket: nat): string
  {
    if bracket == 0 then "Vild urskog så långt ögat når. Jägare och samlare rör sig genom landskapet."
    else if bracket == 1 then "Jordbruksbygd med små gårdar och betesmark. Röjda gläntor i skogen."
    else if bracket == 2 then "Jordbrukslandskap med byar och gårdar. Gravhögar syns på kullarna."
    else "Landsbygd med byar, gårdar och kyrkor."
  }

  /** The number of thresholds at or below `year`: 0 below the first, and so on. */
  function Bracket(year: int, thresholds: seq<int>): (b: nat)
    ensures b <= |thresholds|
    decreases |thresholds|
  {
    if |thresholds| == 0 || year < thresholds[0] then 0 else 1 + Bracket(year, thresholds[1..])
  }

  const CoastThresholds: seq<int> := [-8000, -4000, 800]
  const RuralThresholds: seq<int> := [-4000, -1700, 800]

  /** With increasing thresholds, a year lies in bracket b exactly when it is at
      or above the b-th threshold and below the next. */
  lemma {:induction false} BracketBetween(year: int, thresholds: seq<int>, b: nat)
    requires forall i, j | 0 <= i < j < |thresholds| :: thresholds[i] < thresholds[j]
    requires b <= |thresholds|
    requires b > 0 ==> thresholds[b - 1] <= year
    requires b < |thresholds| ==> year < thresholds[b]
    ensures Bracket(year, thresholds) == b
    decreases |thresholds|
  {
    if b > 0 {
      assert thresholds[0] <= thresholds[b - 1];
      BracketBetween(year, thresholds[1..], b - 1);
    }
  }

  /** The coastal narrative's bracket: before 8000 BC, before 4000 BC, before
      800 AD, and later. */
  lemma CoastBracketOf(year: int)
    ensures Bracket(year, CoastThresholds) ==
      if year < -8000 then 0 else if year < -4000 then 1 else if year < 800 then 2 else 3
  {
    var b := if year < -8000 then 0 else if year < -4000 then 1 else if year < 800 then 2 else 3;
    BracketBetween(year, CoastThresholds, b);
  }

  /** The rural narrative's bracket: before 4000 BC, before 1700 BC, before
      800 AD, and later. */
  lemma RuralBracketOf(year: int)
    ensures Bracket(year, RuralThresholds) ==
      if year < -4000 then 0 else if year < -1700 then 1 else if year < 800 then 2 else 3
  {
    var b := if year < -4000 then 0 else if year < -1700 then 1 else if year < 800 then 2 else 3;
    BracketBetween(year, RuralThresholds, b);
  }

  datatype LocationAnalysis = LocationAnalysis(
    kind: LocationType,
    nearestCity: Option<CityInfo>,
    /** The rounded distance in km; None stands for Infinity (no catalog entry). */
    distanceToCity: Option<real>,
    cityExistedInPeriod: bool,
    historicalDescription: string)

  /** The classification and its narrative for a nearest town (if any) at
      distance `d` and a target year. */
  function Classify(nearest: Option<CityInfo>, d: real, nearCoast: bool, yearStart: int): (r: (LocationType, Option<Narrative>))
    ensures var existed := nearest.Some? && nearest.value.foundedYear <= yearStart;
      && (r.0 == Urban <==> existed && d < 5.0)
      && (r.0 == Coastal <==> !(nearest.Some? && d < (if existed then 5.0 else 2.0)) && nearCoast)
      && (nearest.Some? && !existed && d < 2.0 ==> r.0 == Rural)
    ensures r.0 == Urban ==>
      && r.1.Some? && (r.1.value.AtAncientSettlement? || r.1.value.InMedievalTown? || r.1.value.InTown?)
      && r.1.value.town == nearest.value.name
      && (r.1.value.AtAncientSettlement? <==> nearest.value.historicalType == AncientSettlement)
      && (r.1.value.InMedievalTown? <==> nearest.value.historicalType == MedievalTown)
    ensures nearest.Some? && !(nearest.value.foundedYear <= yearStart) && d < 2.0 ==>
      r.1 == Some(if yearStart < -4000 then FutureWilderness(nearest.value.name, nearest.value.foundedYear)
                  else FutureTown(nearest.value.name, nearest.value.foundedYear, nearCoast))
    ensures r.0 == Coastal ==> r.1 == Some(CoastNarrative(Bracket(yearStart, CoastThresholds)))
    ensures r.0 == Rural && !(nearest.Some? && d < 2.0) ==> r.1 == Some(RuralNarrative(Bracket(yearStart, RuralThresholds)))
  {
    var existed := nearest.Some? && nearest.value.foundedYear <= yearStart;
    var threshold := if existed then 5.0 else 2.0;
    if nearest.Some? && d < threshold then
      var city := nearest.value;
      if existed then
        (Urban, Some(match city.historicalType
                     case AncientSettlement => AtAncientSettlement(city.name)
                     case MedievalTown => InMedievalTown(city.name)
                     case _ => InTown(city.name)))
      else if yearStart < -4000 then (Rural, Some(FutureWilderness(city.name, city.foundedYear)))
      else if yearStart < city.foundedYear then (Rural, Some(FutureTown(city.name, city.foundedYear, nearCoast)))
      else (Rural, None)
    else if nearCoast then (Coastal, Some(CoastNarrative(Bracket(yearStart, CoastThresholds))))
    else (Rural, Some(RuralNarrative(Bracket(yearStart, RuralThresholds))))
  }

  /** A narrative is always chosen: the branch that would leave the description
      empty needs a town that is not founded yet although the year is past its
      founding. */
  lemma ClassifyAlwaysNarrates(nearest: Option<CityInfo>, d: real, nearCoast: bool, yearStart: int)
    ensures Classify(nearest, d, nearCoast, yearStart).1.Some?
  {
  }

  /** analyzeLocationType over any catalog, with `distanceTo` giving the
      distance from the point to a town. */
  function AnalyzeLocationTypeIn(cities: seq<CityInfo>, lat: real, lng: real, yearStart: int,
                                 distanceTo: CityInfo -> real): (r: LocationAnalysis)
    ensures r.nearestCity.Some? <==> |cities| > 0
    ensures r.nearestCity.Some? ==>
      exists k | 0 <= k < |cities| :: IsFirstMinimum(cities, distanceTo, k) && r.nearestCity.value == cities[k]
    ensures r.cityExistedInPeriod <==> r.nearestCity.Some? && r.nearestCity.value.foundedYear <= yearStart
    ensures r.nearestCity.Some? ==>
      && (r.kind == Urban <==> r.cityExistedInPeriod && distanceTo(r.nearestCity.value) < 5.0)
      && (r.kind == Coastal <==>
            !(distanceTo(r.nearestCity.value) < (if r.cityExistedInPeriod then 5.0 else 2.0)) && IsNearCoast(lat, lng))
      && (!r.cityExistedInPeriod && distanceTo(r.nearestCity.value) < 2.0 ==> r.kind == Rural)
      && r.distanceToCity == Some(Round(distanceTo(r.nearestCity.value) * 10.0) as real / 10.0)
    ensures r.nearestCity.None? ==>
      r.kind == (if IsNearCoast(lat, lng) then Coastal else Rural) && r.distanceToCity.None?
  {
    var city := NearestCity(cities, distanceTo);
    var d := if city.Some? then distanceTo(city.value) else 0.0;
    var c := Classify(city, d, IsNearCoast(lat, lng), yearStart);
    var text := match c.1 case Some(n) => n.Text() case None => "";
    LocationAnalysis(
      c.0,
      city,
      if city.Some? then Some(Round(d * 10.0) as real / 10.0) else None,
      city.Some? && city.value.foundedYear <= yearStart,
      text)
  }

  /** The nearest town and its distance as AnalyzeLocationTypeIn sees them. */
  function NearestCity(cities: seq<CityInfo>, distanceTo: CityInfo -> real): (c: Option<CityInfo>)
    ensures c.Some? <==> |cities| > 0
  {
    var nearest := Nearest(cities, distanceTo);
    if nearest.Some? then Some(cities[nearest.value]) else None
  }

  /** The description is the text of the narrative Classify chose. */
  lemma DescriptionIsNarrative(cities: seq<CityInfo>, lat: real, lng: real, yearStart: int, distanceTo: CityInfo -> real)
    ensures var city := NearestCity(cities, distanceTo);
      var c := Classify(city, if city.Some? then distanceTo(city.value) else 0.0, IsNearCoast(lat, lng), yearStart);
      var r := AnalyzeLocationTypeIn(cities, lat, lng, yearStart, distanceTo);
      && r.nearestCity == city && r.kind == c.0 && c.1.Some? && r.historicalDescription == c.1.value.Text()
  {
    var city := NearestCity(cities, distanceTo);
    ClassifyAlwaysNarrates(city, if city.Some? then distanceTo(city.value) else 0.0, IsNearCoast(lat, lng), yearStart);
  }

  /** In a town of the period the description is the town sentence. */
  lemma UrbanDescription(cities: seq<CityInfo>, lat: real, lng: real, yearStart: int, distanceTo: CityInfo -> real)
    ensures var r := AnalyzeLocationTypeIn(cities, lat, lng, yearStart, distanceTo);
      r.kind == Urban ==>
        r.historicalDescription == UrbanText(r.nearestCity.value.name, r.nearestCity.value.historicalType)
  {
    DescriptionIsNarrative(cities, lat, lng, yearStart, distanceTo);
  }

  /** Next to a town still to come the description is the future-town sentence,
      without the coast remark before 4000 BC. */
  lemma FutureDescription(cities: seq<CityInfo>, lat: real, lng: real, yearStart: int, distanceTo: CityInfo -> real)
    ensures var r := AnalyzeLocationTypeIn(cities, lat, lng, yearStart, distanceTo);
      r.nearestCity.Some? && !r.cityExistedInPeriod && distanceTo(r.nearestCity.value) < 2.0 ==>
        r.historicalDescription == FutureText(r.nearestCity.value.name, r.nearestCity.value.foundedYear,
                                              if yearStart < -4000 then None else Some(IsNearCoast(lat, lng)))
  {
    DescriptionIsNarrative(cities, lat, lng, yearStart, distanceTo);
  }

  /** On the coast the description is the coastal sentence of the year's bracket. */
  lemma CoastDescription(cities: seq<CityInfo>, lat: real, lng: real, yearStart: int, distanceTo: CityInfo -> real)
    ensures var r := AnalyzeLocationTypeIn(cities, lat, lng, yearStart, distanceTo);
      r.kind == Coastal ==> r.historicalDescription == CoastText(Bracket(yearStart, CoastThresholds))
  {
    DescriptionIsNarrative(cities, lat, lng, yearStart, distanceTo);
  }

  /** Inland, away from any town, the description is the rural sentence of the
      year's bracket. */
  lemma RuralDescription(cities: seq<CityInfo>, lat: real, lng: real, yearStart: int, distanceTo: CityInfo -> real)
    ensures var r := AnalyzeLocationTypeIn(cities, lat, lng, yearStart, distanceTo);
      r.kind == Rural && !(r.nearestCity.Some? && distanceTo(r.nearestCity.value) < 2.0) ==>
        r.historicalDescription == RuralText(Bracket(yearStart, RuralThresholds))
  {
    DescriptionIsNarrative(cities, lat, lng, yearStart, distanceTo);
  }

  /** analyzeLocationType over the catalog. */
  function AnalyzeLocationType(lat: real, lng: real, yearStart: int, distanceTo: CityInfo -> real): (r: LocationAnalysis)
    ensures r.nearestCity.Some?
    ensures r == AnalyzeLocationTypeIn(SwedishCities, lat, lng, yearStart, distanceTo)
  {
    AnalyzeLocationTypeIn(SwedishCities, lat, lng, yearStart, distanceTo)
  }

  /** A point on a town that is not founded yet is rural, whatever the coast says:
      with the first catalog town at distance zero and every distance
      non-negative, a year before its founding gives a rural classification. */
  lemma FutureTownIsRural(cities: seq<CityInfo>, lat: real, lng: real, yearStart: int, distanceTo: CityInfo -> real)
    requires |cities| > 0 && distanceTo(cities[0]) == 0.0
    requires forall c :: distanceTo(c) >= 0.0
    requires yearStart < cities[0].foundedYear
    ensures AnalyzeLocationTypeIn(cities, lat, lng, yearStart, distanceTo).kind == Rural
    ensures AnalyzeLocationTypeIn(cities, lat, lng, yearStart, distanceTo).nearestCity == Some(cities[0])
  {
    NearestIsFirstMinimum(cities, distanceTo, 0);
  }

  /** Stockholm's own coordinates in the year 800: Stockholm (founded 1252) is
      the nearest town and not yet founded, so the point is rural although the
      coast heuristic places it by the sea. */
  lemma StockholmInYear800(distanceTo: CityInfo -> real)
    requires distanceTo(SwedishCities[0]) == 0.0
    requires forall c :: distanceTo(c) >= 0.0
    ensures AnalyzeLocationType(59.3293, 18.0686, 800, distanceTo).kind == Rural
    ensures IsNearCoast(59.3293, 18.0686)
  {
    FutureTownIsRural(SwedishCities, 59.3293, 18.0686, 800, distanceTo);
  }

  // ---------------------------------------------------------------------------
  // Town descriptions
  // ---------------------------------------------------------------------------

  /** The era keys of the per-town description table. */
  datatype EraBucket = ModernEra | IndustrialEra | EarlyModernEra | MedievalEra | VikingEra | PrehistoricEra

  /** The order in which getCityDescription tries the buckets. */
  const BucketOrder: seq<EraBucket> := [ModernEra, IndustrialEra, EarlyModernEra, MedievalEra, VikingEra, PrehistoricEra]

  /** The first year a bucket may be used from; the prehistoric one has no bound. */
  function MinYear(b: EraBucket): Option<int>
  {
    match b
    case ModernEra => Some(1900)
    case IndustrialEra => Some(1800)
    case EarlyModernEra => Some(1600)
    case MedievalEra => Some(1000)
    case VikingEra => Some(800)
    case PrehistoricEra => None
  }

  predicate Opens(b: EraBucket, year: int)
  {
    match MinYear(b)
    case None => true
    case Some(t) => year >= t
  }

  /** JavaScript truthiness of `cityData[bucket]`: present and not empty. */
  predicate Truthy(texts: map<EraBucket, string>, b: EraBucket)
  {
    b in texts && texts[b] != ""
  }

  /** The reference lookup: the text of the first bucket in `order` (from
      position i on) that is open in `year` and has a text. */
  function FirstQualifying(order: seq<EraBucket>, texts: map<EraBucket, string>, year: int, i: nat): (r: Option<string>)
    requires i <= |order|
    ensures r.Some? ==> exists k | i <= k < |order| ::
      && Opens(order[k], year) && Truthy(texts, order[k]) && r.value == texts[order[k]]
      && (forall j | i <= j < k :: !(Opens(order[j], year) && Truthy(texts, order[j])))
    ensures r.None? ==> forall k | i <= k < |order| :: !(Opens(order[k], year) && Truthy(texts, order[k]))
    decreases |order| - i
  {
    if i == |order| then None
    else if Opens(order[i], year) && Truthy(texts, order[i]) then Some(texts[order[i]])
    else FirstQualifying(order, texts, year, i + 1)
  }

  /** The per-town description table: the era texts of the towns it lists, by
      town name. */
  function TownTexts(name: string): Option<map<EraBucket, string>>
  {
    if name == "Stockholm" then Some(map[
        MedievalEra := "Stockholms gamla stad med trähus, kyrkor och smala gränder. Handel vid Stortorget.",
        EarlyModernEra := "Stormaktstidens Stockholm med slottet under byggnad, Tyska kyrkan och livlig hamn.",
        IndustrialEra := "Stockholms stenstad växer. Ångslupar på Strömmen, gas\U{00AD}lyktor längs gatorna.",
        ModernEra := "Modern storstad med spårvagnar, bilar och höga stenhus."
      ])
    else if name == "Göteborg" then Some(map[
        EarlyModernEra := "Den nygrundade fästningsstaden Göteborg med vallar, kanaler och holländska köpmän.",
        IndustrialEra := "Göteborgs hamn full av segelfartyg. Arbetarbostäder växer upp kring fabrikerna.",
        ModernEra := "Industristad med varv, hamnar och Liseberg."
      ])
    else if name == "Uppsala" then Some(map[
        MedievalEra := "Uppsala domkyrka reser sig över staden. Präster, studenter och pilgrimer i gatorna.",
        EarlyModernEra := "Universitetsstad med studentnationer och bokhandlar.",
        IndustrialEra := "Universitetsstaden Uppsala med järnvägsstation och växande förort.",
        ModernEra := "Modern universitetsstad med cykelvägar och forskningscentra."
      ])
    else if name == "Visby" then Some(map[
        MedievalEra := "Hansastaden Visby i sin glans. Köpmän från hela Östersjön, ringmur under byggnad.",
        EarlyModernEra := "Visby efter Hansans fall - en mindre lantstad inom de mäktiga murarna.",
        IndustrialEra := "Visby som badort och turistmål. Ruiner från storhetstiden.",
        ModernEra := "Världsarvsstad med välbevarad ringmur och sommargäster."
      ])
    else if name == "Birka" then Some(map[
        VikingEra := "Vikingatida handelsstad på Björkö. Köpmän, hantverkare, och skepp från fjärran länder."
      ])
    else if name == "Gamla Uppsala" then Some(map[
        PrehistoricEra := "De mäktiga kungshögarna. Hednatempel och blot till de gamla gudarna.",
        VikingEra := "Svearikets religiösa centrum. Kungshögarna och det stora templet.",
        MedievalEra := "Det gamla Uppsala - nu i skuggan av nya Uppsala. Kyrkan står på den forna kultplatsen."
      ])
    else if name == "Sigtuna" then Some(map[
        VikingEra := "Sveriges första stad. Kyrkor byggs, mynt präglas, kristendomen breder ut sig.",
        MedievalEra := "Sigtuna som kungasäte och kyrkligt centrum. Kloster och stenkyrkor."
      ])
    else if name == "Lund" then Some(map[
        MedievalEra := "Ärkebiskopens stad. Domkyrkan, kloster och den nordiska kyrkans centrum.",
        EarlyModernEra := "Universitetet grundas. Studenter och professorer i de medeltida gatorna.",
        ModernEra := "Modern universitetsstad med bevarat medeltida centrum."
      ])
    else None
  }

  function NotYetFoundedText(city: CityInfo): string
  {
    city.name + " existerar inte än - grundas " + IntToString(city.foundedYear) + " e.Kr."
  }

  /** The sentence for a town without table entries. */
  function GenericText(name: string, year: int): string
  {
    if year >= 1900 then name + " - en modern svensk stad."
    else if year >= 1800 then name + " under industrialiseringen."
    else if year >= 1600 then name + " under stormaktstiden."
    else if year >= 1000 then "Den medeltida staden " + name + "."
    else name + " som tidig bosättning."
  }

  function FallbackText(name: string): string
  {
    name + " under denna tidsperiod."
  }

  /** The bucket cascade for a tabled town, in source order. */
  function TabledText(texts: map<EraBucket, string>, name: string, year: int): string
  {
    if year >= 1900 && Truthy(texts, ModernEra) then texts[ModernEra]
    else if year >= 1800 && Truthy(texts, IndustrialEra) then texts[IndustrialEra]
    else if year >= 1600 && Truthy(texts, EarlyModernEra) then texts[EarlyModernEra]
    else if year >= 1000 && Truthy(texts, MedievalEra) then texts[MedievalEra]
    else if year >= 800 && Truthy(texts, VikingEra) then texts[VikingEra]
    else if Truthy(texts, PrehistoricEra) then texts[PrehistoricEra]
    else FallbackText(name)
  }

  lemma FirstQualifyingStep(order: seq<EraBucket>, texts: map<EraBucket, string>, year: int, i: nat)
    requires i < |order|
    ensures FirstQualifying(order, texts, year, i) ==
      if Opens(order[i], year) && Truthy(texts, order[i]) then Some(texts[order[i]])
      else FirstQualifying(order, texts, year, i + 1)
  {
  }

  /** The cascade is the priority lookup over BucketOrder, with the fallback
      sentence when no bucket qualifies. */
  lemma TabledTextIsPriorityLookup(texts: map<EraBucket, string>, name: string, year: int)
    ensures TabledText(texts, name, year) ==
      match FirstQualifying(BucketOrder, texts, year, 0)
      case Some(t) => t
      case None => FallbackText(name)
  {
    var o := BucketOrder;
    assert |o| == 6;
    assert o[0] == ModernEra && o[1] == IndustrialEra && o[2] == EarlyModernEra;
    assert o[3] == MedievalEra && o[4] == VikingEra && o[5] == PrehistoricEra;
    FirstQualifyingStep(o, texts, year, 0);
    FirstQualifyingStep(o, texts, year, 1);
    FirstQualifyingStep(o, texts, year, 2);
    FirstQualifyingStep(o, texts, year, 3);
    FirstQualifyingStep(o, texts, year, 4);
    FirstQualifyingStep(o, texts, year, 5);
    assert FirstQualifying(o, texts, year, 6) == None;
  }

  /** getCityDescription: the founding test, then the generic sentence for
      towns the table does not list, then the bucket cascade. */
  function CityDescription(city: CityInfo, year: int): (r: string)
    ensures year < city.foundedYear ==> r == NotYetFoundedText(city)
    ensures year >= city.foundedYear && TownTexts(city.name).None? ==> r == GenericText(city.name, year)
    ensures year >= city.foundedYear && TownTexts(city.name).Some? ==>
      r == match FirstQualifying(BucketOrder, TownTexts(city.name).value, year, 0)
           case Some(t) => t
           case None => FallbackText(city.name)
  {
    if year < city.foundedYear then NotYetFoundedText(city)
    else match TownTexts(city.name)
      case None => GenericText(city.name, year)
      case Some(texts) =>
        TabledTextIsPriorityLookup(texts, city.name, year);
        TabledText(texts, city.name, year)
  }
}
