/** The prompt composer of the image-generation route: the anachronism exclusion
    cascade, the period clothing table, the image prompt assembled from a
    template chosen by sea status and location type, and the pure fragments of
    the request handler (default period, geology period, landscape sentence). */
module GenerateRoute {
  import opened Basics
  import TP = TimePeriods
  import CD = CityDetection
  import SG = SguData

  // ---------------------------------------------------------------------------
  // Exclusions
  // ---------------------------------------------------------------------------

  /** What is excluded whatever the period. */
  const BaseExclusions: seq<string> :=
    ["cars", "power lines", "asphalt roads", "plastic", "modern buildings", "street lights"]

  /** One step of the cascade: the items added when the year lies below `threshold`. */
  datatype Tier = Tier(threshold: int, items: seq<string>)

  const Before1900: seq<string> := ["automobiles", "electricity", "telephone poles", "concrete buildings"]
  const Before1800: seq<string> := ["factories", "steam engines", "iron bridges", "gas lamps"]
  const Before1600: seq<string> := ["baroque architecture", "wigs", "cannons", "printed books"]
  const Before1000: seq<string> := ["stone churches", "castles", "knights in armor", "windmills"]
  const Before400: seq<string> := ["Christian symbols", "runic stones with crosses", "longships with sails"]
  const Before500BC: seq<string> := ["iron tools", "coins", "written text"]
  const Before1700BC: seq<string> := ["bronze weapons", "wheeled carts", "horses for riding"]
  const Before4000BC: seq<string> := ["farming", "domestic cattle", "pottery", "permanent houses"]

  /** The tiers in source order; their thresholds decrease. */
  const ExclusionTiers: seq<Tier> := [
    Tier(1900, Before1900), Tier(1800, Before1800), Tier(1600, Before1600), Tier(1000, Before1000),
    Tier(400, Before400), Tier(-500, Before500BC), Tier(-1700, Before1700BC), Tier(-4000, Before4000BC)]

  predicate Decreasing(tiers: seq<Tier>)
  {
    forall i, j | 0 <= i < j < |tiers| :: tiers[j].threshold < tiers[i].threshold
  }

  /** The independent `if (yearStart < t)` pushes, in order. */
  function TierItems(tiers: seq<Tier>, year: int): seq<string>
    decreases |tiers|
  {
    if |tiers| == 0 then []
    else (if year < tiers[0].threshold then tiers[0].items else []) + TierItems(tiers[1..], year)
  }

  /** getHistoricalExclusions. */
  function HistoricalExclusions(year: int): (r: seq<string>)
    ensures BaseExclusions <= r
  {
    PrefixOfAppend(BaseExclusions, TierItems(ExclusionTiers, year));
    BaseExclusions + TierItems(ExclusionTiers, year)
  }

  lemma ExclusionTiersDecreasing()
    ensures Decreasing(ExclusionTiers)
  {
  }

  /** A year at or above every threshold adds nothing. */
  lemma {:induction false} TierItemsNone(tiers: seq<Tier>, year: int)
    requires forall i | 0 <= i < |tiers| :: tiers[i].threshold <= year
    ensures TierItems(tiers, year) == []
    decreases |tiers|
  {
    if |tiers| > 0 {
      TierItemsNone(tiers[1..], year);
    }
  }

  /** A year below every threshold adds every tier. */
  function AllItems(tiers: seq<Tier>): seq<string>
    decreases |tiers|
  {
    if |tiers| == 0 then [] else tiers[0].items + AllItems(tiers[1..])
  }

  lemma {:induction false} TierItemsAll(tiers: seq<Tier>, year: int)
    requires forall i | 0 <= i < |tiers| :: year < tiers[i].threshold
    ensures TierItems(tiers, year) == AllItems(tiers)
    decreases |tiers|
  {
    if |tiers| > 0 {
      TierItemsAll(tiers[1..], year);
    }
  }

  /** With decreasing thresholds a later year's list is a prefix of an earlier
      year's: the earlier the year, the more is excluded. */
  lemma {:induction false} TierItemsPrefix(tiers: seq<Tier>, a: int, b: int)
    requires Decreasing(tiers) && a <= b
    ensures TierItems(tiers, b) <= TierItems(tiers, a)
    decreases |tiers|
  {
    if |tiers| > 0 {
      var t := tiers[0];
      if b < t.threshold {
        TierItemsPrefix(tiers[1..], a, b);
        var rb, ra := TierItems(tiers[1..], b), TierItems(tiers[1..], a);
        assert (t.items + ra)[..|t.items + rb|] == t.items + rb;
      } else {
        TierItemsNone(tiers[1..], b);
        assert TierItems(tiers, b) == [];
      }
    }
  }

  /** Exclusions grow as the year goes back. */
  lemma ExclusionsNested(a: int, b: int)
    requires a <= b
    ensures HistoricalExclusions(b) <= HistoricalExclusions(a)
  {
    TierItemsPrefix(ExclusionTiers, a, b);
    var ta, tb := TierItems(ExclusionTiers, a), TierItems(ExclusionTiers, b);
    assert (BaseExclusions + ta)[..|BaseExclusions + tb|] == BaseExclusions + tb;
  }

  /** Years that no threshold separates get the same list. */
  lemma {:induction false} TierItemsConstant(tiers: seq<Tier>, a: int, b: int)
    requires forall i | 0 <= i < |tiers| :: (a < tiers[i].threshold <==> b < tiers[i].threshold)
    ensures TierItems(tiers, a) == TierItems(tiers, b)
    decreases |tiers|
  {
    if |tiers| > 0 {
      TierItemsConstant(tiers[1..], a, b);
    }
  }

  lemma ExclusionsConstant(a: int, b: int)
    requires forall i | 0 <= i < |ExclusionTiers| ::
      (a < ExclusionTiers[i].threshold <==> b < ExclusionTiers[i].threshold)
    ensures HistoricalExclusions(a) == HistoricalExclusions(b)
  {
    TierItemsConstant(ExclusionTiers, a, b);
  }

  /** From 1900 on only the six base items remain. */
  lemma ExclusionsModern(year: int)
    requires year >= 1900
    ensures HistoricalExclusions(year) == BaseExclusions
    ensures |HistoricalExclusions(year)| == 6
  {
    ExclusionTiersDecreasing();
    TierItemsNone(ExclusionTiers, year);
  }

  /** Before 4000 BC every tier applies: 35 items in all. */
  lemma ExclusionsEarliest(year: int)
    requires year < -4000
    ensures HistoricalExclusions(year) == BaseExclusions + AllItems(ExclusionTiers)
    ensures |HistoricalExclusions(year)| == 35
  {
    ExclusionTiersDecreasing();
    TierItemsAll(ExclusionTiers, year);
    AllItemsCount();
  }

  lemma AllItemsCount()
    ensures |AllItems(ExclusionTiers)| == 29
  {
    var t := ExclusionTiers;
    assert AllItems(t[7..]) == Before4000BC;
    assert AllItems(t[6..]) == Before1700BC + AllItems(t[7..]);
    assert AllItems(t[5..]) == Before500BC + AllItems(t[6..]);
    assert AllItems(t[4..]) == Before400 + AllItems(t[5..]);
    assert AllItems(t[3..]) == Before1000 + AllItems(t[4..]);
    assert AllItems(t[2..]) == Before1600 + AllItems(t[3..]);
    assert AllItems(t[1..]) == Before1800 + AllItems(t[2..]);
    assert AllItems(t) == Before1900 + AllItems(t[1..]);
  }

  // ---------------------------------------------------------------------------
  // Clothing
  // ---------------------------------------------------------------------------

  datatype Clothing = Clothing(description: string, hair: string, accessories: string)

  /** The outfits of getPeriodClothing by bucket, from the oldest to the newest. */
  function ClothingOfBucket(bucket: nat): Clothing
  {
    if bucket == 0 then Clothing(
      "Simple animal hide clothing - deer or seal skin tunic, leather wrappings around legs and feet. Raw, untanned furs for warmth. No woven fabric.",
      "Long, unkempt natural hair. Men may have beards. No elaborate styling, possibly tied back with leather thong.",
      "Bone or antler pendants, shell necklaces, leather pouches. Stone tools at belt. NO metal of any kind.")
    else if bucket == 1 then Clothing(
      "Woven wool or linen tunics, reaching to knees. Leather belt. Simple leather shoes or sandals. Fur cloaks for warmth.",
      "Shoulder-length hair, sometimes braided. Men with short beards. Simple bone or wooden hair pins.",
      "Amber beads, bone buttons, flint knife at belt. Pottery vessels. NO metal jewelry.")
    else if bucket == 2 then Clothing(
      "Wool tunics with woven patterns, bronze fibulae (brooches) to fasten cloaks. Women in long dresses with corded skirts. Leather belts with bronze buckles.",
      "Elaborate hairstyles - women with hair nets, men with topknots or braids. Bronze hair rings.",
      "Bronze spiral arm rings, neck rings (torques), belt plates with sun symbols. Bronze daggers for high status.")
    else if bucket == 3 then Clothing(
      "Wool and linen clothing. Men in trousers and tunics, women in long peplos-style dresses. Iron fibulae. Leather boots.",
      "Suebian knot (hair tied on one side) for some men. Women with long braided hair. Red hair dye from plants.",
      "Iron and bronze jewelry, glass beads imported from Rome. Belt buckles, arm rings. Runic amulets.")
    else if bucket == 4 then Clothing(
      "Viking-age clothing: men in wool tunics over trousers, leather belts. Women in linen underdress with wool overdress (hangerock) fastened with oval brooches.",
      "Men: long hair, often tied back, beards common. Women: long hair, often covered with linen cap or headscarf. Braids.",
      "Silver and bronze jewelry - Thor hammers, arm rings, bead necklaces. Decorated leather belts. Iron knives.")
    else if bucket == 5 then Clothing(
      "Medieval tunics reaching below knee for men, long dresses for women. Wool cloaks with hood (chaperon). Simple leather shoes.",
      "Men: bowl-cut hair, clean-shaven faces becoming common. Women: hair covered by wimple or veil, only maidens show hair.",
      "Simple cross pendants, leather pouches, belt knives. Pilgrim badges. NO elaborate jewelry for common folk.")
    else if bucket == 6 then Clothing(
      "Fitted tunics (cotehardie) for men, long gowns with fitted bodices for women. Pointed shoes (poulaines). Wool and linen, some silk for wealthy.",
      "Men: hair to ears or shoulders, some with fashionable forked beards. Women: elaborate headdresses (hennin), hair hidden.",
      "Belt pouches, rosary beads, decorative belt buckles. Brooches and rings for the wealthy.")
    else if bucket == 7 then Clothing(
      "Doublets and breeches for men, full skirts with bodices for women. Ruffs or falling collars. Leather boots for men, heeled shoes for women.",
      "Men: longer hair becoming fashionable, mustaches and pointed beards. Women: hair styled up with curls, often decorated.",
      "Lace collars, decorative buttons, rapiers for gentlemen. Pearl jewelry, embroidered gloves.")
    else if bucket == 8 then Clothing(
      "Coat, waistcoat and breeches for men. Wide skirts with tight bodices for women. Elaborate silk and brocade for wealthy, simple wool for common.",
      "Men: powdered wigs or natural hair tied back. Women: elaborate tall hairstyles, powdered. Tricorn hats for men.",
      "Snuff boxes, pocket watches, fans for ladies. Buckled shoes. Elaborate lace cuffs.")
    else if bucket == 9 then Clothing(
      "Men: dark suits, top hats, cravats. Women: long dresses with crinolines (early) or bustles (late), high collars. Cotton and wool.",
      "Men: short hair, sideburns or full beards. Women: elaborate updos with curls, bonnets outdoors.",
      "Pocket watches with chains, walking canes for gentlemen. Parasols, jewelry, gloves for ladies.")
    else Clothing(
      "Men: three-piece suits, bowler or flat caps. Women: long skirts to early 1920s, then shorter. Wool coats, cotton shirts.",
      "Men: short, neat hair, mustaches common. Women: Gibson Girl updos (early), then bob cuts (1920s).",
      "Wristwatches replacing pocket watches. Cloche hats for women. Simple jewelry.")
  }

  /** getPeriodClothing: outfit, hairstyle and accessories chosen by the first
      threshold the period's start year lies below, which is the table entry of
      the year's bucket. */
  function PeriodClothing(year: int): (c: Clothing)
    ensures c == ClothingOfBucket(CD.Bracket(year, ClothingThresholds))
  {
    ClothingBucketOf(year);
    if year < -4000 then ClothingOfBucket(0)
    else if year < -1700 then ClothingOfBucket(1)
    else if year < -500 then ClothingOfBucket(2)
    else if year < 400 then ClothingOfBucket(3)
    else if year < 1050 then ClothingOfBucket(4)
    else if year < 1300 then ClothingOfBucket(5)
    else if year < 1500 then ClothingOfBucket(6)
    else if year < 1700 then ClothingOfBucket(7)
    else if year < 1800 then ClothingOfBucket(8)
    else if year < 1900 then ClothingOfBucket(9)
    else ClothingOfBucket(10)
  }

  /** The bucket boundaries of getPeriodClothing, increasing. */
  const ClothingThresholds: seq<int> := [-4000, -1700, -500, 400, 1050, 1300, 1500, 1700, 1800, 1900]

  lemma ClothingThresholdsIncreasing()
    ensures |ClothingThresholds| == 10
    ensures forall i, j | 0 <= i < j < |ClothingThresholds| :: ClothingThresholds[i] < ClothingThresholds[j]
  {
  }

  /** The bucket of a year: how many thresholds lie at or below it. */
  lemma ClothingBucketOf(year: int)
    ensures CD.Bracket(year, ClothingThresholds) ==
      if year < -4000 then 0 else if year < -1700 then 1 else if year < -500 then 2
      else if year < 400 then 3 else if year < 1050 then 4 else if year < 1300 then 5
      else if year < 1500 then 6 else if year < 1700 then 7 else if year < 1800 then 8
      else if year < 1900 then 9 else 10
  {
    ClothingThresholdsIncreasing();
    var t := ClothingThresholds;
    var k := if year < t[0] then 0 else if year < t[1] then 1 else if year < t[2] then 2
      else if year < t[3] then 3 else if year < t[4] then 4 else if year < t[5] then 5
      else if year < t[6] then 6 else if year < t[7] then 7 else if year < t[8] then 8
      else if year < t[9] then 9 else 10;
    CD.BracketBetween(year, t, k);
  }

  /** getPeriodClothing is a step function over the eleven buckets: years in the
      same bucket get the same outfit. */
  lemma ClothingConstant(a: int, b: int)
    requires CD.Bracket(a, ClothingThresholds) == CD.Bracket(b, ClothingThresholds)
    ensures PeriodClothing(a) == PeriodClothing(b)
  {
  }

  // ---------------------------------------------------------------------------
  // Prompt segments
  // ---------------------------------------------------------------------------

  const UnderwaterOpeningText := "Underwater scene, viewing from beneath the water surface. "
  const HistoricalOpeningText := "Historical scene from "
  const ClosingText :=
    "Photorealistic, natural lighting, documentary style. "
    + "Strict historical accuracy required. No anachronisms."

  /** One sentence group of the image prompt, with the values its template
      string interpolates. */
  datatype Segment =
    | UnderwaterOpening
    | Submerged(depth: real)
    | TimeLine(yearLabel: string, phaseName: string)
    | WaterLife(salinity: SG.Salinity)
    | LightRays
    | HistoricalOpening(name: string, yearLabel: string)
    | UrbanScene(town: string, urban: string, buildings: string, people: string)
    | TownNote(note: string)
    | CoastalScene(coastal: string, buildings: string, people: string)
    | RuralScene(rural: string, buildings: string, people: string)
    | Nature(vegetation: string, animals: string, technology: string)
    | ExclusionList(items: seq<string>)
    | Composition(view: string)
    | PersonTransformation(person: string, periodName: string, clothing: Clothing)
    | Closing
  {
    /** The sentences as the template strings write them. */
    function Text(): string
    {
      match this
      case UnderwaterOpening => UnderwaterOpeningText
      case Submerged(depth) => "This location is submerged under " + IntToString(Round(depth)) + " meters of water. "
      case TimeLine(years, phase) => "Time period: " + years + ", " + phase + " in Scandinavia. "
      case WaterLife(salinity) => WaterLifeText(salinity)
      case LightRays =>
        "Sunlight filtering down from the surface above, creating light rays through water. "
        + "Realistic underwater photography style. Bubbles, particles in water. "
      case HistoricalOpening(name, years) => HistoricalOpeningText + name + " (" + years + ") in Scandinavia. "
      case UrbanScene(town, urban, buildings, people) =>
        "Urban scene in " + town + ": " + urban + ". "
        + "Architecture: ONLY " + buildings + ". "
        + "People: " + people + ". "
      case TownNote(note) => if |note| > 0 then note + " " else ""
      case CoastalScene(coastal, buildings, people) =>
        "Coastal Scandinavian scene: " + coastal + ". "
        + "Structures: ONLY " + buildings + ". "
        + "Coastal activity: fishing, " + people + ". "
      case RuralScene(rural, buildings, people) =>
        "Rural Scandinavian landscape: " + rural + ". "
        + "Dwellings: ONLY " + buildings + ". "
        + "People: " + people + ". "
      case Nature(vegetation, animals, technology) =>
        "Flora: ONLY " + vegetation + ". "
        + "Fauna: " + animals + ". "
        + "Tools and technology: ONLY " + technology + ". "
      case ExclusionList(items) =>
        if |items| > 0 then "CRITICAL - DO NOT INCLUDE: " + Join(items, ", ") + ". " else ""
      case Composition(view) => "Match this composition: " + view + ". "
      case PersonTransformation(person, periodName, clothing) =>
        "\n\nIMPORTANT - PERSON TRANSFORMATION: "
        + "There is a person in this image (" + person + "). "
        + "KEEP their face, body position, and pose EXACTLY the same. "
        + "TRANSFORM their clothing, hairstyle, and accessories to match " + periodName + ": "
        + clothing.description + ". "
        + "Hair: " + clothing.hair + ". "
        + "Accessories: " + clothing.accessories + ". "
        + "DO NOT change the person's facial features, expression, or body position. "
        + "ONLY change their outfit and hairstyle to be historically accurate. "
      case Closing => ClosingText
    }
  }

  function WaterLifeText(salinity: SG.Salinity): string
  {
    match salinity
    case Freshwater =>
      "Clear freshwater environment. Sandy or rocky bottom visible. "
      + "Aquatic plants like pondweed and water lilies. Pike, perch, and bream swimming. "
      + "NO trees, NO grass, NO land animals - this is completely underwater. "
    case Brackish =>
      "Murky brackish water with greenish tint and limited visibility. "
      + "Seaweed, algae on rocks. Cod, herring, flounder near the bottom. "
      + "NO trees, NO land vegetation - only marine and brackish water life. "
    case Marine =>
      "Clear saltwater marine environment. "
      + "Kelp and seaweed attached to rocks. Schools of herring, cod. Seals visible. "
      + "NO trees, NO terrestrial plants - purely marine ecosystem. "
  }

  /** The sentences of each segment, in order. */
  function Texts(parts: seq<Segment>): seq<string>
  {
    seq(|parts|, i requires 0 <= i < |parts| => parts[i].Text())
  }

  /** The prompt string: the segments' sentences one after another. */
  function Render(parts: seq<Segment>): string
  {
    Concat(Texts(parts))
  }

  /** A segment list that opens with the underwater or the historical sentence
      renders to a string that opens with it too. */
  lemma RenderOpening(parts: seq<Segment>)
    requires |parts| > 0
    ensures parts[0] == UnderwaterOpening ==> UnderwaterOpeningText <= Render(parts)
    ensures parts[0].HistoricalOpening? ==> HistoricalOpeningText <= Render(parts)
  {
    var ts := Texts(parts);
    ConcatEnds(ts);
    if parts[0].HistoricalOpening? {
      var name := parts[0].name + " (" + parts[0].yearLabel + ") in Scandinavia. ";
      assert ts[0] == HistoricalOpeningText + name;
      AppendAssoc(HistoricalOpeningText, name, Concat(ts[1..]));
      PrefixOfAppend(HistoricalOpeningText, name + Concat(ts[1..]));
    } else if parts[0] == UnderwaterOpening {
      PrefixOfAppend(UnderwaterOpeningText, Concat(ts[1..]));
    }
  }

  /** A segment list that ends with the closing sentences renders to a string
      that ends with them. */
  lemma RenderClosing(parts: seq<Segment>)
    requires |parts| > 0 && parts[|parts| - 1] == Closing
    ensures exists front :: Render(parts) == front + ClosingText
  {
    var ts := Texts(parts);
    ConcatEnds(ts);
    assert Render(parts) == Concat(ts[..|ts| - 1]) + ClosingText;
  }

  // ---------------------------------------------------------------------------
  // generateImagePrompt
  // ---------------------------------------------------------------------------

  /** Which land template describes the place. */
  datatype Template = UrbanTemplate | CoastalTemplate | RuralTemplate

  /** The urban template needs an urban classification of a town that already
      exists and is known; otherwise a coastal classification picks the coastal
      template, and everything else is rural. */
  function ChooseTemplate(analysis: CD.LocationAnalysis): (t: Template)
    ensures t == UrbanTemplate <==>
      analysis.kind == CD.Urban && analysis.cityExistedInPeriod && analysis.nearestCity.Some?
    ensures t == CoastalTemplate <==>
      !(analysis.kind == CD.Urban && analysis.cityExistedInPeriod && analysis.nearestCity.Some?)
      && analysis.kind == CD.Coastal
  {
    if analysis.kind == CD.Urban && analysis.cityExistedInPeriod && analysis.nearestCity.Some? then UrbanTemplate
    else if analysis.kind == CD.Coastal then CoastalTemplate
    else RuralTemplate
  }

  /** `geoAnalysis?.seaStatus.wasUnderwater`. */
  predicate Underwater(geo: Option<SG.GeoAnalysis>)
  {
    geo.Some? && geo.value.seaStatus.wasUnderwater
  }

  /** The values the templates interpolate, looked up once: the period's texts,
      its exclusion list and clothing, and the note of the town an urban scene
      is set in (empty for the other templates). */
  datatype Details = Details(
    name: string,
    yearLabel: string,
    scenery: TP.Scenery,
    contents: TP.Contents,
    exclusions: seq<string>,
    clothing: Clothing,
    town: string,
    townNote: string)

  function PeriodDetails(period: TP.TimePeriod, analysis: CD.LocationAnalysis): Details
  {
    var urban := ChooseTemplate(analysis) == UrbanTemplate;
    Details(
      TP.Name(period), TP.YearLabel(period), TP.Landscape(period), TP.Features(period),
      HistoricalExclusions(period.yearStart), PeriodClothing(period.yearStart),
      if urban then analysis.nearestCity.value.name else "",
      if urban then CD.CityDescription(analysis.nearestCity.value, period.yearStart) else "")
  }

  /** The sentences of a submerged location. */
  function UnderwaterParts(d: Details, status: SG.SeaStatus): (r: seq<Segment>)
    ensures |r| == 5 && r[0] == UnderwaterOpening
    ensures forall i | 0 <= i < |r| :: !r[i].ExclusionList? && !r[i].Composition? && !r[i].PersonTransformation? && r[i] != Closing
  {
    [UnderwaterOpening,
     Submerged(status.seaLevel - status.historicalElevation),
     TimeLine(d.yearLabel, status.seaPhase.name),
     WaterLife(status.seaPhase.salinity),
     LightRays]
  }

  /** The scene sentences of the chosen land template; the urban one is followed
      by the town's own note (which renders to nothing when the town has none). */
  function SceneParts(d: Details, template: Template): (r: seq<Segment>)
    ensures 1 <= |r| <= 2
    ensures template == UrbanTemplate <==> r[0].UrbanScene?
    ensures template == CoastalTemplate <==> r[0].CoastalScene?
    ensures template == RuralTemplate <==> r[0].RuralScene?
    ensures |r| == 2 <==> r[0].UrbanScene?
    ensures forall i | 1 <= i < |r| :: r[i] == TownNote(d.townNote)
  {
    var f := d.contents;
    var l := d.scenery;
    match template
    case UrbanTemplate => [UrbanScene(d.town, l.urban, f.buildings, f.people), TownNote(d.townNote)]
    case CoastalTemplate => [CoastalScene(l.coastal, f.buildings, f.people)]
    case RuralTemplate => [RuralScene(l.rural, f.buildings, f.people)]
  }

  /** The sentences of a location on land. */
  function LandParts(d: Details, template: Template, view: string): (r: seq<Segment>)
    ensures |r| >= 4 && r[0] == HistoricalOpening(d.name, d.yearLabel) && r[1] == SceneParts(d, template)[0]
    ensures ExclusionList(d.exclusions) in r
    ensures (exists i | 0 <= i < |r| :: r[i].Composition?) <==> |view| > 0
    ensures forall i | 0 <= i < |r| :: !r[i].PersonTransformation? && r[i] != Closing
  {
    var scene := SceneParts(d, template);
    var f := d.contents;
    var front := [HistoricalOpening(d.name, d.yearLabel)] + scene
      + [Nature(f.vegetation, f.animals, f.technology), ExclusionList(d.exclusions)];
    assert front[|front| - 1] == ExclusionList(d.exclusions);
    assert forall i | 0 <= i < |front| :: !front[i].Composition?;
    if |view| > 0 then
      var r := front + [Composition(view)];
      assert r[|front|].Composition?;
      r
    else front
  }

  /** The person block, present only for a detected person with a description. */
  function PersonParts(d: Details, hasPerson: bool, person: string): (r: seq<Segment>)
    ensures |r| <= 1
    ensures |r| == 1 <==> hasPerson && |person| > 0
    ensures forall i | 0 <= i < |r| :: r[i] == PersonTransformation(person, d.name, d.clothing)
  {
    if hasPerson && |person| > 0 then [PersonTransformation(person, d.name, d.clothing)] else []
  }

  /** The segments of a prompt: a submerged place (`sea` present) gets the
      underwater sentences, any other the land sentences of the template, then
      the person block if any, and the closing demand last. */
  function PromptParts(d: Details, sea: Option<SG.SeaStatus>, template: Template,
                       view: string, hasPerson: bool, person: string): (r: seq<Segment>)
    ensures |r| >= 2 && r[|r| - 1] == Closing
    ensures r[0] == UnderwaterOpening <==> sea.Some?
    ensures r[0] == HistoricalOpening(d.name, d.yearLabel) <==> sea.None?
    ensures sea.None? ==> r[1] == SceneParts(d, template)[0] && ExclusionList(d.exclusions) in r
  {
    var body := if sea.Some? then UnderwaterParts(d, sea.value) else LandParts(d, template, view);
    var r := body + PersonParts(d, hasPerson, person) + [Closing];
    assert r[0] == body[0] && r[1] == body[1];
    assert sea.None? ==> ExclusionList(d.exclusions) in body;
    r
  }

  /** What else the segments contain: the closing demand only once, at the end;
      no exclusion list and no composition under water; a composition exactly
      for a place on land with a view, and the person block exactly for a
      detected person with a description. */
  lemma PromptPartsContents(d: Details, sea: Option<SG.SeaStatus>, template: Template,
                            view: string, hasPerson: bool, person: string)
    ensures var r := PromptParts(d, sea, template, view, hasPerson, person);
      && (forall i | 0 <= i < |r| - 1 :: r[i] != Closing)
      && (sea.Some? ==> forall i | 0 <= i < |r| :: !r[i].ExclusionList? && !r[i].Composition?)
      && ((exists i | 0 <= i < |r| :: r[i].Composition?) <==> sea.None? && |view| > 0)
      && ((exists i | 0 <= i < |r| :: r[i].PersonTransformation?) <==> hasPerson && |person| > 0)
  {
    var body := if sea.Some? then UnderwaterParts(d, sea.value) else LandParts(d, template, view);
    var tail := PersonParts(d, hasPerson, person);
    var r := PromptParts(d, sea, template, view, hasPerson, person);
    assert r == body + tail + [Closing];
    assert forall i | 0 <= i < |body| :: r[i] == body[i];
    assert forall i | 0 <= i < |tail| :: r[|body| + i] == tail[i];
    assert |tail| == 1 ==> r[|body|].PersonTransformation?;
  }

  /** generateImagePrompt, segment by segment. */
  function ImagePromptParts(period: TP.TimePeriod, analysis: CD.LocationAnalysis, geo: Option<SG.GeoAnalysis>,
                            view: string, hasPerson: bool, person: string): seq<Segment>
  {
    PromptParts(PeriodDetails(period, analysis),
                if Underwater(geo) then Some(geo.value.seaStatus) else None,
                ChooseTemplate(analysis), view, hasPerson, person)
  }

  /** For the arguments of generateImagePrompt: the underwater sentences exactly
      for a place the geology puts under water, the exclusion list on land, a
      composition exactly on land with a view, and the person block exactly
      for a detected person with a description. */
  lemma ImagePromptContents(period: TP.TimePeriod, analysis: CD.LocationAnalysis, geo: Option<SG.GeoAnalysis>,
                            view: string, hasPerson: bool, person: string)
    ensures var r := ImagePromptParts(period, analysis, geo, view, hasPerson, person);
      && (r[0] == UnderwaterOpening <==> Underwater(geo))
      && (!Underwater(geo) ==> ExclusionList(HistoricalExclusions(period.yearStart)) in r)
      && ((exists i | 0 <= i < |r| :: r[i].Composition?) <==> !Underwater(geo) && |view| > 0)
      && ((exists i | 0 <= i < |r| :: r[i].PersonTransformation?) <==> hasPerson && |person| > 0)
  {
    var sea := if Underwater(geo) then Some(geo.value.seaStatus) else None;
    PromptPartsContents(PeriodDetails(period, analysis), sea, ChooseTemplate(analysis), view, hasPerson, person);
  }

  /** generateImagePrompt: the prompt opens with the underwater sentence for a
      submerged place, with the historical sentence otherwise, and always
      closes with the fixed accuracy demand. */
  function ImagePrompt(period: TP.TimePeriod, analysis: CD.LocationAnalysis, geo: Option<SG.GeoAnalysis>,
                       view: string, hasPerson: bool, person: string): (p: string)
    ensures Underwater(geo) ==> UnderwaterOpeningText <= p
    ensures !Underwater(geo) ==> HistoricalOpeningText <= p
    ensures exists front :: p == front + ClosingText
  {
    var parts := ImagePromptParts(period, analysis, geo, view, hasPerson, person);
    RenderOpening(parts);
    RenderClosing(parts);
    Render(parts)
  }

  // ---------------------------------------------------------------------------
  // Fragments of the request handler
  // ---------------------------------------------------------------------------

  /** `getPeriodById(period) || TIME_PERIODS[0]`. */
  function SelectPeriod(id: string): (p: TP.TimePeriod)
    ensures p in TP.TimePeriodTable
    ensures (exists i | 0 <= i < |TP.TimePeriodTable| :: TP.TimePeriodTable[i].id == id) ==> p.id == id
    ensures (forall i | 0 <= i < |TP.TimePeriodTable| :: TP.TimePeriodTable[i].id != id) ==> p == TP.TimePeriodTable[0]
  {
    TP.GetPeriodById(id).GetOr(TP.TimePeriodTable[0])
  }

  /** The geology period each prehistoric and ancient catalog period is analysed at. */
  const SguPeriodMap: map<string, string> := map[
    "stone_early" := "boreal",
    "stone_middle" := "atlantic_early",
    "stone_late" := "atlantic_late",
    "bronze" := "subboreal",
    "iron_early" := "subboreal",
    "iron_late" := "subboreal"]

  const DefaultSguPeriod := "atlantic_early"

  /** The geology period asked for, or None when the era gets no geology. */
  function SguPeriodFor(period: TP.TimePeriod): (r: Option<string>)
    ensures r.Some? <==> period.era == TP.Prehistoric || period.era == TP.Ancient
    ensures r.Some? && period.id in SguPeriodMap ==> r.value == SguPeriodMap[period.id]
    ensures r.Some? && period.id !in SguPeriodMap ==> r.value == DefaultSguPeriod
  {
    if period.era == TP.Prehistoric || period.era == TP.Ancient then
      Some(if period.id in SguPeriodMap then SguPeriodMap[period.id] else DefaultSguPeriod)
    else None
  }

  /** The geological analysis of the handler, given the elevation it would fetch. */
  function GeologyFor(lat: real, lng: real, period: TP.TimePeriod, elevation: real): (r: Option<SG.GeoAnalysis>)
    ensures r.Some? <==> period.era == TP.Prehistoric || period.era == TP.Ancient
    ensures r.Some? ==> r.value == SG.AnalyzeLocation(lat, lng, SguPeriodFor(period).value, elevation)
  {
    match SguPeriodFor(period)
    case Some(id) => Some(SG.AnalyzeLocation(lat, lng, id, elevation))
    case None => None
  }

  /** The landscape sentence of the response. */
  function LandscapeDescription(period: TP.TimePeriod, analysis: CD.LocationAnalysis): (s: string)
    ensures analysis.kind == CD.Urban && analysis.cityExistedInPeriod ==> s == TP.Landscape(period).urban
    ensures !(analysis.kind == CD.Urban && analysis.cityExistedInPeriod) && analysis.kind == CD.Coastal ==>
      s == TP.Landscape(period).coastal
    ensures !(analysis.kind == CD.Urban && analysis.cityExistedInPeriod) && analysis.kind != CD.Coastal ==>
      s == TP.Landscape(period).rural
  {
    if analysis.kind == CD.Urban && analysis.cityExistedInPeriod then TP.Landscape(period).urban
    else if analysis.kind == CD.Coastal then TP.Landscape(period).coastal
    else TP.Landscape(period).rural
  }

  /** For a classification of a catalog point, the landscape sentence of the
      response is the one the prompt's template describes. */
  lemma LandscapeMatchesTemplate(period: TP.TimePeriod, lat: real, lng: real, distanceTo: CD.CityInfo -> real)
    ensures var a := CD.AnalyzeLocationType(lat, lng, period.yearStart, distanceTo);
      LandscapeDescription(period, a) ==
        match ChooseTemplate(a)
        case UrbanTemplate => TP.Landscape(period).urban
        case CoastalTemplate => TP.Landscape(period).coastal
        case RuralTemplate => TP.Landscape(period).rural
  {
  }

  /** Every geology period the handler asks for is one of the stone-age periods. */
  lemma SguPeriodsKnown(period: TP.TimePeriod)
    requires SguPeriodFor(period).Some?
    ensures SG.ResolveStonePeriod(SguPeriodFor(period).value).id == SguPeriodFor(period).value
  {
    var id := SguPeriodFor(period).value;
    var s := SG.StoneAgePeriods;
    assert id == s[2].id || id == s[3].id || id == s[4].id || id == s[5].id;
  }
}
