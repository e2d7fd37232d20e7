/** The period catalog of time-periods.ts: twelve chronological periods from
    the early Stone Age to the early twentieth century, lookup by id, grouping by
    era and the era names. */
module TimePeriods {
  import opened Basics

  datatype Era = Prehistoric | Ancient | Medieval | EarlyModern | Modern
  {
    /** The string the source stores in a period's `era` field. */
    function Key(): string
    {
      match this
      case Prehistoric => "prehistoric"
      case Ancient => "ancient"
      case Medieval => "medieval"
      case EarlyModern => "early_modern"
      case Modern => "modern"
    }
  }

  /** What the landscape looks like away from towns, on the coast and in a town. */
  datatype Scenery = Scenery(rural: string, coastal: string, urban: string)

  /** What a scene of the period contains. */
  datatype Contents = Contents(buildings: string, people: string, animals: string, vegetation: string, technology: string)

  /** Which of the twelve catalog entries a period is. */
  datatype Entry = StoneEarly | StoneMiddle | StoneLate | Bronze | IronEarly | IronLate | Viking | MedievalEarly | MedievalLate | EarlyModern | Industrial | Early1900s

  /** A catalog period; years are negative for BC. The descriptive texts of an
      entry (name, year label, description, landscape, features) are functions
      of its `entry`, so that reasoning about ids and years never has to carry
      the catalog's prose along. */
  datatype TimePeriod = TimePeriod(entry: Entry, id: string, era: Era, yearStart: int, yearEnd: int)

  function Name(p: TimePeriod): string
  {
    match p.entry
    case StoneEarly => "Äldre stenåldern"
    case StoneMiddle => "Mellanneolitikum"
    case StoneLate => "Yngre stenåldern"
    case Bronze => "Bronsåldern"
    case IronEarly => "Äldre järnåldern"
    case IronLate => "Vendeltid"
    case Viking => "Vikingatiden"
    case MedievalEarly => "Tidig medeltid"
    case MedievalLate => "Sen medeltid"
    case EarlyModern => "Stormaktstiden"
    case Industrial => "1800-talet"
    case Early1900s => "Tidigt 1900-tal"
  }

  function YearLabel(p: TimePeriod): string
  {
    match p.entry
    case StoneEarly => "10 000 - 4 000 f.Kr."
    case StoneMiddle => "4 000 - 2 500 f.Kr."
    case StoneLate => "2 500 - 1 700 f.Kr."
    case Bronze => "1 700 - 500 f.Kr."
    case IronEarly => "500 f.Kr. - 400 e.Kr."
    case IronLate => "400 - 800 e.Kr."
    case Viking => "800 - 1050 e.Kr."
    case MedievalEarly => "1050 - 1300 e.Kr."
    case MedievalLate => "1300 - 1500 e.Kr."
    case EarlyModern => "1611 - 1721 e.Kr."
    case Industrial => "1800 - 1900 e.Kr."
    case Early1900s => "1900 - 1950 e.Kr."
  }

  function Description(p: TimePeriod): string
  {
    match p.entry
    case StoneEarly =>
      "Jägare och samlare. Isen har nyligen smält. Människor lever i små grupper och följer viltet."
    case StoneMiddle =>
      "De första bönderna. Jordbruk och boskapsskötsel börjar. Megalitgravar byggs."
    case StoneLate =>
      "Stridsyxekulturen. Mer hierarkiska samhällen. Handel över stora avstånd."
    case Bronze =>
      "Brons används för vapen och smycken. Rika hövdingadömen. Hällristningar."
    case IronEarly =>
      "Järn ersätter brons. Romersk påverkan. Runor börjar användas."
    case IronLate =>
      "Strax före vikingatiden. Rika gravfynd. Hjälmar och svärd av hög kvalitet."
    case Viking =>
      "Vikingar seglar över haven. Handel och plundring. Birka och Sigtuna grundas."
    case MedievalEarly =>
      "Kristendomen etableras. Kyrkor byggs i sten. Städer grundas."
    case MedievalLate =>
      "Hanseatisk handel. Digerdöden. Unionsstrid."
    case EarlyModern =>
      "Sverige är en stormakt. Barock. Gustav II Adolf och Karl XII."
    case Industrial =>
      "Industrialisering. Emigration till Amerika. Järnvägen byggs."
    case Early1900s =>
      "Folkhemmet börjar byggas. Bilar dyker upp. Världskrigen."
  }

  function Landscape(p: TimePeriod): Scenery
  {
    match p.entry
    case StoneEarly => Scenery(
      "Vild urskog med tall och björk, sjöar och våtmarker, inga vägar eller byggnader",
      "Klippiga stränder, sälkolonier, fiskare i enkla kanoter av trä",
      "Inga städer existerar - endast tillfälliga lägerplatser")
    case StoneMiddle => Scenery(
      "Öppnare landskap, små åkrar, betesmarker, lövskog",
      "Skalbankar vid kusten, fiskelägen, enkla båtar",
      "Inga städer - större byar med långhus")
    case StoneLate => Scenery(
      "Jordbrukslandskap med gårdar, gravhögar på kullar",
      "Handelsplatser vid kusten, större båtar",
      "Inga städer - men större bosättningar")
    case Bronze => Scenery(
      "Öppna betesmarker, gravrösen på höjder, hällristningar vid vatten",
      "Handelshamnar, bronsgjutning, skepp avbildade på hällar",
      "Inga städer - men centralplatser för handel och kult")
    case IronEarly => Scenery(
      "Välorganiserade gårdar, stensträngar, gravfält",
      "Handelsplatser, kontakt med romarriket",
      "Inga städer - men stora gårdar och handelsplatser")
    case IronLate => Scenery(
      "Stormannagårdar, kultplatser, skippsättningar",
      "Handelsplatser som Helgö, tidiga hamnar",
      "Handelsplatser börjar likna små städer")
    case Viking => Scenery(
      "Välorganiserade byar, runstenar vid vägar",
      "Hamnar med vikingaskepp, varv, handelsplatser",
      "Birka, Sigtuna - tidiga handelsstäder med hus av trä")
    case MedievalEarly => Scenery(
      "Byar med teglagårdar, kyrkor i varje socken",
      "Fisklägen, Hansakontakter börjar",
      "Stockholm grundas, stenkyrkor, torg och handelsgator")
    case MedievalLate => Scenery(
      "Ödebyar efter pesten, skogsåterväxt",
      "Hansakontor, fiskhandel",
      "Befästa städer, kyrkor, rådhus, köpmannahus")
    case EarlyModern => Scenery(
      "Reglerade byar, adelsgods, enkla torparstugor",
      "Örlogshamnar, varv, fästningar",
      "Regelbundna rutnätsstäder, barockkyrkor, slott")
    case Industrial => Scenery(
      "Skiftade byar, röda stugor, stenmurar",
      "Fisklägen, sommargäster börjar komma",
      "Fabriker, arbetarbostäder, stationssamhällen")
    case Early1900s => Scenery(
      "Jordbruk med traktorer börjar, landsbygden avfolkas",
      "Badorter, fiskeindustri",
      "Funktionalism, spårvagnar, varuhus, biografer")
  }

  function Features(p: TimePeriod): Contents
  {
    match p.entry
    case StoneEarly => Contents(
      "Tillfälliga hyddor av skinn och grenar, vindskydd",
      "Jägare klädda i djurhudar, små familjegrupper",
      "Älg, ren, vildsvin, säl, varg, björn",
      "Tall, björk, vide, bärbuskar, vass vid vatten",
      "Stenverktyg, pilbågar, fiskeredskap av ben")
    case StoneMiddle => Contents(
      "Långhus av trä och lera, megalitgravar (dösar, gånggrifter)",
      "Bönder i enkla linnekläder, kvinnor med keramikkärl",
      "Tamboskap (kor, får, getter), hundar, vilda djur i skogen",
      "Odlade fält med korn, lövängar, ek och hassel",
      "Slipade stenyxor, keramik, enkla plogar")
    case StoneLate => Contents(
      "Större gårdar, hövdingahus, gravhögar",
      "Hövdingar med stridsyxor, bondefamiljer, handelsmän",
      "Hästar börjar användas, kor, får, hundar",
      "Mer öppet odlingslandskap, ek och bok",
      "Stridsyxor, bättre keramik, begynnande metallkunskap")
    case Bronze => Contents(
      "Stora trähus, kultplatser, gravrösen av sten",
      "Hövdingar med bronssvärd, kvinnor med spiralsmycken, präster",
      "Hästar (även för ridning), oxar för dragning, får, grisar",
      "Öppnare landskap, ljunghedar, ekar på kullar",
      "Bronssvärd, yxor, smycken, tvåhjuliga vagnar, skepp")
    case IronEarly => Contents(
      "Långhus med eldstad, förrådsbodar, gravfält med högar",
      "Bönder, smeder, hövdingar med järnsvärd, trälar",
      "Hästar, kor, grisar, får, höns, hundar",
      "Jordbrukslandskap, ängar, mindre skog",
      "Järnverktyg, vävstolar, runor, mynt (importerade)")
    case IronLate => Contents(
      "Hallbyggnader för hövdingar, smedjor, båtskjul",
      "Kungar och hövdingar i praktfulla kläder, skalder, smeder",
      "Hästar (statussymbol), hundar, hökar för jakt",
      "Odlingslandskap, heliga lundar",
      "Praktfulla hjälmar, mönstervällade svärd, guldsmide")
    case Viking => Contents(
      "Långhus, hovsalar, stavkyrkor (sent), bryggkor",
      "Vikingar med yxor och sköldar, köpmän, trälar, völvor",
      "Hästar, hundar, grisar, kor, höns, korpar (Odins fåglar)",
      "Odlingslandskap, äng och hage, skog för skeppsbygge",
      "Vikingaskepp, svärd, runstenar, silvermynt, vävnader")
    case MedievalEarly => Contents(
      "Romanska stenkyrkor, kloster, enkla trähus, borgar",
      "Munkar och nunnor, riddare, bönder, köpmän, kungar",
      "Hästar, oxar, får, getter, hundar, duvslag",
      "Odlingslandskap, äng, klostergårdar med örtagårdar",
      "Järnplogar, vattenkvarnar, stenkyrkor, pergament")
    case MedievalLate => Contents(
      "Gotiska kyrkor, stenhus i städer, borgar",
      "Hansaköpmän, riddare, bönder, borgare, tiggarmunkar",
      "Hästar, oxar, grisar, höns, hundar",
      "Mer skog (efter pesten), odlingsmark",
      "Armborst, krutvapen (sent), tryckpress (sent)")
    case EarlyModern => Contents(
      "Barockslott, kyrkor med torn, korsvirkeshus, torp",
      "Soldater i uniformer, adelsmän med peruker, bönder, präster",
      "Hästar (kavalleri), oxar, kor, höns",
      "Odlingslandskap, trädgårdar i barockstil",
      "Musköter, kanoner, segelskepp, tryckta böcker")
    case Industrial => Contents(
      "Röda trästugor, fabriker, järnvägsstationer, kyrkor",
      "Fabriksarbetare, bönder, borgare i hög hatt, emigranter",
      "Hästar för transport, kor, grisar, höns",
      "Öppet jordbrukslandskap, björkalléer",
      "Ånglok, telegrafer, fotografi, gaslyktor")
    case Early1900s => Contents(
      "Funkishus, folkhemslägenheter, vattentorn, biografer",
      "Arbetare med keps, kvinnor i 20-talsklänningar, barn i skoluniform",
      "Hästar (fortfarande vanliga), kor, hundar, katter",
      "Trädgårdsstäder, kolonilotter, parker",
      "Bilar (T-Ford), cyklar, radio, telefon, el i hemmen")
  }

  /** TIME_PERIODS, in catalog order. */
  const TimePeriodTable: seq<TimePeriod> := [
    TimePeriod(StoneEarly, "stone_early", Prehistoric, -10000, -4000),
    TimePeriod(StoneMiddle, "stone_middle", Prehistoric, -4000, -2500),
    TimePeriod(StoneLate, "stone_late", Prehistoric, -2500, -1700),
    TimePeriod(Bronze, "bronze", Ancient, -1700, -500),
    TimePeriod(IronEarly, "iron_early", Ancient, -500, 400),
    TimePeriod(IronLate, "iron_late", Ancient, 400, 800),
    TimePeriod(Viking, "viking", Medieval, 800, 1050),
    TimePeriod(MedievalEarly, "medieval_early", Medieval, 1050, 1300),
    TimePeriod(MedievalLate, "medieval_late", Medieval, 1300, 1500),
    TimePeriod(Entry.EarlyModern, "early_modern", Era.EarlyModern, 1611, 1721),
    TimePeriod(Industrial, "industrial", Modern, 1800, 1900),
    TimePeriod(Early1900s, "early_1900s", Modern, 1900, 1950)]

  // ---------------------------------------------------------------------------
  // Catalog laws
  // ---------------------------------------------------------------------------

  /** Every period is a non-empty span and each ends no later than the next begins. */
  predicate Chronological(periods: seq<TimePeriod>)
  {
    && (forall i | 0 <= i < |periods| :: periods[i].yearStart < periods[i].yearEnd)
    && (forall i | 0 <= i < |periods| - 1 :: periods[i].yearEnd <= periods[i + 1].yearStart)
  }

  predicate DistinctIds(periods: seq<TimePeriod>)
  {
    forall i, j | 0 <= i < j < |periods| :: periods[i].id != periods[j].id
  }

  lemma CatalogChronological()
    ensures |TimePeriodTable| == 12
    ensures Chronological(TimePeriodTable)
  {
  }

  /** In a chronological catalog an earlier period ends no later than a later one starts. */
  lemma {:induction false} ChronologicalOrdered(periods: seq<TimePeriod>, i: nat, j: nat)
    requires Chronological(periods)
    requires i < j < |periods|
    ensures periods[i].yearEnd <= periods[j].yearStart
    decreases j - i
  {
    if j > i + 1 {
      ChronologicalOrdered(periods, i, j - 1);
    }
  }

  lemma CatalogDistinctIds()
    ensures DistinctIds(TimePeriodTable)
  {
    var t := TimePeriodTable;
    forall i, j | 0 <= i < j < |t| ensures t[i].id != t[j].id {
      // ids of equal length already differ in their second character
      assert |t[i].id| != |t[j].id| || t[i].id[1] != t[j].id[1];
    }
  }

  // ---------------------------------------------------------------------------
  // Lookup by id
  // ---------------------------------------------------------------------------

  /** getPeriodById: the first period with the given id, None for `undefined`. */
  function PeriodById(periods: seq<TimePeriod>, id: string): (r: Option<TimePeriod>)
    ensures r.Some? ==> r.value in periods && r.value.id == id
    ensures r.None? <==> forall i | 0 <= i < |periods| :: periods[i].id != id
  {
    match FirstIndex(periods, (p: TimePeriod) => p.id == id, 0)
    case Some(i) => Some(periods[i])
    case None => None
  }

  /** With distinct ids, looking up an entry's id finds that entry. */
  lemma PeriodByIdFindsEntry(periods: seq<TimePeriod>, k: nat)
    requires DistinctIds(periods) && k < |periods|
    ensures PeriodById(periods, periods[k].id) == Some(periods[k])
  {
    var i := FirstIndex(periods, (p: TimePeriod) => p.id == periods[k].id, 0);
    assert i.Some?;
    assert !(i.value < k) && !(k < i.value);
  }

  /** getPeriodById over the catalog. */
  function GetPeriodById(id: string): (r: Option<TimePeriod>)
    ensures r.Some? ==> r.value in TimePeriodTable && r.value.id == id
    ensures r.None? <==> forall i | 0 <= i < |TimePeriodTable| :: TimePeriodTable[i].id != id
  {
    PeriodById(TimePeriodTable, id)
  }

  // ---------------------------------------------------------------------------
  // Grouping by era
  // ---------------------------------------------------------------------------

  /** The periods of one era, in catalog order. */
  function OfEra(periods: seq<TimePeriod>, era: Era): (r: seq<TimePeriod>)
    ensures |r| <= |periods|
    decreases |periods|
  {
    if |periods| == 0 then []
    else
      var last := periods[|periods| - 1];
      OfEra(periods[..|periods| - 1], era) + (if last.era == era then [last] else [])
  }

  lemma OfEraSnoc(periods: seq<TimePeriod>, p: TimePeriod, era: Era)
    ensures OfEra(periods + [p], era) == OfEra(periods, era) + (if p.era == era then [p] else [])
  {
    assert (periods + [p])[..|periods|] == periods;
  }

  /** The periods of an era are exactly the catalog's periods of that era. */
  lemma {:induction false} OfEraMembers(periods: seq<TimePeriod>, era: Era)
    ensures forall x :: x in OfEra(periods, era) <==> x in periods && x.era == era
    decreases |periods|
  {
    if |periods| > 0 {
      var n := |periods| - 1;
      OfEraMembers(periods[..n], era);
      assert periods == periods[..n] + [periods[n]];
    }
  }

  datatype Group = Group(era: Era, members: seq<TimePeriod>)

  /** The index of the group for `era`, if there is one. */
  function GroupIndex(groups: seq<Group>, era: Era): (r: Option<nat>)
    ensures r.Some? ==> r.value < |groups| && groups[r.value].era == era
    ensures r.None? ==> forall i | 0 <= i < |groups| :: groups[i].era != era
  {
    FirstIndex(groups, (g: Group) => g.era == era, 0)
  }

  /** One step of the grouping loop: push onto the era's group, opening it first
      if it does not exist yet. */
  function AddToGroups(groups: seq<Group>, p: TimePeriod): seq<Group>
  {
    match GroupIndex(groups, p.era)
    case Some(i) => groups[i := Group(p.era, groups[i].members + [p])]
    case None => groups + [Group(p.era, [p])]
  }

  /** getPeriodsByEra over any catalog; the groups keep the order in which their
      eras first appear (the insertion order of the source's record). */
  function GroupByEra(periods: seq<TimePeriod>): seq<Group>
    decreases |periods|
  {
    if |periods| == 0 then [] else AddToGroups(GroupByEra(periods[..|periods| - 1]), periods[|periods| - 1])
  }

  /** Every era that occurs in `periods` has a group. */
  predicate Covered(groups: seq<Group>, periods: seq<TimePeriod>)
  {
    forall k | 0 <= k < |periods| :: GroupIndex(groups, periods[k].era).Some?
  }

  /** The groups of `periods`: one per era that occurs, none empty, eras
      distinct, each holding exactly that era's periods in catalog order. */
  predicate GroupsOf(groups: seq<Group>, periods: seq<TimePeriod>)
  {
    && (forall i, j | 0 <= i < j < |groups| :: groups[i].era != groups[j].era)
    && (forall i | 0 <= i < |groups| :: groups[i].members == OfEra(periods, groups[i].era))
    && (forall i | 0 <= i < |groups| :: |groups[i].members| > 0)
    && Covered(groups, periods)
  }

  function TotalSize(groups: seq<Group>): nat
    decreases |groups|
  {
    if |groups| == 0 then 0 else TotalSize(groups[..|groups| - 1]) + |groups[|groups| - 1].members|
  }

  lemma {:induction false} TotalSizeUpdate(groups: seq<Group>, i: nat, g: Group)
    requires i < |groups|
    ensures TotalSize(groups[i := g]) == TotalSize(groups) - |groups[i].members| + |g.members|
    decreases |groups|
  {
    var n := |groups| - 1;
    if i < n {
      assert groups[i := g][..n] == groups[..n][i := g];
      TotalSizeUpdate(groups[..n], i, g);
    } else {
      assert groups[i := g][..n] == groups[..n];
    }
  }

  lemma TotalSizeAppend(groups: seq<Group>, g: Group)
    ensures TotalSize(groups + [g]) == TotalSize(groups) + |g.members|
  {
    assert (groups + [g])[..|groups|] == groups;
  }

  /** A group at index m is found by its era. */
  lemma GroupIndexFinds(groups: seq<Group>, m: nat, era: Era)
    requires m < |groups| && groups[m].era == era
    ensures GroupIndex(groups, era).Some?
  {
  }

  lemma {:induction false} OfEraNone(periods: seq<TimePeriod>, era: Era)
    requires forall k | 0 <= k < |periods| :: periods[k].era != era
    ensures OfEra(periods, era) == []
    decreases |periods|
  {
    if |periods| > 0 {
      OfEraNone(periods[..|periods| - 1], era);
    }
  }

  /** An era without a group has no periods. */
  lemma OfEraEmpty(periods: seq<TimePeriod>, era: Era, groups: seq<Group>)
    requires Covered(groups, periods)
    requires GroupIndex(groups, era).None?
    ensures OfEra(periods, era) == []
  {
    forall k | 0 <= k < |periods| ensures periods[k].era != era {
      var m := GroupIndex(groups, periods[k].era).value;
      assert groups[m].era != era;
    }
    OfEraNone(periods, era);
  }

  /** Adding a period whose era already has a group. */
  lemma AddToExisting(groups: seq<Group>, periods: seq<TimePeriod>, p: TimePeriod, i: nat)
    requires GroupsOf(groups, periods)
    requires GroupIndex(groups, p.era) == Some(i)
    ensures GroupsOf(groups[i := Group(p.era, groups[i].members + [p])], periods + [p])
  {
    var all := periods + [p];
    var r := groups[i := Group(p.era, groups[i].members + [p])];
    assert forall j | 0 <= j < |r| :: r[j].members == OfEra(all, r[j].era) by {
      ExistingMembers(groups, periods, p, i);
    }
    assert Covered(r, all) by {
      SameErasCovered(groups, r, periods, p, i);
    }
    assert forall j, k | 0 <= j < k < |r| :: r[j].era != r[k].era by {
      UpdateDistinct(groups, i, r[i]);
    }
    assert forall j | 0 <= j < |r| :: |r[j].members| > 0;
  }

  lemma UpdateDistinct(groups: seq<Group>, i: nat, g: Group)
    requires forall j, k | 0 <= j < k < |groups| :: groups[j].era != groups[k].era
    requires i < |groups| && g.era == groups[i].era
    ensures var r := groups[i := g]; forall j, k | 0 <= j < k < |r| :: r[j].era != r[k].era
  {
    var r := groups[i := g];
    assert forall j | 0 <= j < |r| :: r[j].era == groups[j].era;
  }

  lemma ExistingMembers(groups: seq<Group>, periods: seq<TimePeriod>, p: TimePeriod, i: nat)
    requires forall j | 0 <= j < |groups| :: groups[j].members == OfEra(periods, groups[j].era)
    requires forall j, k | 0 <= j < k < |groups| :: groups[j].era != groups[k].era
    requires i < |groups| && groups[i].era == p.era
    ensures var r := groups[i := Group(p.era, groups[i].members + [p])];
      forall j | 0 <= j < |r| :: r[j].members == OfEra(periods + [p], r[j].era)
  {
    var r := groups[i := Group(p.era, groups[i].members + [p])];
    forall j | 0 <= j < |r| ensures r[j].members == OfEra(periods + [p], r[j].era) {
      OfEraSnoc(periods, p, r[j].era);
      if j != i {
        assert groups[j].era != groups[i].era;
      }
    }
  }

  /** Groups with the same eras as before, plus the new period's era at index m,
      cover the extended catalog. */
  lemma SameErasCovered(groups: seq<Group>, r: seq<Group>, periods: seq<TimePeriod>, p: TimePeriod, m: nat)
    requires Covered(groups, periods)
    requires |groups| <= |r| && forall j | 0 <= j < |groups| :: r[j].era == groups[j].era
    requires m < |r| && r[m].era == p.era
    ensures Covered(r, periods + [p])
  {
    var all := periods + [p];
    forall k | 0 <= k < |all| ensures GroupIndex(r, all[k].era).Some? {
      if k < |periods| {
        var n := GroupIndex(groups, periods[k].era).value;
        GroupIndexFinds(r, n, all[k].era);
      } else {
        GroupIndexFinds(r, m, all[k].era);
      }
    }
  }

  /** Adding a period whose era has no group yet. */
  lemma AddNew(groups: seq<Group>, periods: seq<TimePeriod>, p: TimePeriod)
    requires GroupsOf(groups, periods)
    requires GroupIndex(groups, p.era).None?
    ensures GroupsOf(groups + [Group(p.era, [p])], periods + [p])
  {
    var all := periods + [p];
    var g := Group(p.era, [p]);
    var r := groups + [g];
    assert forall j | 0 <= j < |r| :: r[j].members == OfEra(all, r[j].era) by {
      OfEraEmpty(periods, p.era, groups);
      NewMembers(groups, periods, p);
    }
    assert Covered(r, all) by {
      SameErasCovered(groups, r, periods, p, |groups|);
    }
    assert forall j, k | 0 <= j < k < |r| :: r[j].era != r[k].era by {
      AppendDistinct(groups, g);
    }
    assert forall j | 0 <= j < |r| :: |r[j].members| > 0;
  }

  lemma AppendDistinct(groups: seq<Group>, g: Group)
    requires forall j, k | 0 <= j < k < |groups| :: groups[j].era != groups[k].era
    requires forall j | 0 <= j < |groups| :: groups[j].era != g.era
    ensures var r := groups + [g]; forall j, k | 0 <= j < k < |r| :: r[j].era != r[k].era
  {
  }

  lemma NewMembers(groups: seq<Group>, periods: seq<TimePeriod>, p: TimePeriod)
    requires forall j | 0 <= j < |groups| :: groups[j].members == OfEra(periods, groups[j].era)
    requires forall j | 0 <= j < |groups| :: groups[j].era != p.era
    requires OfEra(periods, p.era) == []
    ensures var r := groups + [Group(p.era, [p])];
      forall j | 0 <= j < |r| :: r[j].members == OfEra(periods + [p], r[j].era)
  {
    var r := groups + [Group(p.era, [p])];
    forall j | 0 <= j < |r| ensures r[j].members == OfEra(periods + [p], r[j].era) {
      OfEraSnoc(periods, p, r[j].era);
    }
  }

  /** getPeriodsByEra groups correctly, and every period lands in exactly one group. */
  lemma {:induction false} GroupByEraCorrect(periods: seq<TimePeriod>)
    ensures GroupsOf(GroupByEra(periods), periods)
    ensures TotalSize(GroupByEra(periods)) == |periods|
    decreases |periods|
  {
    if |periods| > 0 {
      var n := |periods| - 1;
      assert periods[..n] + [periods[n]] == periods;
      GroupByEraCorrect(periods[..n]);
      AddToGroupsKeeps(GroupByEra(periods[..n]), periods[..n], periods[n]);
    }
  }

  /** One step of the grouping loop keeps the grouping invariant and counts the new period once. */
  lemma AddToGroupsKeeps(groups: seq<Group>, periods: seq<TimePeriod>, p: TimePeriod)
    requires GroupsOf(groups, periods)
    ensures GroupsOf(AddToGroups(groups, p), periods + [p])
    ensures TotalSize(AddToGroups(groups, p)) == TotalSize(groups) + 1
  {
    match GroupIndex(groups, p.era)
    case Some(i) =>
      AddToExisting(groups, periods, p, i);
      TotalSizeUpdate(groups, i, Group(p.era, groups[i].members + [p]));
    case None =>
      AddNew(groups, periods, p);
      TotalSizeAppend(groups, Group(p.era, [p]));
  }

  function GetPeriodsByEra(): (r: seq<Group>)
    ensures GroupsOf(r, TimePeriodTable) && TotalSize(r) == |TimePeriodTable|
  {
    GroupByEraCorrect(TimePeriodTable);
    GroupByEra(TimePeriodTable)
  }

  // ---------------------------------------------------------------------------
  // Era names
  // ---------------------------------------------------------------------------

  /** ERA_NAMES: the Swedish heading of each era, keyed by the era's string. */
  function EraNames(): map<string, string>
  {
    map[
      "prehistoric" := "Förhistorisk tid",
      "ancient" := "Forntiden",
      "medieval" := "Medeltiden",
      "early_modern" := "Tidigmodern tid",
      "modern" := "Modern tid"]
  }

  /** The era strings are distinct, so an era is determined by its key. */
  lemma EraKeyInjective(a: Era, b: Era)
    ensures a.Key() == b.Key() <==> a == b
  {
    if a != b {
      assert |a.Key()| != |b.Key()|;
    }
  }

  /** Every era has a name, and the table names nothing else. */
  lemma EraNamesComplete()
    ensures forall e: Era :: e.Key() in EraNames()
    ensures forall k | k in EraNames() :: exists e: Era :: e.Key() == k
  {
    forall k | k in EraNames() ensures exists e: Era :: e.Key() == k {
      if k == "prehistoric" { assert Prehistoric.Key() == k; }
      else if k == "ancient" { assert Ancient.Key() == k; }
      else if k == "medieval" { assert Medieval.Key() == k; }
      else if k == "early_modern" { assert Era.EarlyModern.Key() == k; }
      else { assert Modern.Key() == k; }
    }
  }

  /** Every catalog id finds its own period. */
  lemma CatalogLookup(k: nat)
    requires k < |TimePeriodTable|
    ensures GetPeriodById(TimePeriodTable[k].id) == Some(TimePeriodTable[k])
  {
    CatalogDistinctIds();
    PeriodByIdFindsEntry(TimePeriodTable, k);
  }
}
