/**
 * The Pydantic function-parameter schema of the extractor as an immutable
 * tree value: a top-level model with one field per main category, each a
 * model with a `no_or_other_preferences` field and one field per
 * subcategory, each of those a model with a `no_or_other_preferences`
 * field and one list field per detail category carrying its example
 * values. Every model forbids extra keys.
 *
 * `ReturnSchema` is `return_pydantic_schema`: it drops the ground-truth
 * attribute from a fresh copy of the example lists. `ReturnSchemaWithoutCategory`
 * is `return_pydantic_schema_wo_category`: it deletes one subcategory field
 * and deletes the quoted field name from a main category's description.
 * Both build their result from the original example lists on every call,
 * so nothing survives from one call to the next.
 */
module PydanticSchema {
  import opened Wrappers
  import opened Strings
  import opened Taxonomy
  import opened QuotedText
  import opened Descriptions
  import PydCategory

  /** A detail-category field: a list of extracted items with its example values. */
  datatype DetailField = DetailField(detail: Detail, examples: seq<string>)

  /** A subcategory model. */
  datatype SubModel = SubModel(sub: Sub, hasNoOrOther: bool, details: seq<DetailField>, forbidsExtra: bool)

  /** A main-category model. */
  datatype MainModel = MainModel(main: Main, hasNoOrOther: bool, subs: seq<SubModel>, forbidsExtra: bool)

  /** A field of the top-level model: a main-category model with its title and description. */
  datatype MainField = MainField(main: Main, title: string, description: string, model: MainModel)

  /** The top-level `PreferencesFunctionOutput` model. */
  datatype Schema = Schema(fields: seq<MainField>, forbidsExtra: bool)

  /** The example lists, keyed by detail category. */
  type Examples = Detail -> seq<string>

  // ----------------------------------------------------------- examples

  /** The example values of every detail category, as the schema module defines them. */
  function ExamplesOriginal(d: Detail): seq<string> {
    match d
    case FavouriteCuisine => ["Italian", "Chinese", "Mexican", "Indian", "American"]
    case PreferredRestaurantType => ["Fast food", "Casual dining", "Fine dining", "Buffet"]
    case FastFoodPreference => ["BiteBox Burgers", "GrillGusto", "SnackSprint", "ZippyZest", "WrapRapid"]
    case DesiredPriceRange => ["cheap", "normal", "expensive"]
    case DietaryPreference => ["Vegetarian", "Vegan", "Gluten-Free", "Dairy-Free", "Halal", "Kosher", "Nut Allergies", "Seafood Allergies"]
    case PreferredPaymentMethod => ["Cash", "Card"]
    case PreferredGasStation => ["PetroLux", "FuelNexa", "GasGlo", "ZephyrFuel", "AeroPump"]
    case WillingnessToPayExtraForGreenFuel => ["Yes", "No"]
    case PriceSensitivityForFuel => ["Always cheapest", "Rather cheapest", "Price is irrelevant"]
    case PreferredChargingNetwork => ["ChargeSwift", "EcoPulse Energy", "VoltRise Charging", "AmpFlow Solutions", "ZapGrid Power"]
    case PreferredTypeOfChargingWhileTraveling => ["AC", "DC", "HPC"]
    case PreferredTypeOfChargingAtEverydayPoints => ["AC", "DC", "HPC"]
    case ChargingStationOnsiteAmenities => ["On-site amenities (Restaurant/cafes)", "Wi-Fi availability", "Seating area", "Restroom facilities"]
    case PreferredSupermarketChain => ["MarketMingle", "FreshFare Hub", "GreenGroove Stores", "BasketBounty Markets", "PantryPulse Retail"]
    case PreferenceForLocalMarketsFarmsOrSupermarket => ["Local Markets/Farms", "Supermarket"]
    case AvoidanceOfSpecificRoadTypes => ["Highways", "Toll roads", "Unpaved roads"]
    case PriorityForShortestTimeOrShortestDistance => ["Shortest Time", "Shortest Distance"]
    case ToleranceForTraffic => ["Low", "Medium", "High"]
    case TrafficInformationSourcePreferences => ["In-car system", "NavFlow Updates", "RouteWatch Alerts", "TrafficTrendz Insights"]
    case WillingnessToTakeLongerRouteToAvoidTraffic => ["Yes", "No"]
    case PreferredParkingType => ["On-street", "Off-street", "Parking-house"]
    case PriceSensitivityForPaidParking => ["Always considers price first", "Sometimes considers price", "Never considers price"]
    case DistanceWillingToWalkFromParkingToDestination => ["less than 5 min", "less than 10 min", "not relevant"]
    case PreferenceForCoveredParking => ["Yes", "Indifferent to Covered Parking"]
    case NeedForHandicappedAccessibleParking => ["Yes"]
    case PreferenceForParkingWithSecurity => ["Yes", "Indifferent to Parking Security"]
    case PreferredTemperature => ["18", "19", "20", "21", "22", "23", "24", "25"]
    case FanSpeedPreferences => ["Low", "Medium", "High"]
    case AirflowDirectionPreferences => ["Face", "Feet", "Centric", "Combined"]
    case SeatHeatingPreferences => ["Low", "Medium", "High"]
    case InteriorLightingBrightnessPreferences => ["Low", "Medium", "High"]
    case InteriorLightingAmbientPreferences => ["Warm", "Cool"]
    case InteriorLightingColorPreferences => ["Red", "Blue", "Green", "Yellow", "White", "Pink"]
    case FavoriteGenres => ["Pop", "Rock", "Jazz", "Classical", "Country", "Rap"]
    case FavoriteArtistsOrBands => ["Max Jettison (Pop)", "Melody Raven (Pop)", "Melvin Dunes (Jazz)", "Ludwig van Beatgroove (Classical)", "Wolfgang Amadeus Harmonix (Classical)", "Taylor Winds (Country/Pop)", "Ed Sherwood (Pop/Folk)", "TwoPacks (Rap)"]
    case FavoriteSongs => ["Envision by Jon Lemon (Rock)", "Dreamer\'s Canvas by Lenny Visionary (Folk)", "Jenny\'s Dance by Max Rythmo (Disco)", "Clasp My Soul by The Harmonic Five (Soul)", "Echoes of the Heart by Adeena (R&B)", "Asphalt Anthems by Gritty Lyricist (Rap)", "Cosmic Verses by Nebula Rhymes (Hip-Hop/Rap)"]
    case PreferredMusicStreamingService => ["SonicStream", "MelodyMingle", "TuneTorrent", "HarmonyHive", "RhythmRipple"]
    case PreferredRadioStation => ["EchoWave FM", "RhythmRise Radio", "SonicSphere 101.5", "VibeVault 88.3", "HarmonyHaven 94.7"]
    case FavoritePodcastGenres => ["News", "Technology", "Entertainment", "Health", "Science"]
    case FavoritePodcastShows => ["GlobalGlimpse News", "ComedyCraze", "ScienceSync", "FantasyFrontier", "WellnessWave"]
    case GeneralNewsSource => ["NewsNexus", "WorldPulse", "CurrentConnect", "ReportRealm", "InfoInsight"]
  }

  // -------------------------------------------------------------- build

  function BuildDetail(ex: Examples, d: Detail): DetailField {
    DetailField(d, ex(d))
  }

  function BuildSub(ex: Examples, s: Sub): SubModel {
    var ds := DetailsOf(s);
    SubModel(s, true, seq(|ds|, i requires 0 <= i < |ds| => BuildDetail(ex, ds[i])), true)
  }

  function BuildMain(ex: Examples, m: Main): MainModel {
    var ss := SubsOf(m);
    MainModel(m, true, seq(|ss|, i requires 0 <= i < |ss| => BuildSub(ex, ss[i])), true)
  }

  /** The title of a top-level field. */
  function Title(m: Main): string {
    "Preferences " + MainDisplay(m)
  }

  /** The whole schema with the given example lists. */
  function BuildSchema(ex: Examples): (r: Schema)
    ensures r.forbidsExtra && |r.fields| == |AllMains()| == 4
    ensures forall i :: 0 <= i < |r.fields| ==>
      r.fields[i].main == AllMains()[i] && r.fields[i].model == BuildMain(ex, r.fields[i].main)
  {
    var ms := AllMains();
    Schema(seq(|ms|, i requires 0 <= i < |ms| => MainField(ms[i], Title(ms[i]), Description(ms[i]), BuildMain(ex, ms[i]))), true)
  }

  // ------------------------------------------------------------ lookups

  function MainFieldName(f: MainField): Main { f.main }
  function SubModelName(s: SubModel): Sub { s.sub }
  function DetailFieldName(d: DetailField): Detail { d.detail }

  /** The first element whose name is `k`, like a lookup by attribute name. */
  function Find<T, K(==)>(xs: seq<T>, name: T -> K, k: K): (r: Option<T>)
    ensures r.Some? <==> exists i :: 0 <= i < |xs| && name(xs[i]) == k
    ensures r.Some? ==> r.value in xs && name(r.value) == k
    decreases |xs|
  {
    if |xs| == 0 then None
    else if name(xs[0]) == k then Some(xs[0])
    else Find(xs[1..], name, k)
  }

  /** The example list a schema shows for a detail category, if its field is there. */
  function DetailExamples(sch: Schema, d: Detail): Option<seq<string>> {
    match Find(sch.fields, MainFieldName, MainOf(SubOf(d)))
    case None => None
    case Some(f) =>
      match Find(f.model.subs, SubModelName, SubOf(d))
      case None => None
      case Some(sm) =>
        match Find(sm.details, DetailFieldName, d)
        case None => None
        case Some(df) => Some(df.examples)
  }

  /** Field keys of a sequence of subcategory models. */
  function SubNames(subs: seq<SubModel>): (r: seq<string>)
    ensures |r| == |subs|
    decreases |subs|
  {
    if |subs| == 0 then [] else [SubKey(subs[0].sub)] + SubNames(subs[1..])
  }

  /** Field names of a main-category model, in order. */
  function FieldNames(mm: MainModel): seq<string> {
    (if mm.hasNoOrOther then [NoOrOther] else []) + SubNames(mm.subs)
  }

  /** Every model of the tree forbids extra keys. */
  predicate ForbidsExtraEverywhere(sch: Schema) {
    && sch.forbidsExtra
    && (forall i :: 0 <= i < |sch.fields| ==> sch.fields[i].model.forbidsExtra)
    && (forall i, j :: 0 <= i < |sch.fields| && 0 <= j < |sch.fields[i].model.subs| ==>
          sch.fields[i].model.subs[j].forbidsExtra)
  }

  // ------------------------------------------------- building, proved

  /** Every model of a freshly built schema forbids extra keys. */
  lemma {:induction false} BuildSchemaForbidsExtra(ex: Examples)
    ensures ForbidsExtraEverywhere(BuildSchema(ex))
  {
  }

  /** In a list built name by name, looking a name up finds the element built from it. */
  lemma {:induction false} FindBuiltMain(ex: Examples, m: Main)
    ensures Find(BuildSchema(ex).fields, MainFieldName, m)
         == Some(MainField(m, Title(m), Description(m), BuildMain(ex, m)))
  {
    var fs := BuildSchema(ex).fields;
    var i := match m
      case PointsOfInterest => 0
      case NavigationAndRouting => 1
      case VehicleSettingsAndComfort => 2
      case EntertainmentAndMedia => 3;
    assert AllMains()[i] == m;
    assert MainFieldName(fs[i]) == m;
    var v := Find(fs, MainFieldName, m).value;
    var j :| 0 <= j < |fs| && fs[j] == v;
    assert fs[j].main == AllMains()[j];
  }

  /** Looking a subcategory up in the model of its main category finds its built model. */
  lemma {:induction false} FindBuiltSub(ex: Examples, s: Sub)
    ensures Find(BuildMain(ex, MainOf(s)).subs, SubModelName, s) == Some(BuildSub(ex, s))
  {
    var ss := SubsOf(MainOf(s));
    var subs := BuildMain(ex, MainOf(s)).subs;
    SubTreeConsistent(MainOf(s), s);
    var i :| 0 <= i < |ss| && ss[i] == s;
    assert SubModelName(subs[i]) == s;
    var v := Find(subs, SubModelName, s).value;
    var j :| 0 <= j < |subs| && subs[j] == v;
    assert subs[j] == BuildSub(ex, ss[j]);
  }

  /** Looking a detail category up in the model of its subcategory finds its built field. */
  lemma {:induction false} FindBuiltDetail(ex: Examples, d: Detail)
    ensures Find(BuildSub(ex, SubOf(d)).details, DetailFieldName, d) == Some(BuildDetail(ex, d))
  {
    var ds := DetailsOf(SubOf(d));
    var details := BuildSub(ex, SubOf(d)).details;
    DetailUnderParent(d);
    var i :| 0 <= i < |ds| && ds[i] == d;
    assert DetailFieldName(details[i]) == d;
    var v := Find(details, DetailFieldName, d).value;
    var j :| 0 <= j < |details| && details[j] == v;
    assert details[j] == BuildDetail(ex, ds[j]);
  }

  /** A freshly built schema shows every detail category with its own example list. */
  lemma {:induction false} BuiltExamples(ex: Examples, d: Detail)
    ensures DetailExamples(BuildSchema(ex), d) == Some(ex(d))
  {
    FindBuiltMain(ex, MainOf(SubOf(d)));
    FindBuiltSub(ex, SubOf(d));
    FindBuiltDetail(ex, d);
  }

  /** A built top-level field list has the four main categories in order, with their titles and descriptions. */
  lemma {:induction false} BuiltFields(ex: Examples)
    ensures |BuildSchema(ex).fields| == |AllMains()| == 4
    ensures forall i :: 0 <= i < 4 ==>
      var f := BuildSchema(ex).fields[i];
      f.main == AllMains()[i] && f.title == Title(f.main) && f.description == Description(f.main)
      && f.model == BuildMain(ex, f.main)
  {
  }

  // ------------------------------------------------ return_pydantic_schema

  /** The example lists with `attr` removed from the list of `d`. */
  function Narrow(ex: Examples, d: Detail, attr: string): (r: Examples)
    requires attr in ex(d)
    ensures |r(d)| == |ex(d)| - 1 && multiset(r(d)) == multiset(ex(d)) - multiset{attr}
    ensures forall x :: x != d ==> r(x) == ex(x)
  {
    x => if x == d then RemoveFirst(ex(d), attr) else ex(x)
  }

  /** The four detail categories whose attribute is cut before the lookup. */
  predicate Abbreviated(detailVar: string) {
    || detailVar == DetailKey(PreferredTemperature)
    || detailVar == DetailKey(WillingnessToPayExtraForGreenFuel)
    || detailVar == DetailKey(WillingnessToTakeLongerRouteToAvoidTraffic)
    || detailVar == DetailKey(DistanceWillingToWalkFromParkingToDestination)
  }

  /**
   * The attribute as it is looked up in the example list: the first
   * space-separated word for the temperature and the two willingness
   * categories, the text before "(" for the walking distance, each
   * stripped; unchanged otherwise.
   */
  function NormaliseAttribute(detailVar: string, attribute: string): (r: string)
    ensures |r| <= |attribute|
    ensures r != attribute ==> |r| == 0 || (!IsSpace(r[0]) && !IsSpace(r[|r| - 1]))
    ensures r != attribute ==> Abbreviated(detailVar)
  {
    if detailVar == DetailKey(PreferredTemperature)
       || detailVar == DetailKey(WillingnessToPayExtraForGreenFuel)
       || detailVar == DetailKey(WillingnessToTakeLongerRouteToAvoidTraffic)
    then Strip(Split(attribute, " ")[0])
    else if detailVar == DetailKey(DistanceWillingToWalkFromParkingToDestination)
    then Strip(Split(attribute, "(")[0])
    else attribute
  }

  /** Text of the `ValueError` raised by `list.remove` for a missing value. */
  const RemoveMissing: string := "list.remove(x): x not in list"

  /** `detailVar` is the field key of some detail category. */
  predicate IsDetailKey(detailVar: string) {
    exists d :: detailVar == DetailKey(d)
  }

  /**
   * The narrowing of `return_pydantic_schema` over any example table: the
   * schema built from the table, with the normalised attribute removed from
   * the list of the named detail category when both are non-empty.
   */
  function ReturnSchemaWith(ex: Examples, detailVar: string, attribute: string): (r: Result<Schema>)
    ensures detailVar == "" || NormaliseAttribute(detailVar, attribute) == "" ==> r == Ok(BuildSchema(ex))
    ensures r.Err? ==> r.error == KeyError(detailVar) || r.error == ValueError(RemoveMissing)
    ensures r.Ok? ==> r.value.forbidsExtra && |r.value.fields| == 4
  {
    var attr := NormaliseAttribute(detailVar, attribute);
    if detailVar == "" || attr == "" then Ok(BuildSchema(ex))
    else
      match ParseDetail(detailVar)
      case None => Err(KeyError(detailVar))
      case Some(d) =>
        if detailVar != DetailKey(d) then Err(KeyError(detailVar))
        else if attr !in ex(d) then Err(ValueError(RemoveMissing))
        else Ok(BuildSchema(Narrow(ex, d, attr)))
  }

  /**
   * `return_pydantic_schema(detail_category_variable, attribute)`: every
   * call narrows a fresh copy of the original example lists.
   */
  function ReturnSchema(detailVar: string, attribute: string): (r: Result<Schema>)
    ensures detailVar == "" || NormaliseAttribute(detailVar, attribute) == "" ==> r == Ok(BuildSchema(ExamplesOriginal))
    ensures r.Err? ==> r.error == KeyError(detailVar) || r.error == ValueError(RemoveMissing)
  {
    ReturnSchemaWith(ExamplesOriginal, detailVar, attribute)
  }

  /** The example table is consulted exactly when the detail variable is a detail key. */
  lemma {:induction false} LookupDetailKey(detailVar: string)
    ensures (match ParseDetail(detailVar)
             case Some(d) => detailVar == DetailKey(d)
             case None => false) <==> IsDetailKey(detailVar)
  {
    if IsDetailKey(detailVar) {
      var d :| detailVar == DetailKey(d);
      ParseDetailNames(d);
    }
  }

  /** When narrowing happens, when it fails, and with which error. */
  lemma {:induction false} ReturnSchemaOutcome(ex: Examples, detailVar: string, attribute: string)
    ensures (ReturnSchemaWith(ex, detailVar, attribute).Ok? <==>
             (|| detailVar == ""
              || NormaliseAttribute(detailVar, attribute) == ""
              || exists d :: detailVar == DetailKey(d) && NormaliseAttribute(detailVar, attribute) in ex(d)))
    ensures detailVar == "" || NormaliseAttribute(detailVar, attribute) == ""
      ==> ReturnSchemaWith(ex, detailVar, attribute) == Ok(BuildSchema(ex))
    ensures ReturnSchemaWith(ex, detailVar, attribute).Err? && !IsDetailKey(detailVar)
      ==> ReturnSchemaWith(ex, detailVar, attribute).error == KeyError(detailVar)
    ensures ReturnSchemaWith(ex, detailVar, attribute).Err? && IsDetailKey(detailVar)
      ==> ReturnSchemaWith(ex, detailVar, attribute).error == ValueError(RemoveMissing)
  {
    var attr := NormaliseAttribute(detailVar, attribute);
    if detailVar != "" && attr != "" {
      LookupDetailKey(detailVar);
      if IsDetailKey(detailVar) {
        var d :| detailVar == DetailKey(d);
        PydCategory.DetailKeysInjective(d, ParseDetail(detailVar).value);
        assert forall e :: detailVar == DetailKey(e) ==> e == d by {
          forall e | detailVar == DetailKey(e) ensures e == d { PydCategory.DetailKeysInjective(d, e); }
        }
      }
    }
  }

  /**
   * After narrowing, the named category lists its examples less the first
   * occurrence of the normalised attribute, every other category its
   * examples unchanged, and every model still forbids extra keys.
   */
  lemma {:induction false} ReturnSchemaNarrows(ex: Examples, detailVar: string, attribute: string, d: Detail)
    requires detailVar == DetailKey(d)
    requires NormaliseAttribute(detailVar, attribute) != ""
    requires NormaliseAttribute(detailVar, attribute) in ex(d)
    ensures ReturnSchemaWith(ex, detailVar, attribute).Ok?
    ensures DetailExamples(ReturnSchemaWith(ex, detailVar, attribute).value, d)
         == Some(RemoveFirst(ex(d), NormaliseAttribute(detailVar, attribute)))
    ensures forall e :: e != d ==> DetailExamples(ReturnSchemaWith(ex, detailVar, attribute).value, e) == Some(ex(e))
    ensures ForbidsExtraEverywhere(ReturnSchemaWith(ex, detailVar, attribute).value)
  {
    var attr := NormaliseAttribute(detailVar, attribute);
    ParseDetailNames(d);
    assert detailVar != "" by { assert |DetailKey(d)| > 0 by { match d case _ => } }
    var nx := Narrow(ex, d, attr);
    assert ReturnSchemaWith(ex, detailVar, attribute) == Ok(BuildSchema(nx));
    BuiltExamples(nx, d);
    forall e | e != d
      ensures DetailExamples(BuildSchema(nx), e) == Some(ex(e))
    {
      BuiltExamples(nx, e);
    }
    BuildSchemaForbidsExtra(nx);
  }

  /** A space-free trimmed attribute is its own first word. */
  lemma {:induction false} FirstWordOfPlain(x: string, c: char)
    requires c !in x
    requires |x| > 0 ==> !IsSpace(x[0]) && !IsSpace(x[|x| - 1])
    ensures Strip(Split(x, [c])[0]) == x
  {
    SplitNoSeparator(x, [c]);
    StripTrimmed(x);
  }

  /** The first piece of a split holds no separator. */
  lemma {:induction false} FirstPieceFree(s: string, c: char)
    ensures c !in Split(s, [c])[0]
    decreases |s|
  {
    if OccursAt(s, [c], 0) {
    } else if |s| > 0 {
      FirstPieceFree(s[1..], c);
      assert s[0] != c by { assert s[0..1] == [s[0]]; }
    }
  }

  /** Stripping a separator-free text keeps it separator-free. */
  lemma {:induction false} StripKeepsFree(s: string, c: char)
    requires c !in s
    ensures c !in Strip(s)
  {
    StripIsTrimmedSlice(s);
    var i, j :| 0 <= i <= j <= |s| && Strip(s) == s[i..j];
    assert forall k :: 0 <= k < j - i ==> s[i..j][k] == s[i + k];
  }

  /** Normalising an already normalised attribute changes nothing. */
  lemma {:induction false} NormaliseIdempotent(detailVar: string, attribute: string)
    ensures NormaliseAttribute(detailVar, NormaliseAttribute(detailVar, attribute)) == NormaliseAttribute(detailVar, attribute)
  {
    var a := NormaliseAttribute(detailVar, attribute);
    if detailVar == DetailKey(PreferredTemperature)
       || detailVar == DetailKey(WillingnessToPayExtraForGreenFuel)
       || detailVar == DetailKey(WillingnessToTakeLongerRouteToAvoidTraffic)
    {
      FirstPieceFree(attribute, ' ');
      StripKeepsFree(Split(attribute, " ")[0], ' ');
      StripIsTrimmedSlice(Split(attribute, " ")[0]);
      FirstWordOfPlain(a, ' ');
    } else if detailVar == DetailKey(DistanceWillingToWalkFromParkingToDestination) {
      FirstPieceFree(attribute, '(');
      StripKeepsFree(Split(attribute, "(")[0], '(');
      StripIsTrimmedSlice(Split(attribute, "(")[0]);
      FirstWordOfPlain(a, '(');
    }
  }

  /** Categories other than the four with a normalisation keep the attribute as it is. */
  lemma {:induction false} NormaliseOnlyFour(d: Detail, x: string)
    requires d !in {PreferredTemperature, WillingnessToPayExtraForGreenFuel,
                    WillingnessToTakeLongerRouteToAvoidTraffic, DistanceWillingToWalkFromParkingToDestination}
    ensures NormaliseAttribute(DetailKey(d), x) == x
  {
    PydCategory.DetailKeysInjective(d, PreferredTemperature);
    PydCategory.DetailKeysInjective(d, WillingnessToPayExtraForGreenFuel);
    PydCategory.DetailKeysInjective(d, WillingnessToTakeLongerRouteToAvoidTraffic);
    PydCategory.DetailKeysInjective(d, DistanceWillingToWalkFromParkingToDestination);
  }

  /** The normalised attribute of the four categories holds no space, respectively no "(". */
  lemma {:induction false} NormaliseCuts(detailVar: string, attribute: string)
    ensures detailVar == DetailKey(PreferredTemperature)
         || detailVar == DetailKey(WillingnessToPayExtraForGreenFuel)
         || detailVar == DetailKey(WillingnessToTakeLongerRouteToAvoidTraffic)
         ==> ' ' !in NormaliseAttribute(detailVar, attribute)
    ensures detailVar == DetailKey(DistanceWillingToWalkFromParkingToDestination)
         ==> '(' !in NormaliseAttribute(detailVar, attribute)
  {
    if detailVar == DetailKey(PreferredTemperature)
       || detailVar == DetailKey(WillingnessToPayExtraForGreenFuel)
       || detailVar == DetailKey(WillingnessToTakeLongerRouteToAvoidTraffic)
    {
      FirstPieceFree(attribute, ' ');
      StripKeepsFree(Split(attribute, " ")[0], ' ');
    } else if detailVar == DetailKey(DistanceWillingToWalkFromParkingToDestination) {
      FirstPieceFree(attribute, '(');
      StripKeepsFree(Split(attribute, "(")[0], '(');
    }
    var walk := DistanceWillingToWalkFromParkingToDestination;
    PydCategory.DetailKeysInjective(walk, PreferredTemperature);
    PydCategory.DetailKeysInjective(walk, WillingnessToPayExtraForGreenFuel);
    PydCategory.DetailKeysInjective(walk, WillingnessToTakeLongerRouteToAvoidTraffic);
  }

  // ------------------------------------- return_pydantic_schema_wo_category

  /** `xs` without any element equal to `x`, in order. */
  function Without(xs: seq<string>, x: string): (r: seq<string>)
    ensures forall y :: y in r <==> y in xs && y != x
    decreases |xs|
  {
    if |xs| == 0 then []
    else (if xs[0] == x then [] else [xs[0]]) + Without(xs[1..], x)
  }

  /** The subcategory models other than the one of `s`, in order. */
  function RemoveSub(subs: seq<SubModel>, s: Sub): (r: seq<SubModel>)
    ensures forall m :: m in r <==> m in subs && m.sub != s
    decreases |subs|
  {
    if |subs| == 0 then []
    else (if subs[0].sub == s then [] else [subs[0]]) + RemoveSub(subs[1..], s)
  }

  /**
   * `del <MainClass>.__annotations__[name]`: deletes the field `name` from a
   * main-category model, which is either its `no_or_other_preferences` slot
   * or the field key of one of its subcategories.
   */
  function DeleteField(mm: MainModel, name: string): (r: Result<MainModel>)
    ensures r.Err? ==> r.error == KeyError(name)
    ensures r.Ok? ==> r.value.main == mm.main && r.value.forbidsExtra == mm.forbidsExtra
    ensures r.Ok? ==> forall sm :: sm in r.value.subs ==> sm in mm.subs
  {
    if name == NoOrOther then
      if mm.hasNoOrOther then Ok(mm.(hasNoOrOther := false)) else Err(KeyError(name))
    else
      match ParseSub(name)
      case None => Err(KeyError(name))
      case Some(s) =>
        if name == SubKey(s) && Find(mm.subs, SubModelName, s).Some? then Ok(mm.(subs := RemoveSub(mm.subs, s)))
        else Err(KeyError(name))
  }

  /** No subcategory is keyed `no_or_other_preferences`. */
  lemma {:induction false} NoOrOtherNotSubKey(s: Sub)
    ensures SubKey(s) != NoOrOther
  {
    assert |NoOrOther| == 23;
    match s case _ =>
  }

  /** A field key belongs to a listed subcategory model. */
  lemma {:induction false} SubNamesMember(subs: seq<SubModel>, name: string)
    ensures name in SubNames(subs) <==> exists i :: 0 <= i < |subs| && SubKey(subs[i].sub) == name
    decreases |subs|
  {
    if |subs| > 0 {
      SubNamesMember(subs[1..], name);
      if name in SubNames(subs[1..]) {
        var i :| 0 <= i < |subs[1..]| && SubKey(subs[1..][i].sub) == name;
        assert SubKey(subs[i + 1].sub) == name;
      }
      forall i | 0 < i < |subs| && SubKey(subs[i].sub) == name
        ensures name in SubNames(subs[1..])
      {
        assert SubKey(subs[1..][i - 1].sub) == name;
      }
    }
  }

  /** Removing a subcategory model removes exactly its key from the field keys. */
  lemma {:induction false} RemoveSubNames(subs: seq<SubModel>, s: Sub)
    ensures SubNames(RemoveSub(subs, s)) == Without(SubNames(subs), SubKey(s))
    decreases |subs|
  {
    if |subs| > 0 {
      RemoveSubNames(subs[1..], s);
      PydCategory.SubIdentifiersInjective(subs[0].sub, s);
      var head := if subs[0].sub == s then [] else [subs[0]];
      assert RemoveSub(subs, s) == head + RemoveSub(subs[1..], s);
      SubNamesConcat(head, RemoveSub(subs[1..], s));
    }
  }

  /** Field keys of a concatenation. */
  lemma {:induction false} SubNamesConcat(a: seq<SubModel>, b: seq<SubModel>)
    ensures SubNames(a + b) == SubNames(a) + SubNames(b)
    decreases |a|
  {
    if |a| > 0 {
      assert (a + b)[0] == a[0];
      assert (a + b)[1..] == a[1..] + b;
      SubNamesConcat(a[1..], b);
      assert SubNames(a + b) == [SubKey(a[0].sub)] + (SubNames(a[1..]) + SubNames(b));
    } else {
      assert a + b == b;
    }
  }

  /** Dropping an absent value changes nothing. */
  lemma {:induction false} WithoutAbsent(xs: seq<string>, x: string)
    requires x !in xs
    ensures Without(xs, x) == xs
    decreases |xs|
  {
    if |xs| > 0 {
      WithoutAbsent(xs[1..], x);
      assert [xs[0]] + xs[1..] == xs;
    }
  }

  /**
   * Deleting a field succeeds exactly when the model has a field of that
   * name, and then removes that name, and only it, from its field names.
   */
  lemma {:induction false} DeleteFieldRemovesName(mm: MainModel, name: string)
    ensures DeleteField(mm, name).Ok? <==> name in FieldNames(mm)
    ensures DeleteField(mm, name).Ok? ==> FieldNames(DeleteField(mm, name).value) == Without(FieldNames(mm), name)
  {
    if name == NoOrOther {
      DeleteNoOrOther(mm);
    } else {
      DeleteSubField(mm, name);
    }
  }

  /** Deleting the free-text slot. */
  lemma {:induction false} DeleteNoOrOther(mm: MainModel)
    ensures DeleteField(mm, NoOrOther).Ok? <==> NoOrOther in FieldNames(mm)
    ensures DeleteField(mm, NoOrOther).Ok? ==> FieldNames(DeleteField(mm, NoOrOther).value) == Without(FieldNames(mm), NoOrOther)
  {
    var names := SubNames(mm.subs);
    SubNamesMember(mm.subs, NoOrOther);
    forall i | 0 <= i < |mm.subs| ensures SubKey(mm.subs[i].sub) != NoOrOther {
      NoOrOtherNotSubKey(mm.subs[i].sub);
    }
    WithoutAbsent(names, NoOrOther);
    if mm.hasNoOrOther {
      assert FieldNames(mm) == [NoOrOther] + names;
      WithoutConcat([NoOrOther], names, NoOrOther);
    } else {
      assert FieldNames(mm) == names;
    }
  }

  /** Deleting a subcategory field. */
  lemma {:induction false} DeleteSubField(mm: MainModel, name: string)
    requires name != NoOrOther
    ensures DeleteField(mm, name).Ok? <==> name in FieldNames(mm)
    ensures DeleteField(mm, name).Ok? ==> FieldNames(DeleteField(mm, name).value) == Without(FieldNames(mm), name)
  {
    var pre: seq<string> := if mm.hasNoOrOther then [NoOrOther] else [];
    assert FieldNames(mm) == pre + SubNames(mm.subs);
    SubNamesMember(mm.subs, name);
    if DeleteField(mm, name).Ok? {
      var s := ParseSub(name).value;
      var j :| 0 <= j < |mm.subs| && SubModelName(mm.subs[j]) == s;
      assert SubKey(mm.subs[j].sub) == name;
    }
    if name in SubNames(mm.subs) {
      var i :| 0 <= i < |mm.subs| && SubKey(mm.subs[i].sub) == name;
      var s := mm.subs[i].sub;
      ParseSubNames(s);
      assert SubModelName(mm.subs[i]) == s;
      RemoveSubNames(mm.subs, s);
      WithoutConcat(pre, SubNames(mm.subs), name);
      WithoutAbsent(pre, name);
    }
  }

  /** `Without` distributes over concatenation. */
  lemma {:induction false} WithoutConcat(a: seq<string>, b: seq<string>, x: string)
    ensures Without(a + b, x) == Without(a, x) + Without(b, x)
    decreases |a|
  {
    if |a| > 0 {
      assert (a + b)[0] == a[0];
      assert (a + b)[1..] == a[1..] + b;
      WithoutConcat(a[1..], b, x);
      var h := if a[0] == x then [] else [a[0]];
      assert Without(a + b, x) == h + (Without(a[1..], x) + Without(b, x));
    } else {
      assert a + b == b;
    }
  }

  /** The top-level fields with the model of `target` replaced. */
  function WithModel(fields: seq<MainField>, target: Main, mm: MainModel): (r: seq<MainField>)
    ensures |r| == |fields|
  {
    seq(|fields|, i requires 0 <= i < |fields| =>
      if fields[i].main == target then fields[i].(model := mm) else fields[i])
  }

  /** The top-level fields with every `'word'` deleted from the description of `m`. */
  function WithScrubbed(fields: seq<MainField>, m: Main, word: string): (r: seq<MainField>)
    ensures |r| == |fields|
  {
    seq(|fields|, i requires 0 <= i < |fields| =>
      if fields[i].main == m then fields[i].(description := ReplaceAll(fields[i].description, Quoted(word), ""))
      else fields[i])
  }

  /** What the two field rewrites leave of each top-level field. */
  lemma {:induction false} RewrittenFields(fields: seq<MainField>, target: Main, mm: MainModel, m: Main, word: string)
    ensures forall i :: 0 <= i < |fields| ==>
      var f := WithScrubbed(WithModel(fields, target, mm), m, word)[i];
      && f.main == fields[i].main && f.title == fields[i].title
      && f.model == (if fields[i].main == target then mm else fields[i].model)
      && f.description == (if fields[i].main == m then ReplaceAll(fields[i].description, Quoted(word), "")
                           else fields[i].description)
  {
  }

  /** `s` is the field key of some main category. */
  predicate IsMainKey(s: string) {
    exists m :: s == MainKey(m)
  }

  /**
   * The narrowing of `return_pydantic_schema_wo_category` over any example
   * table: the subcategory class picks the main-category model that loses
   * the field `subVar`; then the description of the top-level field
   * `mainVar` loses every `'subVar'`. An unknown class changes nothing.
   * `detailVar` is not used.
   */
  function ReturnSchemaWithoutCategoryWith(ex: Examples, mainVar: string, subVar: string, subClass: string, detailVar: string)
    : (r: Result<Schema>)
    ensures ParseSubClass(subClass).None? ==> r == Ok(BuildSchema(ex))
    ensures r.Err? ==> r.error == KeyError(subVar) || r.error == KeyError(mainVar)
  {
    var base := BuildSchema(ex);
    match ParseSubClass(subClass)
    case None => Ok(base)
    case Some(sc) =>
      var target := MainOf(sc);
      match DeleteField(BuildMain(ex, target), subVar)
      case Err(e) => Err(e)
      case Ok(mm) =>
        match ParseMain(mainVar)
        case None => Err(KeyError(mainVar))
        case Some(m) =>
          if mainVar != MainKey(m) then Err(KeyError(mainVar))
          else Ok(Schema(WithScrubbed(WithModel(base.fields, target, mm), m, subVar), base.forbidsExtra))
  }

  /**
   * `return_pydantic_schema_wo_category(maincategory_variable,
   * subcategory_variable, subcategory_class, detail_category_variable)`:
   * every call starts from the original example lists.
   */
  function ReturnSchemaWithoutCategory(mainVar: string, subVar: string, subClass: string, detailVar: string): (r: Result<Schema>)
    ensures ParseSubClass(subClass).None? ==> r == Ok(BuildSchema(ExamplesOriginal))
    ensures r.Err? ==> r.error == KeyError(subVar) || r.error == KeyError(mainVar)
  {
    ReturnSchemaWithoutCategoryWith(ExamplesOriginal, mainVar, subVar, subClass, detailVar)
  }

  /** The main key is found exactly when it is a main key. */
  lemma {:induction false} LookupMainKey(mainVar: string)
    ensures (match ParseMain(mainVar)
             case Some(m) => mainVar == MainKey(m)
             case None => false) <==> IsMainKey(mainVar)
  {
    if IsMainKey(mainVar) {
      var m :| mainVar == MainKey(m);
      ParseMainNames(m);
    }
  }

  /** When the narrowing without a category succeeds, and which key error it raises otherwise. */
  lemma {:induction false} WithoutCategoryOutcome(ex: Examples, mainVar: string, subVar: string, subClass: string, detailVar: string)
    ensures ParseSubClass(subClass).None? ==>
      ReturnSchemaWithoutCategoryWith(ex, mainVar, subVar, subClass, detailVar) == Ok(BuildSchema(ex))
    ensures ParseSubClass(subClass).Some? ==>
      var r := ReturnSchemaWithoutCategoryWith(ex, mainVar, subVar, subClass, detailVar);
      var names := FieldNames(BuildMain(ex, MainOf(ParseSubClass(subClass).value)));
      && (r.Ok? <==> subVar in names && IsMainKey(mainVar))
      && (subVar !in names ==> r == Err(KeyError(subVar)))
      && (subVar in names && !IsMainKey(mainVar) ==> r == Err(KeyError(mainVar)))
  {
    if ParseSubClass(subClass).Some? {
      DeleteFieldRemovesName(BuildMain(ex, MainOf(ParseSubClass(subClass).value)), subVar);
      LookupMainKey(mainVar);
    }
  }

  /** The pieces of a successful narrowing without a category. */
  lemma {:induction false} WithoutCategoryParts(ex: Examples, mainVar: string, subVar: string, subClass: string, detailVar: string, sc: Sub)
    returns (mm: MainModel, m: Main)
    requires ParseSubClass(subClass) == Some(sc)
    requires ReturnSchemaWithoutCategoryWith(ex, mainVar, subVar, subClass, detailVar).Ok?
    ensures DeleteField(BuildMain(ex, MainOf(sc)), subVar) == Ok(mm)
    ensures mainVar == MainKey(m)
    ensures ReturnSchemaWithoutCategoryWith(ex, mainVar, subVar, subClass, detailVar)
         == Ok(Schema(WithScrubbed(WithModel(BuildSchema(ex).fields, MainOf(sc), mm), m, subVar), true))
  {
    mm := DeleteField(BuildMain(ex, MainOf(sc)), subVar).value;
    m := ParseMain(mainVar).value;
  }

  /**
   * A successful narrowing keeps the four top-level fields in order with
   * their titles; the model picked by the class loses exactly the field
   * `subVar` and keeps its remaining subcategory models as built; every
   * other model is as built.
   */
  lemma {:induction false} WithoutCategoryRemovesField(ex: Examples, mainVar: string, subVar: string, subClass: string, detailVar: string, sc: Sub)
    requires ParseSubClass(subClass) == Some(sc)
    requires ReturnSchemaWithoutCategoryWith(ex, mainVar, subVar, subClass, detailVar).Ok?
    ensures var fs := ReturnSchemaWithoutCategoryWith(ex, mainVar, subVar, subClass, detailVar).value.fields;
      && |fs| == 4
      && (forall i :: 0 <= i < 4 ==> fs[i].main == AllMains()[i] && fs[i].title == Title(fs[i].main))
      && (forall i :: 0 <= i < 4 && fs[i].main == MainOf(sc) ==>
            FieldNames(fs[i].model) == Without(FieldNames(BuildMain(ex, MainOf(sc))), subVar)
            && (forall sm :: sm in fs[i].model.subs ==> sm == BuildSub(ex, sm.sub)))
      && (forall i :: 0 <= i < 4 && fs[i].main != MainOf(sc) ==> fs[i].model == BuildMain(ex, fs[i].main))
  {
    var mm, m := WithoutCategoryParts(ex, mainVar, subVar, subClass, detailVar, sc);
    var mm0 := BuildMain(ex, MainOf(sc));
    DeleteFieldRemovesName(mm0, subVar);
    BuiltFields(ex);
    forall sm | sm in mm0.subs ensures sm == BuildSub(ex, sm.sub) {
      var j :| 0 <= j < |mm0.subs| && mm0.subs[j] == sm;
    }
    RewrittenFields(BuildSchema(ex).fields, MainOf(sc), mm, m, subVar);
  }

  /** After a successful narrowing every model still forbids extra keys. */
  lemma {:induction false} WithoutCategoryForbidsExtra(ex: Examples, mainVar: string, subVar: string, subClass: string, detailVar: string, sc: Sub)
    requires ParseSubClass(subClass) == Some(sc)
    requires ReturnSchemaWithoutCategoryWith(ex, mainVar, subVar, subClass, detailVar).Ok?
    ensures ForbidsExtraEverywhere(ReturnSchemaWithoutCategoryWith(ex, mainVar, subVar, subClass, detailVar).value)
  {
    var mm, m := WithoutCategoryParts(ex, mainVar, subVar, subClass, detailVar, sc);
    var mm0 := BuildMain(ex, MainOf(sc));
    BuildSchemaForbidsExtra(ex);
    forall sm | sm in mm0.subs ensures sm.forbidsExtra {
      var j :| 0 <= j < |mm0.subs| && mm0.subs[j] == sm;
    }
    RewrittenFields(BuildSchema(ex).fields, MainOf(sc), mm, m, subVar);
  }

  // ---------------------------------------------- the description scrub

  /** Every field name of a built main-category model holds neither a quote nor a space. */
  lemma {:induction false} FieldNamePlain(ex: Examples, m: Main, name: string)
    requires name in FieldNames(BuildMain(ex, m))
    ensures QuoteFree(name) && ' ' !in name
  {
    var mm := BuildMain(ex, m);
    assert FieldNames(mm) == [NoOrOther] + SubNames(mm.subs);
    if name != NoOrOther {
      SubNamesMember(mm.subs, name);
      var i :| 0 <= i < |mm.subs| && SubKey(mm.subs[i].sub) == name;
      SubKeyQuoteFree(mm.subs[i].sub);
      SubKeySpaceFree(mm.subs[i].sub);
    } else {
      assert NoOrOther == "no_or_other_preferences";
    }
  }

  /**
   * A successful narrowing deletes every `'subVar'` from the description of
   * the top-level field `mainVar`, so that none is left.
   */
  lemma {:induction false} WithoutCategoryScrubs(ex: Examples, mainVar: string, subVar: string, subClass: string, detailVar: string, sc: Sub, m: Main)
    requires ParseSubClass(subClass) == Some(sc) && mainVar == MainKey(m)
    requires ReturnSchemaWithoutCategoryWith(ex, mainVar, subVar, subClass, detailVar).Ok?
    ensures var fs := ReturnSchemaWithoutCategoryWith(ex, mainVar, subVar, subClass, detailVar).value.fields;
      forall i :: 0 <= i < |fs| && fs[i].main == m ==>
        fs[i].description == ReplaceAll(Description(m), Quoted(subVar), "")
        && !Contains(fs[i].description, Quoted(subVar))
  {
    var mm, m' := WithoutCategoryParts(ex, mainVar, subVar, subClass, detailVar, sc);
    PydCategory.MainIdentifiersInjective(m, m');
    BuiltFields(ex);
    RewrittenFields(BuildSchema(ex).fields, MainOf(sc), mm, m, subVar);
    DeleteFieldRemovesName(BuildMain(ex, MainOf(sc)), subVar);
    FieldNamePlain(ex, MainOf(sc), subVar);
    DescriptionScrubbed(m, subVar);
  }

  /** A successful narrowing leaves the description of every other top-level field as built. */
  lemma {:induction false} WithoutCategoryKeepsDescriptions(ex: Examples, mainVar: string, subVar: string, subClass: string, detailVar: string, sc: Sub, m: Main)
    requires ParseSubClass(subClass) == Some(sc) && mainVar == MainKey(m)
    requires ReturnSchemaWithoutCategoryWith(ex, mainVar, subVar, subClass, detailVar).Ok?
    ensures var fs := ReturnSchemaWithoutCategoryWith(ex, mainVar, subVar, subClass, detailVar).value.fields;
      forall i :: 0 <= i < |fs| && fs[i].main != m ==> fs[i].description == Description(fs[i].main)
  {
    var mm, m' := WithoutCategoryParts(ex, mainVar, subVar, subClass, detailVar, sc);
    PydCategory.MainIdentifiersInjective(m, m');
    BuiltFields(ex);
    RewrittenFields(BuildSchema(ex).fields, MainOf(sc), mm, m, subVar);
  }

}
