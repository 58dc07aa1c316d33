/**
 * The category-to-label codec of the evaluation scripts: every main,
 * sub and detail category, under its display name or its snake-case key,
 * is mapped to an integer class label (mains 0..3, subcategories 4..14,
 * detail categories 15..55), with the two extra entries "No Main
 * Category" (4) and "other" (56). Any other string, and any category kind
 * other than the three known ones, raises ValueError.
 */
module CategoryLabels {
  import opened Wrappers
  import opened Taxonomy

  const MainKind := "main_category"
  const SubKind := "subcategory"
  const DetailKind := "detail_category"

  /** The extra main-category entry and the extra detail-category entry. */
  const NoMainCategory := "No Main Category"
  const NoMainCategoryLabel := 4
  const OtherDetail := "other"
  const OtherDetailLabel := 56

  // ------------------------------------------------------------ label tables

  function MainLabel(x: Main): int {
    match x
    case PointsOfInterest => 0
    case NavigationAndRouting => 1
    case VehicleSettingsAndComfort => 2
    case EntertainmentAndMedia => 3
  }

  function SubLabel(x: Sub): int {
    match x
    case Restaurant => 4
    case GasStation => 5
    case ChargingStation => 6
    case GroceryShopping => 7
    case Routing => 8
    case TrafficAndConditions => 9
    case Parking => 10
    case ClimateControl => 11
    case LightingAndAmbience => 12
    case Music => 13
    case RadioAndPodcast => 14
  }

  function DetailLabel(x: Detail): int {
    match x
    case FavouriteCuisine => 15
    case PreferredRestaurantType => 16
    case FastFoodPreference => 17
    case DesiredPriceRange => 18
    case DietaryPreference => 19
    case PreferredPaymentMethod => 20
    case PreferredGasStation => 21
    case WillingnessToPayExtraForGreenFuel => 22
    case PriceSensitivityForFuel => 23
    case PreferredChargingNetwork => 24
    case PreferredTypeOfChargingWhileTraveling => 25
    case PreferredTypeOfChargingAtEverydayPoints => 26
    case ChargingStationOnsiteAmenities => 27
    case PreferredSupermarketChain => 28
    case PreferenceForLocalMarketsFarmsOrSupermarket => 29
    case AvoidanceOfSpecificRoadTypes => 30
    case PriorityForShortestTimeOrShortestDistance => 31
    case ToleranceForTraffic => 32
    case TrafficInformationSourcePreferences => 33
    case WillingnessToTakeLongerRouteToAvoidTraffic => 34
    case PreferredParkingType => 35
    case PriceSensitivityForPaidParking => 36
    case DistanceWillingToWalkFromParkingToDestination => 37
    case PreferenceForCoveredParking => 38
    case NeedForHandicappedAccessibleParking => 39
    case PreferenceForParkingWithSecurity => 40
    case PreferredTemperature => 41
    case FanSpeedPreferences => 42
    case AirflowDirectionPreferences => 43
    case SeatHeatingPreferences => 44
    case InteriorLightingBrightnessPreferences => 45
    case InteriorLightingAmbientPreferences => 46
    case InteriorLightingColorPreferences => 47
    case FavoriteGenres => 48
    case FavoriteArtistsOrBands => 49
    case FavoriteSongs => 50
    case PreferredMusicStreamingService => 51
    case PreferredRadioStation => 52
    case FavoritePodcastGenres => 53
    case FavoritePodcastShows => 54
    case GeneralNewsSource => 55
  }

  // Inverses of the label tables; they exist to prove the tables injective.

  function MainOfLabel(n: int): Option<Main> {
    if n == 0 then Some(PointsOfInterest) else
    if n == 1 then Some(NavigationAndRouting) else
    if n == 2 then Some(VehicleSettingsAndComfort) else
    if n == 3 then Some(EntertainmentAndMedia) else
    None
  }

  function SubOfLabel(n: int): Option<Sub> {
    if n == 4 then Some(Restaurant) else
    if n == 5 then Some(GasStation) else
    if n == 6 then Some(ChargingStation) else
    if n == 7 then Some(GroceryShopping) else
    if n == 8 then Some(Routing) else
    if n == 9 then Some(TrafficAndConditions) else
    if n == 10 then Some(Parking) else
    if n == 11 then Some(ClimateControl) else
    if n == 12 then Some(LightingAndAmbience) else
    if n == 13 then Some(Music) else
    if n == 14 then Some(RadioAndPodcast) else
    None
  }

  function DetailOfLabel(n: int): Option<Detail> {
    if n == 15 then Some(FavouriteCuisine) else
    if n == 16 then Some(PreferredRestaurantType) else
    if n == 17 then Some(FastFoodPreference) else
    if n == 18 then Some(DesiredPriceRange) else
    if n == 19 then Some(DietaryPreference) else
    if n == 20 then Some(PreferredPaymentMethod) else
    if n == 21 then Some(PreferredGasStation) else
    if n == 22 then Some(WillingnessToPayExtraForGreenFuel) else
    if n == 23 then Some(PriceSensitivityForFuel) else
    if n == 24 then Some(PreferredChargingNetwork) else
    if n == 25 then Some(PreferredTypeOfChargingWhileTraveling) else
    if n == 26 then Some(PreferredTypeOfChargingAtEverydayPoints) else
    if n == 27 then Some(ChargingStationOnsiteAmenities) else
    if n == 28 then Some(PreferredSupermarketChain) else
    if n == 29 then Some(PreferenceForLocalMarketsFarmsOrSupermarket) else
    if n == 30 then Some(AvoidanceOfSpecificRoadTypes) else
    if n == 31 then Some(PriorityForShortestTimeOrShortestDistance) else
    if n == 32 then Some(ToleranceForTraffic) else
    if n == 33 then Some(TrafficInformationSourcePreferences) else
    if n == 34 then Some(WillingnessToTakeLongerRouteToAvoidTraffic) else
    if n == 35 then Some(PreferredParkingType) else
    if n == 36 then Some(PriceSensitivityForPaidParking) else
    if n == 37 then Some(DistanceWillingToWalkFromParkingToDestination) else
    if n == 38 then Some(PreferenceForCoveredParking) else
    if n == 39 then Some(NeedForHandicappedAccessibleParking) else
    if n == 40 then Some(PreferenceForParkingWithSecurity) else
    if n == 41 then Some(PreferredTemperature) else
    if n == 42 then Some(FanSpeedPreferences) else
    if n == 43 then Some(AirflowDirectionPreferences) else
    if n == 44 then Some(SeatHeatingPreferences) else
    if n == 45 then Some(InteriorLightingBrightnessPreferences) else
    if n == 46 then Some(InteriorLightingAmbientPreferences) else
    if n == 47 then Some(InteriorLightingColorPreferences) else
    if n == 48 then Some(FavoriteGenres) else
    if n == 49 then Some(FavoriteArtistsOrBands) else
    if n == 50 then Some(FavoriteSongs) else
    if n == 51 then Some(PreferredMusicStreamingService) else
    if n == 52 then Some(PreferredRadioStation) else
    if n == 53 then Some(FavoritePodcastGenres) else
    if n == 54 then Some(FavoritePodcastShows) else
    if n == 55 then Some(GeneralNewsSource) else
    None
  }

  lemma {:induction false} LabelTablesInvertible(m: Main, s: Sub, d: Detail)
    ensures MainOfLabel(MainLabel(m)) == Some(m)
    ensures SubOfLabel(SubLabel(s)) == Some(s)
    ensures DetailOfLabel(DetailLabel(d)) == Some(d)
    ensures 0 <= MainLabel(m) <= 3 && 4 <= SubLabel(s) <= 14 && 15 <= DetailLabel(d) <= 55
  {
    MainTableInvertible(m);
    SubTableInvertible(s);
    DetailTableInvertible(d);
  }

  lemma {:induction false} MainTableInvertible(m: Main)
    ensures MainOfLabel(MainLabel(m)) == Some(m) && 0 <= MainLabel(m) <= 3
  {
    match m case _ =>
  }

  lemma {:induction false} SubTableInvertible(s: Sub)
    ensures SubOfLabel(SubLabel(s)) == Some(s) && 4 <= SubLabel(s) <= 14
  {
    match s case _ =>
  }

  lemma {:induction false} DetailTableInvertible(d: Detail)
    ensures DetailOfLabel(DetailLabel(d)) == Some(d) && 15 <= DetailLabel(d) <= 55
  {
    match d case _ =>
  }

  // ------------------------------------------------------------ string_to_number

  /** The error raised for a string the table of the given kind lacks. */
  function NoMapping(input: string): Error {
    ValueError("No mapping found for string: " + input)
  }

  /**
   * The label of `input` in the table selected by `category`; a lookup in
   * an unknown kind searches an empty table.
   */
  function StringToNumber(input: string, category: string): (r: Result<int>)
    ensures r.Err? ==> r.error == NoMapping(input)
    ensures r.Ok? ==> category == MainKind || category == SubKind || category == DetailKind
    ensures r.Ok? && category == MainKind ==> 0 <= r.value <= 4
    ensures r.Ok? && category == SubKind ==> 4 <= r.value <= 14
    ensures r.Ok? && category == DetailKind ==> 15 <= r.value <= 56
  {
    if category == MainKind then
      match ParseMain(input)
      case Some(m) => LabelTablesInvertible(m, Restaurant, FavouriteCuisine); Ok(MainLabel(m))
      case None => if input == NoMainCategory then Ok(NoMainCategoryLabel) else Err(NoMapping(input))
    else if category == SubKind then
      match ParseSub(input)
      case Some(s) => LabelTablesInvertible(PointsOfInterest, s, FavouriteCuisine); Ok(SubLabel(s))
      case None => Err(NoMapping(input))
    else if category == DetailKind then
      match ParseDetail(input)
      case Some(d) => LabelTablesInvertible(PointsOfInterest, Restaurant, d); Ok(DetailLabel(d))
      case None => if input == OtherDetail then Ok(OtherDetailLabel) else Err(NoMapping(input))
    else
      Err(NoMapping(input))
  }

  /** The strings the table of kind `category` holds. */
  predicate InTable(input: string, category: string) {
    || (category == MainKind &&
        ((exists m: Main :: input == MainDisplay(m) || input == MainKey(m)) || input == NoMainCategory))
    || (category == SubKind &&
        (exists s: Sub :: input == SubDisplay(s) || input == SubKey(s)))
    || (category == DetailKind &&
        ((exists d: Detail :: input == DetailDisplay(d) || input == DetailKey(d)) || input == OtherDetail))
  }

  /** Display name and snake-case key of a main category share its label. */
  lemma {:induction false} MainNamesLabel(m: Main)
    ensures StringToNumber(MainDisplay(m), MainKind) == Ok(MainLabel(m))
    ensures StringToNumber(MainKey(m), MainKind) == Ok(MainLabel(m))
  {
    ParseMainNames(m);
  }

  /** Display name and snake-case key of a subcategory share its label. */
  lemma {:induction false} SubNamesLabel(s: Sub)
    ensures StringToNumber(SubDisplay(s), SubKind) == Ok(SubLabel(s))
    ensures StringToNumber(SubKey(s), SubKind) == Ok(SubLabel(s))
  {
    ParseSubNames(s);
  }

  /** Display name and snake-case key of a detail category share its label. */
  lemma {:induction false} DetailNamesLabel(d: Detail)
    ensures StringToNumber(DetailDisplay(d), DetailKind) == Ok(DetailLabel(d))
    ensures StringToNumber(DetailKey(d), DetailKind) == Ok(DetailLabel(d))
  {
    ParseDetailNames(d);
  }

  /** A lookup succeeds exactly for the strings of the selected table. */
  lemma {:induction false} StringToNumberDefined(input: string, category: string)
    ensures StringToNumber(input, category).Ok? <==> InTable(input, category)
  {
    if category == MainKind {
      if m: Main :| input == MainDisplay(m) || input == MainKey(m) {
        MainNamesLabel(m);
      }
    } else if category == SubKind {
      if s: Sub :| input == SubDisplay(s) || input == SubKey(s) {
        SubNamesLabel(s);
      }
    } else if category == DetailKind {
      if d: Detail :| input == DetailDisplay(d) || input == DetailKey(d) {
        DetailNamesLabel(d);
      }
    }
  }

  /** The two extra entries. */
  lemma {:induction false} ExtraLabels()
    ensures StringToNumber(NoMainCategory, MainKind) == Ok(NoMainCategoryLabel)
    ensures StringToNumber(OtherDetail, DetailKind) == Ok(OtherDetailLabel)
  {
    assert |NoMainCategory| == 16;
    assert |OtherDetail| == 5;
  }

  /**
   * Distinct categories of one kind get distinct labels, and none of them
   * gets the label of the extra entry of its kind; with `MainNamesLabel`,
   * `SubNamesLabel` and `DetailNamesLabel` this says that two names share a
   * label exactly when they name the same category.
   */
  lemma {:induction false} LabelsInjective(m1: Main, m2: Main, c1: Sub, c2: Sub, d1: Detail, d2: Detail)
    ensures MainLabel(m1) == MainLabel(m2) <==> m1 == m2
    ensures SubLabel(c1) == SubLabel(c2) <==> c1 == c2
    ensures DetailLabel(d1) == DetailLabel(d2) <==> d1 == d2
    ensures MainLabel(m1) != NoMainCategoryLabel && DetailLabel(d1) != OtherDetailLabel
  {
    LabelTablesInvertible(m1, c1, d1);
    LabelTablesInvertible(m2, c2, d2);
  }

  // ------------------------------------------------------------ convert_preference_to_labels

  /**
   * One label per (kind, value) item of a preference, in item order; the
   * first item whose lookup fails raises its error.
   */
  function ConvertPreferenceToLabels(preference: seq<(string, string)>): (r: Result<seq<int>>)
    ensures r.Ok? <==> forall i :: 0 <= i < |preference| ==> StringToNumber(preference[i].1, preference[i].0).Ok?
    ensures r.Ok? ==> |r.value| == |preference|
    ensures r.Ok? ==> forall i :: 0 <= i < |preference| ==>
                        StringToNumber(preference[i].1, preference[i].0) == Ok(r.value[i])
    ensures r.Err? ==> exists i :: 0 <= i < |preference| &&
                        StringToNumber(preference[i].1, preference[i].0) == Err(r.error) &&
                        (forall j :: 0 <= j < i ==> StringToNumber(preference[j].1, preference[j].0).Ok?)
  {
    if |preference| == 0 then Ok([])
    else
      match StringToNumber(preference[0].1, preference[0].0)
      case Err(e) => Err(e)
      case Ok(first) =>
        match ConvertPreferenceToLabels(preference[1..])
        case Err(e) => Err(e)
        case Ok(labels) => Ok([first] + labels)
  }
}
