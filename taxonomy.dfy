/**
 * The fixed category taxonomy of the preference schema: 4 main
 * categories, 11 subcategories and 41 detail categories, with the three
 * spellings the code uses for each (display name, snake-case field key,
 * Pydantic class name) and the parent of every node. The string tables of
 * the label and identifier mappings and the field names of the schema are
 * all read from here.
 *
 * Looking a name up compares it only with the names of the same length
 * (and, for detail names, the same last character);
 * `ParseMainNames`, `ParseSubNames` and `ParseDetailNames` prove that this
 * gives exactly the dictionary lookup: every name finds its own category.
 */
module Taxonomy {
  import opened Wrappers

  /** Field name of the free-text slot present in every main and subcategory model. */
  const NoOrOther: string := "no_or_other_preferences"

  datatype Main =
    | PointsOfInterest
    | NavigationAndRouting
    | VehicleSettingsAndComfort
    | EntertainmentAndMedia

  datatype Sub =
    | Restaurant
    | GasStation
    | ChargingStation
    | GroceryShopping
    | Routing
    | TrafficAndConditions
    | Parking
    | ClimateControl
    | LightingAndAmbience
    | Music
    | RadioAndPodcast

  datatype Detail =
    | FavouriteCuisine
    | PreferredRestaurantType
    | FastFoodPreference
    | DesiredPriceRange
    | DietaryPreference
    | PreferredPaymentMethod
    | PreferredGasStation
    | WillingnessToPayExtraForGreenFuel
    | PriceSensitivityForFuel
    | PreferredChargingNetwork
    | PreferredTypeOfChargingWhileTraveling
    | PreferredTypeOfChargingAtEverydayPoints
    | ChargingStationOnsiteAmenities
    | PreferredSupermarketChain
    | PreferenceForLocalMarketsFarmsOrSupermarket
    | AvoidanceOfSpecificRoadTypes
    | PriorityForShortestTimeOrShortestDistance
    | ToleranceForTraffic
    | TrafficInformationSourcePreferences
    | WillingnessToTakeLongerRouteToAvoidTraffic
    | PreferredParkingType
    | PriceSensitivityForPaidParking
    | DistanceWillingToWalkFromParkingToDestination
    | PreferenceForCoveredParking
    | NeedForHandicappedAccessibleParking
    | PreferenceForParkingWithSecurity
    | PreferredTemperature
    | FanSpeedPreferences
    | AirflowDirectionPreferences
    | SeatHeatingPreferences
    | InteriorLightingBrightnessPreferences
    | InteriorLightingAmbientPreferences
    | InteriorLightingColorPreferences
    | FavoriteGenres
    | FavoriteArtistsOrBands
    | FavoriteSongs
    | PreferredMusicStreamingService
    | PreferredRadioStation
    | FavoritePodcastGenres
    | FavoritePodcastShows
    | GeneralNewsSource

  // ------------------------------------------------------------ names

  /** Display name of a main category. */
  function MainDisplay(x: Main): string {
    match x
    case PointsOfInterest => "Points of Interest"
    case NavigationAndRouting => "Navigation and Routing"
    case VehicleSettingsAndComfort => "Vehicle Settings and Comfort"
    case EntertainmentAndMedia => "Entertainment and Media"
  }

  /** Snake-case field key of a main category. */
  function MainKey(x: Main): string {
    match x
    case PointsOfInterest => "points_of_interest"
    case NavigationAndRouting => "navigation_and_routing"
    case VehicleSettingsAndComfort => "vehicle_settings_and_comfort"
    case EntertainmentAndMedia => "entertainment_and_media"
  }

  /** Pydantic class name of a main category. */
  function MainClass(x: Main): string {
    match x
    case PointsOfInterest => "PointsOfInterest"
    case NavigationAndRouting => "NavigationAndRouting"
    case VehicleSettingsAndComfort => "VehicleSettingsAndComfort"
    case EntertainmentAndMedia => "EntertainmentAndMedia"
  }

  /** Display name of a subcategory. */
  function SubDisplay(x: Sub): string {
    match x
    case Restaurant => "Restaurant"
    case GasStation => "Gas Station"
    case ChargingStation => "Charging Station(in public)"
    case GroceryShopping => "Grocery Shopping"
    case Routing => "Routing"
    case TrafficAndConditions => "Traffic and Conditions"
    case Parking => "Parking"
    case ClimateControl => "Climate Control"
    case LightingAndAmbience => "Lighting and Ambience"
    case Music => "Music"
    case RadioAndPodcast => "Radio and Podcasts"
  }

  /** Snake-case field key of a subcategory. */
  function SubKey(x: Sub): string {
    match x
    case Restaurant => "restaurant"
    case GasStation => "gas_station"
    case ChargingStation => "charging_station"
    case GroceryShopping => "grocery_shopping"
    case Routing => "routing"
    case TrafficAndConditions => "traffic_and_conditions"
    case Parking => "parking"
    case ClimateControl => "climate_control"
    case LightingAndAmbience => "lighting_and_ambience"
    case Music => "music"
    case RadioAndPodcast => "radio_and_podcast"
  }

  /** Pydantic class name of a subcategory. */
  function SubClass(x: Sub): string {
    match x
    case Restaurant => "Restaurant"
    case GasStation => "GasStation"
    case ChargingStation => "ChargingStation"
    case GroceryShopping => "GroceryShopping"
    case Routing => "Routing"
    case TrafficAndConditions => "TrafficAndConditions"
    case Parking => "Parking"
    case ClimateControl => "ClimateControl"
    case LightingAndAmbience => "LightingAndAmbience"
    case Music => "Music"
    case RadioAndPodcast => "RadioAndPodcast"
  }

  /** Display name of a detail category. */
  function DetailDisplay(x: Detail): string {
    match x
    case FavouriteCuisine => "Favorite Cuisine"
    case PreferredRestaurantType => "Preferred Restaurant Type"
    case FastFoodPreference => "Fast Food Preference"
    case DesiredPriceRange => "Desired Price Range"
    case DietaryPreference => "Dietary Preferences"
    case PreferredPaymentMethod => "Preferred Payment method"
    case PreferredGasStation => "Preferred Gas Station"
    case WillingnessToPayExtraForGreenFuel => "Willingness to Pay Extra for Green Fuel"
    case PriceSensitivityForFuel => "Price Sensitivity for Fuel"
    case PreferredChargingNetwork => "Preferred Charging Network"
    case PreferredTypeOfChargingWhileTraveling => "Preferred type of Charging while traveling"
    case PreferredTypeOfChargingAtEverydayPoints => "Preferred type of Charging when being at everyday points (f.e. work, grocery, restaurant)"
    case ChargingStationOnsiteAmenities => "Charging Station Amenities"
    case PreferredSupermarketChain => "Preferred Supermarket Chains"
    case PreferenceForLocalMarketsFarmsOrSupermarket => "Preference for Local Markets/Farms or Supermarket"
    case AvoidanceOfSpecificRoadTypes => "Avoidance of Specific Road Types"
    case PriorityForShortestTimeOrShortestDistance => "Priority for Shortest Time or Shortest Distance"
    case ToleranceForTraffic => "Tolerance for Traffic"
    case TrafficInformationSourcePreferences => "Traffic Information Source Preferences"
    case WillingnessToTakeLongerRouteToAvoidTraffic => "Willingness to Take Longer Route to Avoid Traffic"
    case PreferredParkingType => "Preferred Parking Type"
    case PriceSensitivityForPaidParking => "Price Sensitivity for Paid Parking"
    case DistanceWillingToWalkFromParkingToDestination => "Distance Willing to Walk from Parking to Destination"
    case PreferenceForCoveredParking => "Preference for Covered Parking"
    case NeedForHandicappedAccessibleParking => "Need for Handicapped Accessible Parking"
    case PreferenceForParkingWithSecurity => "Preference for Parking with Security"
    case PreferredTemperature => "Preferred Temperature"
    case FanSpeedPreferences => "Fan Speed Preferences"
    case AirflowDirectionPreferences => "Airflow Direction Preferences"
    case SeatHeatingPreferences => "Seat Heating Preferences"
    case InteriorLightingBrightnessPreferences => "Interior Lighting Brightness Preferences"
    case InteriorLightingAmbientPreferences => "Interior Lighting Ambient Preferences"
    case InteriorLightingColorPreferences => "Interior Lightning Color Preferences"
    case FavoriteGenres => "Favorite Genres"
    case FavoriteArtistsOrBands => "Favorite Artists/Bands"
    case FavoriteSongs => "Favorite Songs"
    case PreferredMusicStreamingService => "Preferred Music Streaming Service"
    case PreferredRadioStation => "Preferred Radio Station"
    case FavoritePodcastGenres => "Favorite Podcast Genres"
    case FavoritePodcastShows => "Favorite Podcast Shows"
    case GeneralNewsSource => "General News Source"
  }

  /** Snake-case field key of a detail category. */
  function DetailKey(x: Detail): string {
    match x
    case FavouriteCuisine => "favourite_cuisine"
    case PreferredRestaurantType => "preferred_restaurant_type"
    case FastFoodPreference => "fast_food_preference"
    case DesiredPriceRange => "desired_price_range"
    case DietaryPreference => "dietary_preference"
    case PreferredPaymentMethod => "preferred_payment_method"
    case PreferredGasStation => "preferred_gas_station"
    case WillingnessToPayExtraForGreenFuel => "willingness_to_pay_extra_for_green_fuel"
    case PriceSensitivityForFuel => "price_sensitivity_for_fuel"
    case PreferredChargingNetwork => "preferred_charging_network"
    case PreferredTypeOfChargingWhileTraveling => "preferred_type_of_charging_while_traveling"
    case PreferredTypeOfChargingAtEverydayPoints => "preferred_type_of_charging_at_everyday_points"
    case ChargingStationOnsiteAmenities => "charging_station_onsite_amenities"
    case PreferredSupermarketChain => "preferred_supermarket_chain"
    case PreferenceForLocalMarketsFarmsOrSupermarket => "preference_for_local_markets_farms_or_supermarket"
    case AvoidanceOfSpecificRoadTypes => "avoidance_of_specific_road_types"
    case PriorityForShortestTimeOrShortestDistance => "priority_for_shortest_time_or_shortest_distance"
    case ToleranceForTraffic => "tolerance_for_traffic"
    case TrafficInformationSourcePreferences => "traffic_information_source_preferences"
    case WillingnessToTakeLongerRouteToAvoidTraffic => "willingness_to_take_longer_route_to_avoid_traffic"
    case PreferredParkingType => "preferred_parking_type"
    case PriceSensitivityForPaidParking => "price_sensitivity_for_paid_parking"
    case DistanceWillingToWalkFromParkingToDestination => "distance_willing_to_walk_from_parking_to_destination"
    case PreferenceForCoveredParking => "preference_for_covered_parking"
    case NeedForHandicappedAccessibleParking => "need_for_handicapped_accessible_parking"
    case PreferenceForParkingWithSecurity => "preference_for_parking_with_security"
    case PreferredTemperature => "preferred_temperature"
    case FanSpeedPreferences => "fan_speed_preferences"
    case AirflowDirectionPreferences => "airflow_direction_preferences"
    case SeatHeatingPreferences => "seat_heating_preferences"
    case InteriorLightingBrightnessPreferences => "interior_lighting_brightness_preferences"
    case InteriorLightingAmbientPreferences => "interior_lighting_ambient_preferences"
    case InteriorLightingColorPreferences => "interior_lighting_color_preferences"
    case FavoriteGenres => "favorite_genres"
    case FavoriteArtistsOrBands => "favorite_artists_or_bands"
    case FavoriteSongs => "favorite_songs"
    case PreferredMusicStreamingService => "preferred_music_streaming_service"
    case PreferredRadioStation => "preferred_radio_station"
    case FavoritePodcastGenres => "favorite_podcast_genres"
    case FavoritePodcastShows => "favorite_podcast_shows"
    case GeneralNewsSource => "general_news_source"
  }

  // ------------------------------------------------------------- tree

  /** The main category a subcategory belongs to. */
  function MainOf(x: Sub): Main {
    match x
    case Restaurant => PointsOfInterest
    case GasStation => PointsOfInterest
    case ChargingStation => PointsOfInterest
    case GroceryShopping => PointsOfInterest
    case Routing => NavigationAndRouting
    case TrafficAndConditions => NavigationAndRouting
    case Parking => NavigationAndRouting
    case ClimateControl => VehicleSettingsAndComfort
    case LightingAndAmbience => VehicleSettingsAndComfort
    case Music => EntertainmentAndMedia
    case RadioAndPodcast => EntertainmentAndMedia
  }

  /** The subcategory a detail category belongs to. */
  function SubOf(x: Detail): Sub {
    match x
    case FavouriteCuisine => Restaurant
    case PreferredRestaurantType => Restaurant
    case FastFoodPreference => Restaurant
    case DesiredPriceRange => Restaurant
    case DietaryPreference => Restaurant
    case PreferredPaymentMethod => Restaurant
    case PreferredGasStation => GasStation
    case WillingnessToPayExtraForGreenFuel => GasStation
    case PriceSensitivityForFuel => GasStation
    case PreferredChargingNetwork => ChargingStation
    case PreferredTypeOfChargingWhileTraveling => ChargingStation
    case PreferredTypeOfChargingAtEverydayPoints => ChargingStation
    case ChargingStationOnsiteAmenities => ChargingStation
    case PreferredSupermarketChain => GroceryShopping
    case PreferenceForLocalMarketsFarmsOrSupermarket => GroceryShopping
    case AvoidanceOfSpecificRoadTypes => Routing
    case PriorityForShortestTimeOrShortestDistance => Routing
    case ToleranceForTraffic => Routing
    case TrafficInformationSourcePreferences => TrafficAndConditions
    case WillingnessToTakeLongerRouteToAvoidTraffic => TrafficAndConditions
    case PreferredParkingType => Parking
    case PriceSensitivityForPaidParking => Parking
    case DistanceWillingToWalkFromParkingToDestination => Parking
    case PreferenceForCoveredParking => Parking
    case NeedForHandicappedAccessibleParking => Parking
    case PreferenceForParkingWithSecurity => Parking
    case PreferredTemperature => ClimateControl
    case FanSpeedPreferences => ClimateControl
    case AirflowDirectionPreferences => ClimateControl
    case SeatHeatingPreferences => ClimateControl
    case InteriorLightingBrightnessPreferences => LightingAndAmbience
    case InteriorLightingAmbientPreferences => LightingAndAmbience
    case InteriorLightingColorPreferences => LightingAndAmbience
    case FavoriteGenres => Music
    case FavoriteArtistsOrBands => Music
    case FavoriteSongs => Music
    case PreferredMusicStreamingService => Music
    case PreferredRadioStation => RadioAndPodcast
    case FavoritePodcastGenres => RadioAndPodcast
    case FavoritePodcastShows => RadioAndPodcast
    case GeneralNewsSource => RadioAndPodcast
  }

  /** The subcategories of a main category, in schema order. */
  function SubsOf(x: Main): seq<Sub> {
    match x
    case PointsOfInterest => [Restaurant, GasStation, ChargingStation, GroceryShopping]
    case NavigationAndRouting => [Routing, TrafficAndConditions, Parking]
    case VehicleSettingsAndComfort => [ClimateControl, LightingAndAmbience]
    case EntertainmentAndMedia => [Music, RadioAndPodcast]
  }

  /** The detail categories of a subcategory, in schema order. */
  function DetailsOf(x: Sub): seq<Detail> {
    match x
    case Restaurant => [FavouriteCuisine, PreferredRestaurantType, FastFoodPreference, DesiredPriceRange, DietaryPreference, PreferredPaymentMethod]
    case GasStation => [PreferredGasStation, WillingnessToPayExtraForGreenFuel, PriceSensitivityForFuel]
    case ChargingStation => [PreferredChargingNetwork, PreferredTypeOfChargingWhileTraveling, PreferredTypeOfChargingAtEverydayPoints, ChargingStationOnsiteAmenities]
    case GroceryShopping => [PreferredSupermarketChain, PreferenceForLocalMarketsFarmsOrSupermarket]
    case Routing => [AvoidanceOfSpecificRoadTypes, PriorityForShortestTimeOrShortestDistance, ToleranceForTraffic]
    case TrafficAndConditions => [TrafficInformationSourcePreferences, WillingnessToTakeLongerRouteToAvoidTraffic]
    case Parking => [PreferredParkingType, PriceSensitivityForPaidParking, DistanceWillingToWalkFromParkingToDestination, PreferenceForCoveredParking, NeedForHandicappedAccessibleParking, PreferenceForParkingWithSecurity]
    case ClimateControl => [PreferredTemperature, FanSpeedPreferences, AirflowDirectionPreferences, SeatHeatingPreferences]
    case LightingAndAmbience => [InteriorLightingBrightnessPreferences, InteriorLightingAmbientPreferences, InteriorLightingColorPreferences]
    case Music => [FavoriteGenres, FavoriteArtistsOrBands, FavoriteSongs, PreferredMusicStreamingService]
    case RadioAndPodcast => [PreferredRadioStation, FavoritePodcastGenres, FavoritePodcastShows, GeneralNewsSource]
  }

  function AllMains(): seq<Main> {
    [PointsOfInterest, NavigationAndRouting, VehicleSettingsAndComfort, EntertainmentAndMedia]
  }

  function AllSubs(): seq<Sub> {
    [Restaurant, GasStation, ChargingStation, GroceryShopping, Routing, TrafficAndConditions, Parking, ClimateControl, LightingAndAmbience, Music, RadioAndPodcast]
  }

  // ------------------------------------------------------------ parse

  /** The main category whose display name or key is `s`. */
  function ParseMain(s: string): (r: Option<Main>)
    ensures r.Some? ==> s == MainDisplay(r.value) || s == MainKey(r.value)
  {
    var n := |s|;
    if n == 18 then
      if s == MainDisplay(PointsOfInterest) then Some(PointsOfInterest)
      else if s == MainKey(PointsOfInterest) then Some(PointsOfInterest)
      else None
    else if n == 22 then
      if s == MainDisplay(NavigationAndRouting) then Some(NavigationAndRouting)
      else if s == MainKey(NavigationAndRouting) then Some(NavigationAndRouting)
      else None
    else if n == 23 then
      if s == MainDisplay(EntertainmentAndMedia) then Some(EntertainmentAndMedia)
      else if s == MainKey(EntertainmentAndMedia) then Some(EntertainmentAndMedia)
      else None
    else if n == 28 then
      if s == MainDisplay(VehicleSettingsAndComfort) then Some(VehicleSettingsAndComfort)
      else if s == MainKey(VehicleSettingsAndComfort) then Some(VehicleSettingsAndComfort)
      else None
    else None
  }

  /** The subcategory whose display name or key is `s`. */
  function ParseSub(s: string): (r: Option<Sub>)
    ensures r.Some? ==> s == SubDisplay(r.value) || s == SubKey(r.value)
  {
    var n := |s|;
    if n == 5 then
      if s == SubDisplay(Music) then Some(Music)
      else if s == SubKey(Music) then Some(Music)
      else None
    else if n == 7 then
      if s == SubDisplay(Routing) then Some(Routing)
      else if s == SubDisplay(Parking) then Some(Parking)
      else if s == SubKey(Routing) then Some(Routing)
      else if s == SubKey(Parking) then Some(Parking)
      else None
    else if n == 10 then
      if s == SubDisplay(Restaurant) then Some(Restaurant)
      else if s == SubKey(Restaurant) then Some(Restaurant)
      else None
    else if n == 11 then
      if s == SubDisplay(GasStation) then Some(GasStation)
      else if s == SubKey(GasStation) then Some(GasStation)
      else None
    else if n == 15 then
      if s == SubDisplay(ClimateControl) then Some(ClimateControl)
      else if s == SubKey(ClimateControl) then Some(ClimateControl)
      else None
    else if n == 16 then
      if s == SubDisplay(GroceryShopping) then Some(GroceryShopping)
      else if s == SubKey(ChargingStation) then Some(ChargingStation)
      else if s == SubKey(GroceryShopping) then Some(GroceryShopping)
      else None
    else if n == 17 then
      if s == SubKey(RadioAndPodcast) then Some(RadioAndPodcast)
      else None
    else if n == 18 then
      if s == SubDisplay(RadioAndPodcast) then Some(RadioAndPodcast)
      else None
    else if n == 21 then
      if s == SubDisplay(LightingAndAmbience) then Some(LightingAndAmbience)
      else if s == SubKey(LightingAndAmbience) then Some(LightingAndAmbience)
      else None
    else if n == 22 then
      if s == SubDisplay(TrafficAndConditions) then Some(TrafficAndConditions)
      else if s == SubKey(TrafficAndConditions) then Some(TrafficAndConditions)
      else None
    else if n == 27 then
      if s == SubDisplay(ChargingStation) then Some(ChargingStation)
      else None
    else None
  }

  /** The subcategory whose Pydantic class name is `s`. */
  function ParseSubClass(s: string): (r: Option<Sub>)
    ensures r.Some? ==> s == SubClass(r.value)
  {
    var n := |s|;
    if n == 5 then
      if s == SubClass(Music) then Some(Music)
      else None
    else if n == 7 then
      if s == SubClass(Routing) then Some(Routing)
      else if s == SubClass(Parking) then Some(Parking)
      else None
    else if n == 10 then
      if s == SubClass(Restaurant) then Some(Restaurant)
      else if s == SubClass(GasStation) then Some(GasStation)
      else None
    else if n == 14 then
      if s == SubClass(ClimateControl) then Some(ClimateControl)
      else None
    else if n == 15 then
      if s == SubClass(ChargingStation) then Some(ChargingStation)
      else if s == SubClass(GroceryShopping) then Some(GroceryShopping)
      else if s == SubClass(RadioAndPodcast) then Some(RadioAndPodcast)
      else None
    else if n == 19 then
      if s == SubClass(LightingAndAmbience) then Some(LightingAndAmbience)
      else None
    else if n == 20 then
      if s == SubClass(TrafficAndConditions) then Some(TrafficAndConditions)
      else None
    else None
  }

  /** The detail category whose display name or key is `s`. */
  function ParseDetail(s: string): (r: Option<Detail>)
    ensures r.Some? ==> s == DetailDisplay(r.value) || s == DetailKey(r.value)
  {
    var n := |s|;
    if n == 0 then None else
    var last := s[n - 1];
    if n == 14 then
      if last == 's' then
        if s == DetailKey(FavoriteSongs) then Some(FavoriteSongs)
        else if s == DetailDisplay(FavoriteSongs) then Some(FavoriteSongs)
        else None
      else None
    else if n == 15 then
      if last == 's' then
        if s == DetailKey(FavoriteGenres) then Some(FavoriteGenres)
        else if s == DetailDisplay(FavoriteGenres) then Some(FavoriteGenres)
        else None
      else None
    else if n == 16 then
      if s == DetailDisplay(FavouriteCuisine) then Some(FavouriteCuisine)
      else None
    else if n == 17 then
      if s == DetailKey(FavouriteCuisine) then Some(FavouriteCuisine)
      else None
    else if n == 18 then
      if s == DetailKey(DietaryPreference) then Some(DietaryPreference)
      else None
    else if n == 19 then
      if last == 'e' then
        if s == DetailKey(DesiredPriceRange) then Some(DesiredPriceRange)
        else if s == DetailKey(GeneralNewsSource) then Some(GeneralNewsSource)
        else if s == DetailDisplay(DesiredPriceRange) then Some(DesiredPriceRange)
        else if s == DetailDisplay(GeneralNewsSource) then Some(GeneralNewsSource)
        else None
      else if last == 's' then
        if s == DetailDisplay(DietaryPreference) then Some(DietaryPreference)
        else None
      else None
    else if n == 20 then
      if last == 'e' then
        if s == DetailKey(FastFoodPreference) then Some(FastFoodPreference)
        else if s == DetailDisplay(FastFoodPreference) then Some(FastFoodPreference)
        else None
      else None
    else if n == 21 then
      if last == 'c' then
        if s == DetailKey(ToleranceForTraffic) then Some(ToleranceForTraffic)
        else if s == DetailDisplay(ToleranceForTraffic) then Some(ToleranceForTraffic)
        else None
      else if last == 'e' then
        if s == DetailKey(PreferredTemperature) then Some(PreferredTemperature)
        else if s == DetailDisplay(PreferredTemperature) then Some(PreferredTemperature)
        else None
      else if last == 'n' then
        if s == DetailKey(PreferredGasStation) then Some(PreferredGasStation)
        else if s == DetailDisplay(PreferredGasStation) then Some(PreferredGasStation)
        else None
      else if last == 's' then
        if s == DetailKey(FanSpeedPreferences) then Some(FanSpeedPreferences)
        else if s == DetailDisplay(FanSpeedPreferences) then Some(FanSpeedPreferences)
        else None
      else None
    else if n == 22 then
      if last == 'e' then
        if s == DetailKey(PreferredParkingType) then Some(PreferredParkingType)
        else if s == DetailDisplay(PreferredParkingType) then Some(PreferredParkingType)
        else None
      else if last == 's' then
        if s == DetailKey(FavoritePodcastShows) then Some(FavoritePodcastShows)
        else if s == DetailDisplay(FavoriteArtistsOrBands) then Some(FavoriteArtistsOrBands)
        else if s == DetailDisplay(FavoritePodcastShows) then Some(FavoritePodcastShows)
        else None
      else None
    else if n == 23 then
      if last == 'n' then
        if s == DetailKey(PreferredRadioStation) then Some(PreferredRadioStation)
        else if s == DetailDisplay(PreferredRadioStation) then Some(PreferredRadioStation)
        else None
      else if last == 's' then
        if s == DetailKey(FavoritePodcastGenres) then Some(FavoritePodcastGenres)
        else if s == DetailDisplay(FavoritePodcastGenres) then Some(FavoritePodcastGenres)
        else None
      else None
    else if n == 24 then
      if last == 'd' then
        if s == DetailKey(PreferredPaymentMethod) then Some(PreferredPaymentMethod)
        else if s == DetailDisplay(PreferredPaymentMethod) then Some(PreferredPaymentMethod)
        else None
      else if last == 's' then
        if s == DetailKey(SeatHeatingPreferences) then Some(SeatHeatingPreferences)
        else if s == DetailDisplay(SeatHeatingPreferences) then Some(SeatHeatingPreferences)
        else None
      else None
    else if n == 25 then
      if last == 'e' then
        if s == DetailKey(PreferredRestaurantType) then Some(PreferredRestaurantType)
        else if s == DetailDisplay(PreferredRestaurantType) then Some(PreferredRestaurantType)
        else None
      else if last == 's' then
        if s == DetailKey(FavoriteArtistsOrBands) then Some(FavoriteArtistsOrBands)
        else None
      else None
    else if n == 26 then
      if last == 'k' then
        if s == DetailKey(PreferredChargingNetwork) then Some(PreferredChargingNetwork)
        else if s == DetailDisplay(PreferredChargingNetwork) then Some(PreferredChargingNetwork)
        else None
      else if last == 'l' then
        if s == DetailKey(PriceSensitivityForFuel) then Some(PriceSensitivityForFuel)
        else if s == DetailDisplay(PriceSensitivityForFuel) then Some(PriceSensitivityForFuel)
        else None
      else if last == 's' then
        if s == DetailDisplay(ChargingStationOnsiteAmenities) then Some(ChargingStationOnsiteAmenities)
        else None
      else None
    else if n == 27 then
      if s == DetailKey(PreferredSupermarketChain) then Some(PreferredSupermarketChain)
      else None
    else if n == 28 then
      if s == DetailDisplay(PreferredSupermarketChain) then Some(PreferredSupermarketChain)
      else None
    else if n == 29 then
      if last == 's' then
        if s == DetailKey(AirflowDirectionPreferences) then Some(AirflowDirectionPreferences)
        else if s == DetailDisplay(AirflowDirectionPreferences) then Some(AirflowDirectionPreferences)
        else None
      else None
    else if n == 30 then
      if last == 'g' then
        if s == DetailKey(PreferenceForCoveredParking) then Some(PreferenceForCoveredParking)
        else if s == DetailDisplay(PreferenceForCoveredParking) then Some(PreferenceForCoveredParking)
        else None
      else None
    else if n == 32 then
      if last == 's' then
        if s == DetailKey(AvoidanceOfSpecificRoadTypes) then Some(AvoidanceOfSpecificRoadTypes)
        else if s == DetailDisplay(AvoidanceOfSpecificRoadTypes) then Some(AvoidanceOfSpecificRoadTypes)
        else None
      else None
    else if n == 33 then
      if last == 'e' then
        if s == DetailKey(PreferredMusicStreamingService) then Some(PreferredMusicStreamingService)
        else if s == DetailDisplay(PreferredMusicStreamingService) then Some(PreferredMusicStreamingService)
        else None
      else if last == 's' then
        if s == DetailKey(ChargingStationOnsiteAmenities) then Some(ChargingStationOnsiteAmenities)
        else None
      else None
    else if n == 34 then
      if last == 'g' then
        if s == DetailKey(PriceSensitivityForPaidParking) then Some(PriceSensitivityForPaidParking)
        else if s == DetailDisplay(PriceSensitivityForPaidParking) then Some(PriceSensitivityForPaidParking)
        else None
      else None
    else if n == 35 then
      if s == DetailKey(InteriorLightingColorPreferences) then Some(InteriorLightingColorPreferences)
      else None
    else if n == 36 then
      if last == 's' then
        if s == DetailDisplay(InteriorLightingColorPreferences) then Some(InteriorLightingColorPreferences)
        else None
      else if last == 'y' then
        if s == DetailKey(PreferenceForParkingWithSecurity) then Some(PreferenceForParkingWithSecurity)
        else if s == DetailDisplay(PreferenceForParkingWithSecurity) then Some(PreferenceForParkingWithSecurity)
        else None
      else None
    else if n == 37 then
      if last == 's' then
        if s == DetailKey(InteriorLightingAmbientPreferences) then Some(InteriorLightingAmbientPreferences)
        else if s == DetailDisplay(InteriorLightingAmbientPreferences) then Some(InteriorLightingAmbientPreferences)
        else None
      else None
    else if n == 38 then
      if last == 's' then
        if s == DetailKey(TrafficInformationSourcePreferences) then Some(TrafficInformationSourcePreferences)
        else if s == DetailDisplay(TrafficInformationSourcePreferences) then Some(TrafficInformationSourcePreferences)
        else None
      else None
    else if n == 39 then
      if last == 'g' then
        if s == DetailKey(NeedForHandicappedAccessibleParking) then Some(NeedForHandicappedAccessibleParking)
        else if s == DetailDisplay(NeedForHandicappedAccessibleParking) then Some(NeedForHandicappedAccessibleParking)
        else None
      else if last == 'l' then
        if s == DetailKey(WillingnessToPayExtraForGreenFuel) then Some(WillingnessToPayExtraForGreenFuel)
        else if s == DetailDisplay(WillingnessToPayExtraForGreenFuel) then Some(WillingnessToPayExtraForGreenFuel)
        else None
      else None
    else if n == 40 then
      if last == 's' then
        if s == DetailKey(InteriorLightingBrightnessPreferences) then Some(InteriorLightingBrightnessPreferences)
        else if s == DetailDisplay(InteriorLightingBrightnessPreferences) then Some(InteriorLightingBrightnessPreferences)
        else None
      else None
    else if n == 42 then
      if last == 'g' then
        if s == DetailKey(PreferredTypeOfChargingWhileTraveling) then Some(PreferredTypeOfChargingWhileTraveling)
        else if s == DetailDisplay(PreferredTypeOfChargingWhileTraveling) then Some(PreferredTypeOfChargingWhileTraveling)
        else None
      else None
    else if n == 45 then
      if s == DetailKey(PreferredTypeOfChargingAtEverydayPoints) then Some(PreferredTypeOfChargingAtEverydayPoints)
      else None
    else if n == 47 then
      if last == 'e' then
        if s == DetailKey(PriorityForShortestTimeOrShortestDistance) then Some(PriorityForShortestTimeOrShortestDistance)
        else if s == DetailDisplay(PriorityForShortestTimeOrShortestDistance) then Some(PriorityForShortestTimeOrShortestDistance)
        else None
      else None
    else if n == 49 then
      if last == 'c' then
        if s == DetailKey(WillingnessToTakeLongerRouteToAvoidTraffic) then Some(WillingnessToTakeLongerRouteToAvoidTraffic)
        else if s == DetailDisplay(WillingnessToTakeLongerRouteToAvoidTraffic) then Some(WillingnessToTakeLongerRouteToAvoidTraffic)
        else None
      else if last == 't' then
        if s == DetailKey(PreferenceForLocalMarketsFarmsOrSupermarket) then Some(PreferenceForLocalMarketsFarmsOrSupermarket)
        else if s == DetailDisplay(PreferenceForLocalMarketsFarmsOrSupermarket) then Some(PreferenceForLocalMarketsFarmsOrSupermarket)
        else None
      else None
    else if n == 52 then
      if last == 'n' then
        if s == DetailKey(DistanceWillingToWalkFromParkingToDestination) then Some(DistanceWillingToWalkFromParkingToDestination)
        else if s == DetailDisplay(DistanceWillingToWalkFromParkingToDestination) then Some(DistanceWillingToWalkFromParkingToDestination)
        else None
      else None
    else if n == 89 then
      if s == DetailDisplay(PreferredTypeOfChargingAtEverydayPoints) then Some(PreferredTypeOfChargingAtEverydayPoints)
      else None
    else None
  }

  // ----------------------------------------------------------- lemmas

  lemma {:induction false} ParseMainAll()
    ensures ParseMain(MainDisplay(PointsOfInterest)) == Some(PointsOfInterest) && ParseMain(MainKey(PointsOfInterest)) == Some(PointsOfInterest)
    ensures ParseMain(MainDisplay(NavigationAndRouting)) == Some(NavigationAndRouting) && ParseMain(MainKey(NavigationAndRouting)) == Some(NavigationAndRouting)
    ensures ParseMain(MainDisplay(VehicleSettingsAndComfort)) == Some(VehicleSettingsAndComfort) && ParseMain(MainKey(VehicleSettingsAndComfort)) == Some(VehicleSettingsAndComfort)
    ensures ParseMain(MainDisplay(EntertainmentAndMedia)) == Some(EntertainmentAndMedia) && ParseMain(MainKey(EntertainmentAndMedia)) == Some(EntertainmentAndMedia)
  {
  }

  /** Every main display name and key finds its own category: the names are pairwise distinct. */
  lemma {:induction false} ParseMainNames(m: Main)
    ensures ParseMain(MainDisplay(m)) == Some(m)
    ensures ParseMain(MainKey(m)) == Some(m)
  {
    ParseMainAll();
  }

  lemma {:induction false} ParseSubFirstHalf()
    ensures ParseSub(SubDisplay(Restaurant)) == Some(Restaurant) && ParseSub(SubKey(Restaurant)) == Some(Restaurant)
    ensures ParseSub(SubDisplay(GasStation)) == Some(GasStation) && ParseSub(SubKey(GasStation)) == Some(GasStation)
    ensures ParseSub(SubDisplay(ChargingStation)) == Some(ChargingStation) && ParseSub(SubKey(ChargingStation)) == Some(ChargingStation)
    ensures ParseSub(SubDisplay(GroceryShopping)) == Some(GroceryShopping) && ParseSub(SubKey(GroceryShopping)) == Some(GroceryShopping)
    ensures ParseSub(SubDisplay(Routing)) == Some(Routing) && ParseSub(SubKey(Routing)) == Some(Routing)
    ensures ParseSub(SubDisplay(TrafficAndConditions)) == Some(TrafficAndConditions) && ParseSub(SubKey(TrafficAndConditions)) == Some(TrafficAndConditions)
  {
  }

  lemma {:induction false} ParseSubSecondHalf()
    ensures ParseSub(SubDisplay(Parking)) == Some(Parking) && ParseSub(SubKey(Parking)) == Some(Parking)
    ensures ParseSub(SubDisplay(ClimateControl)) == Some(ClimateControl) && ParseSub(SubKey(ClimateControl)) == Some(ClimateControl)
    ensures ParseSub(SubDisplay(LightingAndAmbience)) == Some(LightingAndAmbience) && ParseSub(SubKey(LightingAndAmbience)) == Some(LightingAndAmbience)
    ensures ParseSub(SubDisplay(Music)) == Some(Music) && ParseSub(SubKey(Music)) == Some(Music)
    ensures ParseSub(SubDisplay(RadioAndPodcast)) == Some(RadioAndPodcast) && ParseSub(SubKey(RadioAndPodcast)) == Some(RadioAndPodcast)
  {
  }

  lemma {:induction false} ParseSubClassAll()
    ensures ParseSubClass(SubClass(Restaurant)) == Some(Restaurant)
    ensures ParseSubClass(SubClass(GasStation)) == Some(GasStation)
    ensures ParseSubClass(SubClass(ChargingStation)) == Some(ChargingStation)
    ensures ParseSubClass(SubClass(GroceryShopping)) == Some(GroceryShopping)
    ensures ParseSubClass(SubClass(Routing)) == Some(Routing)
    ensures ParseSubClass(SubClass(TrafficAndConditions)) == Some(TrafficAndConditions)
    ensures ParseSubClass(SubClass(Parking)) == Some(Parking)
    ensures ParseSubClass(SubClass(ClimateControl)) == Some(ClimateControl)
    ensures ParseSubClass(SubClass(LightingAndAmbience)) == Some(LightingAndAmbience)
    ensures ParseSubClass(SubClass(Music)) == Some(Music)
    ensures ParseSubClass(SubClass(RadioAndPodcast)) == Some(RadioAndPodcast)
  {
  }

  /** Every subcategory display name, key and class name finds its own subcategory. */
  lemma {:induction false} ParseSubNames(s: Sub)
    ensures ParseSub(SubDisplay(s)) == Some(s)
    ensures ParseSub(SubKey(s)) == Some(s)
    ensures ParseSubClass(SubClass(s)) == Some(s)
  {
    ParseSubFirstHalf();
    ParseSubSecondHalf();
    ParseSubClassAll();
  }

  // One lemma per detail name keeps each proof small: naming the literal and
  // its length selects the bucket before any string comparison.

  lemma {:induction false} ParseDisplayOfFavouriteCuisine()
    ensures ParseDetail(DetailDisplay(FavouriteCuisine)) == Some(FavouriteCuisine)
  {
    var s := DetailDisplay(FavouriteCuisine);
    assert s == "Favorite Cuisine";
    assert |s| == 16;
    assert s[15] == 'e';
  }

  lemma {:induction false} ParseKeyOfFavouriteCuisine()
    ensures ParseDetail(DetailKey(FavouriteCuisine)) == Some(FavouriteCuisine)
  {
    var s := DetailKey(FavouriteCuisine);
    assert s == "favourite_cuisine";
    assert |s| == 17;
    assert s[16] == 'e';
  }

  lemma {:induction false} ParseDisplayOfPreferredRestaurantType()
    ensures ParseDetail(DetailDisplay(PreferredRestaurantType)) == Some(PreferredRestaurantType)
  {
    var s := DetailDisplay(PreferredRestaurantType);
    assert s == "Preferred Restaurant Type";
    assert |s| == 25;
    assert s[24] == 'e';
  }

  lemma {:induction false} ParseKeyOfPreferredRestaurantType()
    ensures ParseDetail(DetailKey(PreferredRestaurantType)) == Some(PreferredRestaurantType)
  {
    var s := DetailKey(PreferredRestaurantType);
    assert s == "preferred_restaurant_type";
    assert |s| == 25;
    assert s[24] == 'e';
  }

  lemma {:induction false} ParseDisplayOfFastFoodPreference()
    ensures ParseDetail(DetailDisplay(FastFoodPreference)) == Some(FastFoodPreference)
  {
    var s := DetailDisplay(FastFoodPreference);
    assert s == "Fast Food Preference";
    assert |s| == 20;
    assert s[19] == 'e';
  }

  lemma {:induction false} ParseKeyOfFastFoodPreference()
    ensures ParseDetail(DetailKey(FastFoodPreference)) == Some(FastFoodPreference)
  {
    var s := DetailKey(FastFoodPreference);
    assert s == "fast_food_preference";
    assert |s| == 20;
    assert s[19] == 'e';
  }

  lemma {:induction false} ParseDisplayOfDesiredPriceRange()
    ensures ParseDetail(DetailDisplay(DesiredPriceRange)) == Some(DesiredPriceRange)
  {
    var s := DetailDisplay(DesiredPriceRange);
    assert s == "Desired Price Range";
    assert |s| == 19;
    assert s[18] == 'e';
  }

  lemma {:induction false} ParseKeyOfDesiredPriceRange()
    ensures ParseDetail(DetailKey(DesiredPriceRange)) == Some(DesiredPriceRange)
  {
    var s := DetailKey(DesiredPriceRange);
    assert s == "desired_price_range";
    assert |s| == 19;
    assert s[18] == 'e';
  }

  lemma {:induction false} ParseDisplayOfDietaryPreference()
    ensures ParseDetail(DetailDisplay(DietaryPreference)) == Some(DietaryPreference)
  {
    var s := DetailDisplay(DietaryPreference);
    assert s == "Dietary Preferences";
    assert |s| == 19;
    assert s[18] == 's';
  }

  lemma {:induction false} ParseKeyOfDietaryPreference()
    ensures ParseDetail(DetailKey(DietaryPreference)) == Some(DietaryPreference)
  {
    var s := DetailKey(DietaryPreference);
    assert s == "dietary_preference";
    assert |s| == 18;
    assert s[17] == 'e';
  }

  lemma {:induction false} ParseDisplayOfPreferredPaymentMethod()
    ensures ParseDetail(DetailDisplay(PreferredPaymentMethod)) == Some(PreferredPaymentMethod)
  {
    var s := DetailDisplay(PreferredPaymentMethod);
    assert s == "Preferred Payment method";
    assert |s| == 24;
    assert s[23] == 'd';
  }

  lemma {:induction false} ParseKeyOfPreferredPaymentMethod()
    ensures ParseDetail(DetailKey(PreferredPaymentMethod)) == Some(PreferredPaymentMethod)
  {
    var s := DetailKey(PreferredPaymentMethod);
    assert s == "preferred_payment_method";
    assert |s| == 24;
    assert s[23] == 'd';
  }

  lemma {:induction false} ParseDisplayOfPreferredGasStation()
    ensures ParseDetail(DetailDisplay(PreferredGasStation)) == Some(PreferredGasStation)
  {
    var s := DetailDisplay(PreferredGasStation);
    assert s == "Preferred Gas Station";
    assert |s| == 21;
    assert s[20] == 'n';
  }

  lemma {:induction false} ParseKeyOfPreferredGasStation()
    ensures ParseDetail(DetailKey(PreferredGasStation)) == Some(PreferredGasStation)
  {
    var s := DetailKey(PreferredGasStation);
    assert s == "preferred_gas_station";
    assert |s| == 21;
    assert s[20] == 'n';
  }

  lemma {:induction false} ParseDisplayOfWillingnessToPayExtraForGreenFuel()
    ensures ParseDetail(DetailDisplay(WillingnessToPayExtraForGreenFuel)) == Some(WillingnessToPayExtraForGreenFuel)
  {
    var s := DetailDisplay(WillingnessToPayExtraForGreenFuel);
    assert s == "Willingness to Pay Extra for Green Fuel";
    assert |s| == 39;
    assert s[38] == 'l';
  }

  lemma {:induction false} ParseKeyOfWillingnessToPayExtraForGreenFuel()
    ensures ParseDetail(DetailKey(WillingnessToPayExtraForGreenFuel)) == Some(WillingnessToPayExtraForGreenFuel)
  {
    var s := DetailKey(WillingnessToPayExtraForGreenFuel);
    assert s == "willingness_to_pay_extra_for_green_fuel";
    assert |s| == 39;
    assert s[38] == 'l';
  }

  lemma {:induction false} ParseDisplayOfPriceSensitivityForFuel()
    ensures ParseDetail(DetailDisplay(PriceSensitivityForFuel)) == Some(PriceSensitivityForFuel)
  {
    var s := DetailDisplay(PriceSensitivityForFuel);
    assert s == "Price Sensitivity for Fuel";
    assert |s| == 26;
    assert s[25] == 'l';
  }

  lemma {:induction false} ParseKeyOfPriceSensitivityForFuel()
    ensures ParseDetail(DetailKey(PriceSensitivityForFuel)) == Some(PriceSensitivityForFuel)
  {
    var s := DetailKey(PriceSensitivityForFuel);
    assert s == "price_sensitivity_for_fuel";
    assert |s| == 26;
    assert s[25] == 'l';
  }

  lemma {:induction false} ParseDisplayOfPreferredChargingNetwork()
    ensures ParseDetail(DetailDisplay(PreferredChargingNetwork)) == Some(PreferredChargingNetwork)
  {
    var s := DetailDisplay(PreferredChargingNetwork);
    assert s == "Preferred Charging Network";
    assert |s| == 26;
    assert s[25] == 'k';
  }

  lemma {:induction false} ParseKeyOfPreferredChargingNetwork()
    ensures ParseDetail(DetailKey(PreferredChargingNetwork)) == Some(PreferredChargingNetwork)
  {
    var s := DetailKey(PreferredChargingNetwork);
    assert s == "preferred_charging_network";
    assert |s| == 26;
    assert s[25] == 'k';
  }

  lemma {:induction false} ParseDisplayOfPreferredTypeOfChargingWhileTraveling()
    ensures ParseDetail(DetailDisplay(PreferredTypeOfChargingWhileTraveling)) == Some(PreferredTypeOfChargingWhileTraveling)
  {
    var s := DetailDisplay(PreferredTypeOfChargingWhileTraveling);
    assert s == "Preferred type of Charging while traveling";
    assert |s| == 42;
    assert s[41] == 'g';
  }

  lemma {:induction false} ParseKeyOfPreferredTypeOfChargingWhileTraveling()
    ensures ParseDetail(DetailKey(PreferredTypeOfChargingWhileTraveling)) == Some(PreferredTypeOfChargingWhileTraveling)
  {
    var s := DetailKey(PreferredTypeOfChargingWhileTraveling);
    assert s == "preferred_type_of_charging_while_traveling";
    assert |s| == 42;
    assert s[41] == 'g';
  }

  lemma {:induction false} ParseDisplayOfPreferredTypeOfChargingAtEverydayPoints()
    ensures ParseDetail(DetailDisplay(PreferredTypeOfChargingAtEverydayPoints)) == Some(PreferredTypeOfChargingAtEverydayPoints)
  {
    var s := DetailDisplay(PreferredTypeOfChargingAtEverydayPoints);
    assert s == "Preferred type of Charging when being at everyday points (f.e. work, grocery, restaurant)";
    assert |s| == 89;
    assert s[88] == ')';
  }

  lemma {:induction false} ParseKeyOfPreferredTypeOfChargingAtEverydayPoints()
    ensures ParseDetail(DetailKey(PreferredTypeOfChargingAtEverydayPoints)) == Some(PreferredTypeOfChargingAtEverydayPoints)
  {
    var s := DetailKey(PreferredTypeOfChargingAtEverydayPoints);
    assert s == "preferred_type_of_charging_at_everyday_points";
    assert |s| == 45;
    assert s[44] == 's';
  }

  lemma {:induction false} ParseDisplayOfChargingStationOnsiteAmenities()
    ensures ParseDetail(DetailDisplay(ChargingStationOnsiteAmenities)) == Some(ChargingStationOnsiteAmenities)
  {
    var s := DetailDisplay(ChargingStationOnsiteAmenities);
    assert s == "Charging Station Amenities";
    assert |s| == 26;
    assert s[25] == 's';
  }

  lemma {:induction false} ParseKeyOfChargingStationOnsiteAmenities()
    ensures ParseDetail(DetailKey(ChargingStationOnsiteAmenities)) == Some(ChargingStationOnsiteAmenities)
  {
    var s := DetailKey(ChargingStationOnsiteAmenities);
    assert s == "charging_station_onsite_amenities";
    assert |s| == 33;
    assert s[32] == 's';
  }

  lemma {:induction false} ParseDisplayOfPreferredSupermarketChain()
    ensures ParseDetail(DetailDisplay(PreferredSupermarketChain)) == Some(PreferredSupermarketChain)
  {
    var s := DetailDisplay(PreferredSupermarketChain);
    assert s == "Preferred Supermarket Chains";
    assert |s| == 28;
    assert s[27] == 's';
  }

  lemma {:induction false} ParseKeyOfPreferredSupermarketChain()
    ensures ParseDetail(DetailKey(PreferredSupermarketChain)) == Some(PreferredSupermarketChain)
  {
    var s := DetailKey(PreferredSupermarketChain);
    assert s == "preferred_supermarket_chain";
    assert |s| == 27;
    assert s[26] == 'n';
  }

  lemma {:induction false} ParseDisplayOfPreferenceForLocalMarketsFarmsOrSupermarket()
    ensures ParseDetail(DetailDisplay(PreferenceForLocalMarketsFarmsOrSupermarket)) == Some(PreferenceForLocalMarketsFarmsOrSupermarket)
  {
    var s := DetailDisplay(PreferenceForLocalMarketsFarmsOrSupermarket);
    assert s == "Preference for Local Markets/Farms or Supermarket";
    assert |s| == 49;
    assert s[48] == 't';
  }

  lemma {:induction false} ParseKeyOfPreferenceForLocalMarketsFarmsOrSupermarket()
    ensures ParseDetail(DetailKey(PreferenceForLocalMarketsFarmsOrSupermarket)) == Some(PreferenceForLocalMarketsFarmsOrSupermarket)
  {
    var s := DetailKey(PreferenceForLocalMarketsFarmsOrSupermarket);
    assert s == "preference_for_local_markets_farms_or_supermarket";
    assert |s| == 49;
    assert s[48] == 't';
  }

  lemma {:induction false} ParseDisplayOfAvoidanceOfSpecificRoadTypes()
    ensures ParseDetail(DetailDisplay(AvoidanceOfSpecificRoadTypes)) == Some(AvoidanceOfSpecificRoadTypes)
  {
    var s := DetailDisplay(AvoidanceOfSpecificRoadTypes);
    assert s == "Avoidance of Specific Road Types";
    assert |s| == 32;
    assert s[31] == 's';
  }

  lemma {:induction false} ParseKeyOfAvoidanceOfSpecificRoadTypes()
    ensures ParseDetail(DetailKey(AvoidanceOfSpecificRoadTypes)) == Some(AvoidanceOfSpecificRoadTypes)
  {
    var s := DetailKey(AvoidanceOfSpecificRoadTypes);
    assert s == "avoidance_of_specific_road_types";
    assert |s| == 32;
    assert s[31] == 's';
  }

  lemma {:induction false} ParseDisplayOfPriorityForShortestTimeOrShortestDistance()
    ensures ParseDetail(DetailDisplay(PriorityForShortestTimeOrShortestDistance)) == Some(PriorityForShortestTimeOrShortestDistance)
  {
    var s := DetailDisplay(PriorityForShortestTimeOrShortestDistance);
    assert s == "Priority for Shortest Time or Shortest Distance";
    assert |s| == 47;
    assert s[46] == 'e';
  }

  lemma {:induction false} ParseKeyOfPriorityForShortestTimeOrShortestDistance()
    ensures ParseDetail(DetailKey(PriorityForShortestTimeOrShortestDistance)) == Some(PriorityForShortestTimeOrShortestDistance)
  {
    var s := DetailKey(PriorityForShortestTimeOrShortestDistance);
    assert s == "priority_for_shortest_time_or_shortest_distance";
    assert |s| == 47;
    assert s[46] == 'e';
  }

  lemma {:induction false} ParseDisplayOfToleranceForTraffic()
    ensures ParseDetail(DetailDisplay(ToleranceForTraffic)) == Some(ToleranceForTraffic)
  {
    var s := DetailDisplay(ToleranceForTraffic);
    assert s == "Tolerance for Traffic";
    assert |s| == 21;
    assert s[20] == 'c';
  }

  lemma {:induction false} ParseKeyOfToleranceForTraffic()
    ensures ParseDetail(DetailKey(ToleranceForTraffic)) == Some(ToleranceForTraffic)
  {
    var s := DetailKey(ToleranceForTraffic);
    assert s == "tolerance_for_traffic";
    assert |s| == 21;
    assert s[20] == 'c';
  }

  lemma {:induction false} ParseDisplayOfTrafficInformationSourcePreferences()
    ensures ParseDetail(DetailDisplay(TrafficInformationSourcePreferences)) == Some(TrafficInformationSourcePreferences)
  {
    var s := DetailDisplay(TrafficInformationSourcePreferences);
    assert s == "Traffic Information Source Preferences";
    assert |s| == 38;
    assert s[37] == 's';
  }

  lemma {:induction false} ParseKeyOfTrafficInformationSourcePreferences()
    ensures ParseDetail(DetailKey(TrafficInformationSourcePreferences)) == Some(TrafficInformationSourcePreferences)
  {
    var s := DetailKey(TrafficInformationSourcePreferences);
    assert s == "traffic_information_source_preferences";
    assert |s| == 38;
    assert s[37] == 's';
  }

  lemma {:induction false} ParseDisplayOfWillingnessToTakeLongerRouteToAvoidTraffic()
    ensures ParseDetail(DetailDisplay(WillingnessToTakeLongerRouteToAvoidTraffic)) == Some(WillingnessToTakeLongerRouteToAvoidTraffic)
  {
    var s := DetailDisplay(WillingnessToTakeLongerRouteToAvoidTraffic);
    assert s == "Willingness to Take Longer Route to Avoid Traffic";
    assert |s| == 49;
    assert s[48] == 'c';
  }

  lemma {:induction false} ParseKeyOfWillingnessToTakeLongerRouteToAvoidTraffic()
    ensures ParseDetail(DetailKey(WillingnessToTakeLongerRouteToAvoidTraffic)) == Some(WillingnessToTakeLongerRouteToAvoidTraffic)
  {
    var s := DetailKey(WillingnessToTakeLongerRouteToAvoidTraffic);
    assert s == "willingness_to_take_longer_route_to_avoid_traffic";
    assert |s| == 49;
    assert s[48] == 'c';
  }

  lemma {:induction false} ParseDisplayOfPreferredParkingType()
    ensures ParseDetail(DetailDisplay(PreferredParkingType)) == Some(PreferredParkingType)
  {
    var s := DetailDisplay(PreferredParkingType);
    assert s == "Preferred Parking Type";
    assert |s| == 22;
    assert s[21] == 'e';
  }

  lemma {:induction false} ParseKeyOfPreferredParkingType()
    ensures ParseDetail(DetailKey(PreferredParkingType)) == Some(PreferredParkingType)
  {
    var s := DetailKey(PreferredParkingType);
    assert s == "preferred_parking_type";
    assert |s| == 22;
    assert s[21] == 'e';
  }

  lemma {:induction false} ParseDisplayOfPriceSensitivityForPaidParking()
    ensures ParseDetail(DetailDisplay(PriceSensitivityForPaidParking)) == Some(PriceSensitivityForPaidParking)
  {
    var s := DetailDisplay(PriceSensitivityForPaidParking);
    assert s == "Price Sensitivity for Paid Parking";
    assert |s| == 34;
    assert s[33] == 'g';
  }

  lemma {:induction false} ParseKeyOfPriceSensitivityForPaidParking()
    ensures ParseDetail(DetailKey(PriceSensitivityForPaidParking)) == Some(PriceSensitivityForPaidParking)
  {
    var s := DetailKey(PriceSensitivityForPaidParking);
    assert s == "price_sensitivity_for_paid_parking";
    assert |s| == 34;
    assert s[33] == 'g';
  }

  lemma {:induction false} ParseDisplayOfDistanceWillingToWalkFromParkingToDestination()
    ensures ParseDetail(DetailDisplay(DistanceWillingToWalkFromParkingToDestination)) == Some(DistanceWillingToWalkFromParkingToDestination)
  {
    var s := DetailDisplay(DistanceWillingToWalkFromParkingToDestination);
    assert s == "Distance Willing to Walk from Parking to Destination";
    assert |s| == 52;
    assert s[51] == 'n';
  }

  lemma {:induction false} ParseKeyOfDistanceWillingToWalkFromParkingToDestination()
    ensures ParseDetail(DetailKey(DistanceWillingToWalkFromParkingToDestination)) == Some(DistanceWillingToWalkFromParkingToDestination)
  {
    var s := DetailKey(DistanceWillingToWalkFromParkingToDestination);
    assert s == "distance_willing_to_walk_from_parking_to_destination";
    assert |s| == 52;
    assert s[51] == 'n';
  }

  lemma {:induction false} ParseDisplayOfPreferenceForCoveredParking()
    ensures ParseDetail(DetailDisplay(PreferenceForCoveredParking)) == Some(PreferenceForCoveredParking)
  {
    var s := DetailDisplay(PreferenceForCoveredParking);
    assert s == "Preference for Covered Parking";
    assert |s| == 30;
    assert s[29] == 'g';
  }

  lemma {:induction false} ParseKeyOfPreferenceForCoveredParking()
    ensures ParseDetail(DetailKey(PreferenceForCoveredParking)) == Some(PreferenceForCoveredParking)
  {
    var s := DetailKey(PreferenceForCoveredParking);
    assert s == "preference_for_covered_parking";
    assert |s| == 30;
    assert s[29] == 'g';
  }

  lemma {:induction false} ParseDisplayOfNeedForHandicappedAccessibleParking()
    ensures ParseDetail(DetailDisplay(NeedForHandicappedAccessibleParking)) == Some(NeedForHandicappedAccessibleParking)
  {
    var s := DetailDisplay(NeedForHandicappedAccessibleParking);
    assert s == "Need for Handicapped Accessible Parking";
    assert |s| == 39;
    assert s[38] == 'g';
  }

  lemma {:induction false} ParseKeyOfNeedForHandicappedAccessibleParking()
    ensures ParseDetail(DetailKey(NeedForHandicappedAccessibleParking)) == Some(NeedForHandicappedAccessibleParking)
  {
    var s := DetailKey(NeedForHandicappedAccessibleParking);
    assert s == "need_for_handicapped_accessible_parking";
    assert |s| == 39;
    assert s[38] == 'g';
  }

  lemma {:induction false} ParseDisplayOfPreferenceForParkingWithSecurity()
    ensures ParseDetail(DetailDisplay(PreferenceForParkingWithSecurity)) == Some(PreferenceForParkingWithSecurity)
  {
    var s := DetailDisplay(PreferenceForParkingWithSecurity);
    assert s == "Preference for Parking with Security";
    assert |s| == 36;
    assert s[35] == 'y';
  }

  lemma {:induction false} ParseKeyOfPreferenceForParkingWithSecurity()
    ensures ParseDetail(DetailKey(PreferenceForParkingWithSecurity)) == Some(PreferenceForParkingWithSecurity)
  {
    var s := DetailKey(PreferenceForParkingWithSecurity);
    assert s == "preference_for_parking_with_security";
    assert |s| == 36;
    assert s[35] == 'y';
  }

  lemma {:induction false} ParseDisplayOfPreferredTemperature()
    ensures ParseDetail(DetailDisplay(PreferredTemperature)) == Some(PreferredTemperature)
  {
    var s := DetailDisplay(PreferredTemperature);
    assert s == "Preferred Temperature";
    assert |s| == 21;
    assert s[20] == 'e';
  }

  lemma {:induction false} ParseKeyOfPreferredTemperature()
    ensures ParseDetail(DetailKey(PreferredTemperature)) == Some(PreferredTemperature)
  {
    var s := DetailKey(PreferredTemperature);
    assert s == "preferred_temperature";
    assert |s| == 21;
    assert s[20] == 'e';
  }

  lemma {:induction false} ParseDisplayOfFanSpeedPreferences()
    ensures ParseDetail(DetailDisplay(FanSpeedPreferences)) == Some(FanSpeedPreferences)
  {
    var s := DetailDisplay(FanSpeedPreferences);
    assert s == "Fan Speed Preferences";
    assert |s| == 21;
    assert s[20] == 's';
  }

  lemma {:induction false} ParseKeyOfFanSpeedPreferences()
    ensures ParseDetail(DetailKey(FanSpeedPreferences)) == Some(FanSpeedPreferences)
  {
    var s := DetailKey(FanSpeedPreferences);
    assert s == "fan_speed_preferences";
    assert |s| == 21;
    assert s[20] == 's';
  }

  lemma {:induction false} ParseDisplayOfAirflowDirectionPreferences()
    ensures ParseDetail(DetailDisplay(AirflowDirectionPreferences)) == Some(AirflowDirectionPreferences)
  {
    var s := DetailDisplay(AirflowDirectionPreferences);
    assert s == "Airflow Direction Preferences";
    assert |s| == 29;
    assert s[28] == 's';
  }

  lemma {:induction false} ParseKeyOfAirflowDirectionPreferences()
    ensures ParseDetail(DetailKey(AirflowDirectionPreferences)) == Some(AirflowDirectionPreferences)
  {
    var s := DetailKey(AirflowDirectionPreferences);
    assert s == "airflow_direction_preferences";
    assert |s| == 29;
    assert s[28] == 's';
  }

  lemma {:induction false} ParseDisplayOfSeatHeatingPreferences()
    ensures ParseDetail(DetailDisplay(SeatHeatingPreferences)) == Some(SeatHeatingPreferences)
  {
    var s := DetailDisplay(SeatHeatingPreferences);
    assert s == "Seat Heating Preferences";
    assert |s| == 24;
    assert s[23] == 's';
  }

  lemma {:induction false} ParseKeyOfSeatHeatingPreferences()
    ensures ParseDetail(DetailKey(SeatHeatingPreferences)) == Some(SeatHeatingPreferences)
  {
    var s := DetailKey(SeatHeatingPreferences);
    assert s == "seat_heating_preferences";
    assert |s| == 24;
    assert s[23] == 's';
  }

  lemma {:induction false} ParseDisplayOfInteriorLightingBrightnessPreferences()
    ensures ParseDetail(DetailDisplay(InteriorLightingBrightnessPreferences)) == Some(InteriorLightingBrightnessPreferences)
  {
    var s := DetailDisplay(InteriorLightingBrightnessPreferences);
    assert s == "Interior Lighting Brightness Preferences";
    assert |s| == 40;
    assert s[39] == 's';
  }

  lemma {:induction false} ParseKeyOfInteriorLightingBrightnessPreferences()
    ensures ParseDetail(DetailKey(InteriorLightingBrightnessPreferences)) == Some(InteriorLightingBrightnessPreferences)
  {
    var s := DetailKey(InteriorLightingBrightnessPreferences);
    assert s == "interior_lighting_brightness_preferences";
    assert |s| == 40;
    assert s[39] == 's';
  }

  lemma {:induction false} ParseDisplayOfInteriorLightingAmbientPreferences()
    ensures ParseDetail(DetailDisplay(InteriorLightingAmbientPreferences)) == Some(InteriorLightingAmbientPreferences)
  {
    var s := DetailDisplay(InteriorLightingAmbientPreferences);
    assert s == "Interior Lighting Ambient Preferences";
    assert |s| == 37;
    assert s[36] == 's';
  }

  lemma {:induction false} ParseKeyOfInteriorLightingAmbientPreferences()
    ensures ParseDetail(DetailKey(InteriorLightingAmbientPreferences)) == Some(InteriorLightingAmbientPreferences)
  {
    var s := DetailKey(InteriorLightingAmbientPreferences);
    assert s == "interior_lighting_ambient_preferences";
    assert |s| == 37;
    assert s[36] == 's';
  }

  lemma {:induction false} ParseDisplayOfInteriorLightingColorPreferences()
    ensures ParseDetail(DetailDisplay(InteriorLightingColorPreferences)) == Some(InteriorLightingColorPreferences)
  {
    var s := DetailDisplay(InteriorLightingColorPreferences);
    assert s == "Interior Lightning Color Preferences";
    assert |s| == 36;
    assert s[35] == 's';
  }

  lemma {:induction false} ParseKeyOfInteriorLightingColorPreferences()
    ensures ParseDetail(DetailKey(InteriorLightingColorPreferences)) == Some(InteriorLightingColorPreferences)
  {
    var s := DetailKey(InteriorLightingColorPreferences);
    assert s == "interior_lighting_color_preferences";
    assert |s| == 35;
    assert s[34] == 's';
  }

  lemma {:induction false} ParseDisplayOfFavoriteGenres()
    ensures ParseDetail(DetailDisplay(FavoriteGenres)) == Some(FavoriteGenres)
  {
    var s := DetailDisplay(FavoriteGenres);
    assert s == "Favorite Genres";
    assert |s| == 15;
    assert s[14] == 's';
  }

  lemma {:induction false} ParseKeyOfFavoriteGenres()
    ensures ParseDetail(DetailKey(FavoriteGenres)) == Some(FavoriteGenres)
  {
    var s := DetailKey(FavoriteGenres);
    assert s == "favorite_genres";
    assert |s| == 15;
    assert s[14] == 's';
  }

  lemma {:induction false} ParseDisplayOfFavoriteArtistsOrBands()
    ensures ParseDetail(DetailDisplay(FavoriteArtistsOrBands)) == Some(FavoriteArtistsOrBands)
  {
    var s := DetailDisplay(FavoriteArtistsOrBands);
    assert s == "Favorite Artists/Bands";
    assert |s| == 22;
    assert s[21] == 's';
  }

  lemma {:induction false} ParseKeyOfFavoriteArtistsOrBands()
    ensures ParseDetail(DetailKey(FavoriteArtistsOrBands)) == Some(FavoriteArtistsOrBands)
  {
    var s := DetailKey(FavoriteArtistsOrBands);
    assert s == "favorite_artists_or_bands";
    assert |s| == 25;
    assert s[24] == 's';
  }

  lemma {:induction false} ParseDisplayOfFavoriteSongs()
    ensures ParseDetail(DetailDisplay(FavoriteSongs)) == Some(FavoriteSongs)
  {
    var s := DetailDisplay(FavoriteSongs);
    assert s == "Favorite Songs";
    assert |s| == 14;
    assert s[13] == 's';
  }

  lemma {:induction false} ParseKeyOfFavoriteSongs()
    ensures ParseDetail(DetailKey(FavoriteSongs)) == Some(FavoriteSongs)
  {
    var s := DetailKey(FavoriteSongs);
    assert s == "favorite_songs";
    assert |s| == 14;
    assert s[13] == 's';
  }

  lemma {:induction false} ParseDisplayOfPreferredMusicStreamingService()
    ensures ParseDetail(DetailDisplay(PreferredMusicStreamingService)) == Some(PreferredMusicStreamingService)
  {
    var s := DetailDisplay(PreferredMusicStreamingService);
    assert s == "Preferred Music Streaming Service";
    assert |s| == 33;
    assert s[32] == 'e';
  }

  lemma {:induction false} ParseKeyOfPreferredMusicStreamingService()
    ensures ParseDetail(DetailKey(PreferredMusicStreamingService)) == Some(PreferredMusicStreamingService)
  {
    var s := DetailKey(PreferredMusicStreamingService);
    assert s == "preferred_music_streaming_service";
    assert |s| == 33;
    assert s[32] == 'e';
  }

  lemma {:induction false} ParseDisplayOfPreferredRadioStation()
    ensures ParseDetail(DetailDisplay(PreferredRadioStation)) == Some(PreferredRadioStation)
  {
    var s := DetailDisplay(PreferredRadioStation);
    assert s == "Preferred Radio Station";
    assert |s| == 23;
    assert s[22] == 'n';
  }

  lemma {:induction false} ParseKeyOfPreferredRadioStation()
    ensures ParseDetail(DetailKey(PreferredRadioStation)) == Some(PreferredRadioStation)
  {
    var s := DetailKey(PreferredRadioStation);
    assert s == "preferred_radio_station";
    assert |s| == 23;
    assert s[22] == 'n';
  }

  lemma {:induction false} ParseDisplayOfFavoritePodcastGenres()
    ensures ParseDetail(DetailDisplay(FavoritePodcastGenres)) == Some(FavoritePodcastGenres)
  {
    var s := DetailDisplay(FavoritePodcastGenres);
    assert s == "Favorite Podcast Genres";
    assert |s| == 23;
    assert s[22] == 's';
  }

  lemma {:induction false} ParseKeyOfFavoritePodcastGenres()
    ensures ParseDetail(DetailKey(FavoritePodcastGenres)) == Some(FavoritePodcastGenres)
  {
    var s := DetailKey(FavoritePodcastGenres);
    assert s == "favorite_podcast_genres";
    assert |s| == 23;
    assert s[22] == 's';
  }

  lemma {:induction false} ParseDisplayOfFavoritePodcastShows()
    ensures ParseDetail(DetailDisplay(FavoritePodcastShows)) == Some(FavoritePodcastShows)
  {
    var s := DetailDisplay(FavoritePodcastShows);
    assert s == "Favorite Podcast Shows";
    assert |s| == 22;
    assert s[21] == 's';
  }

  lemma {:induction false} ParseKeyOfFavoritePodcastShows()
    ensures ParseDetail(DetailKey(FavoritePodcastShows)) == Some(FavoritePodcastShows)
  {
    var s := DetailKey(FavoritePodcastShows);
    assert s == "favorite_podcast_shows";
    assert |s| == 22;
    assert s[21] == 's';
  }

  lemma {:induction false} ParseDisplayOfGeneralNewsSource()
    ensures ParseDetail(DetailDisplay(GeneralNewsSource)) == Some(GeneralNewsSource)
  {
    var s := DetailDisplay(GeneralNewsSource);
    assert s == "General News Source";
    assert |s| == 19;
    assert s[18] == 'e';
  }

  lemma {:induction false} ParseKeyOfGeneralNewsSource()
    ensures ParseDetail(DetailKey(GeneralNewsSource)) == Some(GeneralNewsSource)
  {
    var s := DetailKey(GeneralNewsSource);
    assert s == "general_news_source";
    assert |s| == 19;
    assert s[18] == 'e';
  }

  /** Every detail display name and key finds its own detail category. */
  lemma {:induction false} ParseDetailNames(d: Detail)
    ensures ParseDetail(DetailDisplay(d)) == Some(d)
    ensures ParseDetail(DetailKey(d)) == Some(d)
  {
    match d
      case FavouriteCuisine => ParseDisplayOfFavouriteCuisine(); ParseKeyOfFavouriteCuisine();
      case PreferredRestaurantType => ParseDisplayOfPreferredRestaurantType(); ParseKeyOfPreferredRestaurantType();
      case FastFoodPreference => ParseDisplayOfFastFoodPreference(); ParseKeyOfFastFoodPreference();
      case DesiredPriceRange => ParseDisplayOfDesiredPriceRange(); ParseKeyOfDesiredPriceRange();
      case DietaryPreference => ParseDisplayOfDietaryPreference(); ParseKeyOfDietaryPreference();
      case PreferredPaymentMethod => ParseDisplayOfPreferredPaymentMethod(); ParseKeyOfPreferredPaymentMethod();
      case PreferredGasStation => ParseDisplayOfPreferredGasStation(); ParseKeyOfPreferredGasStation();
      case WillingnessToPayExtraForGreenFuel => ParseDisplayOfWillingnessToPayExtraForGreenFuel(); ParseKeyOfWillingnessToPayExtraForGreenFuel();
      case PriceSensitivityForFuel => ParseDisplayOfPriceSensitivityForFuel(); ParseKeyOfPriceSensitivityForFuel();
      case PreferredChargingNetwork => ParseDisplayOfPreferredChargingNetwork(); ParseKeyOfPreferredChargingNetwork();
      case PreferredTypeOfChargingWhileTraveling => ParseDisplayOfPreferredTypeOfChargingWhileTraveling(); ParseKeyOfPreferredTypeOfChargingWhileTraveling();
      case PreferredTypeOfChargingAtEverydayPoints => ParseDisplayOfPreferredTypeOfChargingAtEverydayPoints(); ParseKeyOfPreferredTypeOfChargingAtEverydayPoints();
      case ChargingStationOnsiteAmenities => ParseDisplayOfChargingStationOnsiteAmenities(); ParseKeyOfChargingStationOnsiteAmenities();
      case PreferredSupermarketChain => ParseDisplayOfPreferredSupermarketChain(); ParseKeyOfPreferredSupermarketChain();
      case PreferenceForLocalMarketsFarmsOrSupermarket => ParseDisplayOfPreferenceForLocalMarketsFarmsOrSupermarket(); ParseKeyOfPreferenceForLocalMarketsFarmsOrSupermarket();
      case AvoidanceOfSpecificRoadTypes => ParseDisplayOfAvoidanceOfSpecificRoadTypes(); ParseKeyOfAvoidanceOfSpecificRoadTypes();
      case PriorityForShortestTimeOrShortestDistance => ParseDisplayOfPriorityForShortestTimeOrShortestDistance(); ParseKeyOfPriorityForShortestTimeOrShortestDistance();
      case ToleranceForTraffic => ParseDisplayOfToleranceForTraffic(); ParseKeyOfToleranceForTraffic();
      case TrafficInformationSourcePreferences => ParseDisplayOfTrafficInformationSourcePreferences(); ParseKeyOfTrafficInformationSourcePreferences();
      case WillingnessToTakeLongerRouteToAvoidTraffic => ParseDisplayOfWillingnessToTakeLongerRouteToAvoidTraffic(); ParseKeyOfWillingnessToTakeLongerRouteToAvoidTraffic();
      case PreferredParkingType => ParseDisplayOfPreferredParkingType(); ParseKeyOfPreferredParkingType();
      case PriceSensitivityForPaidParking => ParseDisplayOfPriceSensitivityForPaidParking(); ParseKeyOfPriceSensitivityForPaidParking();
      case DistanceWillingToWalkFromParkingToDestination => ParseDisplayOfDistanceWillingToWalkFromParkingToDestination(); ParseKeyOfDistanceWillingToWalkFromParkingToDestination();
      case PreferenceForCoveredParking => ParseDisplayOfPreferenceForCoveredParking(); ParseKeyOfPreferenceForCoveredParking();
      case NeedForHandicappedAccessibleParking => ParseDisplayOfNeedForHandicappedAccessibleParking(); ParseKeyOfNeedForHandicappedAccessibleParking();
      case PreferenceForParkingWithSecurity => ParseDisplayOfPreferenceForParkingWithSecurity(); ParseKeyOfPreferenceForParkingWithSecurity();
      case PreferredTemperature => ParseDisplayOfPreferredTemperature(); ParseKeyOfPreferredTemperature();
      case FanSpeedPreferences => ParseDisplayOfFanSpeedPreferences(); ParseKeyOfFanSpeedPreferences();
      case AirflowDirectionPreferences => ParseDisplayOfAirflowDirectionPreferences(); ParseKeyOfAirflowDirectionPreferences();
      case SeatHeatingPreferences => ParseDisplayOfSeatHeatingPreferences(); ParseKeyOfSeatHeatingPreferences();
      case InteriorLightingBrightnessPreferences => ParseDisplayOfInteriorLightingBrightnessPreferences(); ParseKeyOfInteriorLightingBrightnessPreferences();
      case InteriorLightingAmbientPreferences => ParseDisplayOfInteriorLightingAmbientPreferences(); ParseKeyOfInteriorLightingAmbientPreferences();
      case InteriorLightingColorPreferences => ParseDisplayOfInteriorLightingColorPreferences(); ParseKeyOfInteriorLightingColorPreferences();
      case FavoriteGenres => ParseDisplayOfFavoriteGenres(); ParseKeyOfFavoriteGenres();
      case FavoriteArtistsOrBands => ParseDisplayOfFavoriteArtistsOrBands(); ParseKeyOfFavoriteArtistsOrBands();
      case FavoriteSongs => ParseDisplayOfFavoriteSongs(); ParseKeyOfFavoriteSongs();
      case PreferredMusicStreamingService => ParseDisplayOfPreferredMusicStreamingService(); ParseKeyOfPreferredMusicStreamingService();
      case PreferredRadioStation => ParseDisplayOfPreferredRadioStation(); ParseKeyOfPreferredRadioStation();
      case FavoritePodcastGenres => ParseDisplayOfFavoritePodcastGenres(); ParseKeyOfFavoritePodcastGenres();
      case FavoritePodcastShows => ParseDisplayOfFavoritePodcastShows(); ParseKeyOfFavoritePodcastShows();
      case GeneralNewsSource => ParseDisplayOfGeneralNewsSource(); ParseKeyOfGeneralNewsSource();
  }

  /** The tree is consistent: a subcategory is listed under exactly its parent, a detail under exactly its parent. */
  lemma {:induction false} SubTreeConsistent(m: Main, s: Sub)
    ensures s in SubsOf(m) <==> MainOf(s) == m
    ensures s in AllSubs()
  {
  }

  lemma {:induction false} DetailTreeConsistent(s: Sub, d: Detail)
    ensures d in DetailsOf(s) <==> SubOf(d) == s
  {
    DetailUnderParent(d);
    DetailsHaveParent(s);
  }

  lemma {:induction false} DetailUnderParent(d: Detail)
    ensures d in DetailsOf(SubOf(d))
  {
    match d
    case _ =>
  }

  lemma {:induction false} DetailsHaveParent(s: Sub)
    ensures forall d :: d in DetailsOf(s) ==> SubOf(d) == s
  {
    forall i | 0 <= i < |DetailsOf(s)|
      ensures SubOf(DetailsOf(s)[i]) == s
    {
      match s
      case _ =>
    }
  }

  /** The tree has 4 main categories, 11 subcategories and 41 detail categories, each listed once. */
  lemma {:induction false} TreeSizes()
    ensures |AllMains()| == 4 && |AllSubs()| == 11
    ensures |SubsOf(PointsOfInterest)| + |SubsOf(NavigationAndRouting)| + |SubsOf(VehicleSettingsAndComfort)|
            + |SubsOf(EntertainmentAndMedia)| == 11
    ensures (var c := seq(11, i requires 0 <= i < 11 => |DetailsOf(AllSubs()[i])|); 
             c[0] + c[1] + c[2] + c[3] + c[4] + c[5] + c[6] + c[7] + c[8] + c[9] + c[10] == 41)
  {
  }
}
