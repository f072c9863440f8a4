/** The nested restaurant document that ingestion builds from one CSV row: a
    root record and seven sub-records, each of which repeats the root's
    `restaurant_link`. Nullable Python values (`None`) are `Option`s; Python
    floats are `real`s. */
module Documents {
  import opened Results

  /** A parsed `original_open_hours` cell: weekday name to opening intervals. */
  type OpenHours = map<string, seq<string>>

  datatype Position = Position(
    restaurantLink: string,
    continent: string,
    country: string,
    region: string,
    province: string,
    city: string,
    address: string,
    latitude: real,
    longitude: real)

  datatype Popularity = Popularity(
    restaurantLink: string,
    popularityDetailed: string,
    popularityGeneric: string,
    topTags: seq<string>)

  datatype Price = Price(
    restaurantLink: string,
    priceLevel: string,
    minPrice: Option<int>,
    maxPrice: Option<int>)

  datatype FoodInfo = FoodInfo(
    restaurantLink: string,
    meals: seq<string>,
    cuisines: seq<string>,
    specialDiets: string,
    vegetarianFriendly: string,
    veganOptions: string,
    glutenFree: string)

  datatype Schedule = Schedule(
    restaurantLink: string,
    originalOpenHours: OpenHours,
    openDaysPerWeek: Option<real>,
    openHoursPerWeek: Option<real>,
    workingShiftsPerWeek: Option<real>)

  datatype Review = Review(
    restaurantLink: string,
    totalReviewsCount: real,
    defaultLanguage: string,
    reviewsCountInDefaultLanguage: real)

  /** The "Rating" sub-record: the average, the five category counters and the
      four dimension scores. */
  datatype RatingRecord = RatingRecord(
    restaurantLink: string,
    avgRating: real,
    excellent: real,
    veryGood: real,
    average: real,
    poor: real,
    terrible: real,
    food: real,
    service: real,
    value: real,
    atmosphere: real)

  /** The root document. `awards` and `keywords` are kept as the raw cell text. */
  datatype Restaurant = Restaurant(
    restaurantLink: string,
    restaurantName: string,
    claimed: string,
    awards: string,
    keywords: string,
    features: seq<string>,
    position: Position,
    popularity: Popularity,
    price: Price,
    foodInfo: FoodInfo,
    schedule: Schedule,
    review: Review,
    rating: RatingRecord)

  /** Every sub-record carries the root's link. */
  predicate LinksAgree(d: Restaurant) {
    && d.position.restaurantLink == d.restaurantLink
    && d.popularity.restaurantLink == d.restaurantLink
    && d.price.restaurantLink == d.restaurantLink
    && d.foodInfo.restaurantLink == d.restaurantLink
    && d.schedule.restaurantLink == d.restaurantLink
    && d.review.restaurantLink == d.restaurantLink
    && d.rating.restaurantLink == d.restaurantLink
  }
}
