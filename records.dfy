/** The two persisted records: a subscriber (models/User.js) and a stored
    listing (models/Ad.js). Times are milliseconds since the epoch. */
module Records {
  import opened Text

  /** `plan`: one of "bronze", "silver", "gold". */
  datatype Plan = Bronze | Silver | Gold

  datatype Filters = Filters(minPrice: int, maxPrice: int, query: string, cityId: int, negativeWords: seq<string>)

  datatype Subscriber = Subscriber(
    chatId: int,
    isActive: bool,
    firstName: string,
    filters: Filters,
    subscriptionExpiry: int,
    plan: Plan,
    state: string)

  /** A day in milliseconds; calendar days are taken to be this long. */
  const Day: int := 86_400_000

  const DefaultMaxPrice: int := 99_999_999_999
  const DefaultCityId: int := 6

  /** A subscriber as the schema's defaults create it at time `now`. */
  function NewSubscriber(chatId: int, now: int): (u: Subscriber)
    ensures u.chatId == chatId && u.isActive && u.plan == Bronze && u.subscriptionExpiry == now
    ensures u.filters == Filters(0, DefaultMaxPrice, "", DefaultCityId, [])
  {
    Subscriber(chatId, true, "کاربر", Filters(0, DefaultMaxPrice, "", DefaultCityId, []), now, Bronze, "IDLE")
  }

  /** A field value as the database compares it: a number never equals a string. */
  datatype BsonValue = BsonNumber(n: int) | BsonString(s: string)

  /** The fields of a stored listing the core reads back. */
  datatype StoredAd = StoredAd(
    token: string,
    title: string,
    brandModel: string,
    year: int,
    price: int,
    city: string,
    cityId: int,
    createdAt: int)

  /** What `Ad.create` is given: `price` may arrive as a string. */
  datatype AdInput = AdInput(
    token: string,
    title: string,
    brandModel: string,
    year: int,
    price: BsonValue,
    city: string,
    cityId: int)

  /** How a Number field takes a value: numbers as they are, a numeral string
      as its value, any other string fails to cast. */
  function CastNumber(v: BsonValue): (r: Option<int>)
    ensures v.BsonNumber? ==> r == Some(v.n)
    ensures v.BsonString? && !AllAsciiDigits(v.s) ==> r.None?
  {
    match v
    case BsonNumber(n) => Some(n)
    case BsonString(s) => if s != "" && AllAsciiDigits(s) then Some(DecimalValue(s)) else None
  }

  datatype InsertError = DuplicateKey | ValidationError

  datatype InsertResult = Inserted(ad: StoredAd) | Rejected(error: InsertError)

  /** Schema validation of `Ad.create`: the required strings must be
      non-empty and the price must cast to a number (models/Ad.js:7-52). */
  function Validate(input: AdInput, now: int): (r: InsertResult)
    ensures r.Inserted? <==>
              input.token != "" && input.title != "" && input.brandModel != "" && input.city != ""
              && CastNumber(input.price).Some?
    ensures r.Inserted? ==> r.ad.token == input.token && r.ad.createdAt == now && r.ad.year == input.year
                            && CastNumber(input.price) == Some(r.ad.price)
    ensures r.Rejected? ==> r.error == ValidationError
  {
    var price := CastNumber(input.price);
    if input.token == "" || input.title == "" || input.brandModel == "" || input.city == "" || price.None? then
      Rejected(ValidationError)
    else
      Inserted(StoredAd(input.token, input.title, input.brandModel, input.year, price.value, input.city, input.cityId, now))
  }
}
