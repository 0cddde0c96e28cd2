/**
 * The in-memory store: four insertion-ordered tables. Writers take a fresh id
 * (standing for `randomUUID()`) and the current time (standing for
 * `new Date()`) from their caller, build the row and `set` it; readers filter,
 * sort newest first, or take the first match.
 */
module Storage {

  import opened Wrappers
  import opened Collections
  import opened OrderedMaps
  import opened Schema

  /** `s || null` on an optional string column. */
  function NullIfEmpty(s: Option<string>): (r: Option<string>)
    ensures r.Some? <==> s.Some? && s.value != ""
    ensures r.Some? ==> r == s
  {
    if s.Some? && s.value != "" then s else None
  }

  function DetectionId(d: DetectionHistory): string { d.id }
  function DetectionCreatedAt(d: DetectionHistory): int { d.createdAt }
  function PriceUpdatedAt(p: MarketPrice): int { p.updatedAt }
  function WeatherUpdatedAt(w: WeatherData): int { w.updatedAt }

  /** `user => user.username === username`. */
  function UsernameIs(username: string): User -> bool {
    (u: User) => u.username == username
  }

  /** `detection => detection.userId === userId`. */
  function OwnedBy(userId: string): DetectionHistory -> bool {
    (d: DetectionHistory) => d.userId == Some(userId)
  }

  /** `price => price.district === district`. */
  function PriceIn(district: string): MarketPrice -> bool {
    (p: MarketPrice) => p.district == district
  }

  /** `weather => weather.district === district`. */
  function WeatherIn(district: string): WeatherData -> bool {
    (w: WeatherData) => w.district == district
  }

  /** The row `saveDetection` stores for an insert, an id and a save time. */
  function DetectionRow(ins: InsertDetection, id: string, now: int): (d: DetectionHistory)
    ensures d.id == id && d.createdAt == now && d.userId == NullIfEmpty(ins.userId)
    ensures d.(id := "", createdAt := 0, userId := ins.userId) ==
            DetectionHistory("", ins.userId, ins.imagePath, ins.disease, ins.malayalam, ins.confidence,
                             ins.severity, ins.treatment, ins.malayalamTreatment, ins.urgency, 0)
  {
    DetectionHistory(id, NullIfEmpty(ins.userId), ins.imagePath, ins.disease, ins.malayalam, ins.confidence,
                     ins.severity, ins.treatment, ins.malayalamTreatment, ins.urgency, now)
  }

  /** The row `saveMarketPrice` stores. */
  function PriceRow(ins: InsertMarketPrice, id: string, now: int): MarketPrice {
    MarketPrice(id, ins.cropName, ins.malayalam, ins.price, ins.unit, ins.market, ins.district, now)
  }

  /** The row `saveWeatherData` stores: empty advisories become `null`. */
  function WeatherRow(ins: InsertWeather, id: string, now: int): (w: WeatherData)
    ensures w.id == id && w.updatedAt == now
    ensures w.advisory == NullIfEmpty(ins.advisory) && w.malayalamAdvisory == NullIfEmpty(ins.malayalamAdvisory)
    ensures w.advisory.Some? <==> ins.advisory.Some? && ins.advisory.value != ""
    ensures w.malayalamAdvisory.Some? <==> ins.malayalamAdvisory.Some? && ins.malayalamAdvisory.value != ""
    ensures w.(id := "", updatedAt := 0, advisory := ins.advisory, malayalamAdvisory := ins.malayalamAdvisory) ==
            WeatherData("", ins.location, ins.district, ins.temperature, ins.humidity, ins.rainfall, ins.windSpeed,
                        ins.condition, ins.advisory, ins.malayalamAdvisory, 0)
  {
    WeatherData(id, ins.location, ins.district, ins.temperature, ins.humidity, ins.rainfall, ins.windSpeed,
                ins.condition, NullIfEmpty(ins.advisory), NullIfEmpty(ins.malayalamAdvisory), now)
  }

  /** The row `createUser` stores. */
  function UserRow(ins: InsertUser, id: string): User {
    User(id, ins.username, ins.password)
  }

  /** The rows that saving `ins[i]` under `ids[i]` in order produces. */
  function PriceRows(ins: seq<InsertMarketPrice>, ids: seq<string>, now: int): (rows: seq<MarketPrice>)
    requires |ins| == |ids|
    ensures |rows| == |ins|
  {
    seq(|ins|, i requires 0 <= i < |ins| => PriceRow(ins[i], ids[i], now))
  }

  lemma PriceRowsSnoc(ins: seq<InsertMarketPrice>, ids: seq<string>, n: nat, now: int)
    requires |ins| == |ids| && n < |ins|
    ensures PriceRows(ins[..n + 1], ids[..n + 1], now) == PriceRows(ins[..n], ids[..n], now) + [PriceRow(ins[n], ids[n], now)]
  {
  }

  /** The rows that saving `ins[i]` under `ids[i]` in order produces. */
  function WeatherRows(ins: seq<InsertWeather>, ids: seq<string>, now: int): (rows: seq<WeatherData>)
    requires |ins| == |ids|
    ensures |rows| == |ins|
  {
    seq(|ins|, i requires 0 <= i < |ins| => WeatherRow(ins[i], ids[i], now))
  }

  lemma WeatherRowsSnoc(ins: seq<InsertWeather>, ids: seq<string>, n: nat, now: int)
    requires |ins| == |ids| && n < |ins|
    ensures WeatherRows(ins[..n + 1], ids[..n + 1], now) == WeatherRows(ins[..n], ids[..n], now) + [WeatherRow(ins[n], ids[n], now)]
  {
  }

  const MockPrices: seq<InsertMarketPrice> := [
    InsertMarketPrice("Rice (Raw)", "അരി", 45.0, "kg", "Alappuzha Krishi Bhavan", "Alappuzha"),
    InsertMarketPrice("Coconut", "തേങ്ങ", 28.0, "piece", "Kochi Wholesale Market", "Ernakulam"),
    InsertMarketPrice("Black Pepper", "കുരുമുളക്", 580.0, "kg", "Idukki Spice Market", "Idukki"),
    InsertMarketPrice("Rubber Sheets", "റബ്ബർ ഷീറ്റ്", 165.0, "kg", "Kottayam Rubber Board", "Kottayam"),
    InsertMarketPrice("Cardamom", "ഏലക്ക", 1240.0, "kg", "Thekkady Spice Auction", "Idukki"),
    InsertMarketPrice("Ginger", "ഇഞ്ചി", 85.0, "kg", "Wayanad Market", "Wayanad")
  ]

  const MockWeather: seq<InsertWeather> := [
    InsertWeather("Kuttanad, Alappuzha", "Alappuzha", 28.0, 85.0, 15.0, 12.0, "Monsoon Alert",
      Some("Heavy rainfall expected. Delay irrigation for rice paddies. Check drainage systems."),
      Some("കനത്ത മഴ പ്രതീക്ഷിക്കുന്നു. നെൽവയലുകളിൽ ജലസേചനം നിർത്തുക.")),
    InsertWeather("Idukki Hills", "Idukki", 22.0, 90.0, 25.0, 8.0, "Heavy Rain",
      Some("Perfect conditions for spice cultivation. Monitor for fungal diseases."),
      Some("സുഗന്ധവ്യഞ്ജന കൃഷിക്ക് അനുകൂല സാഹചര്യം. കുമിൾ രോഗങ്ങൾക്ക് ജാഗ്രത."))
  ]

  class MemStorage {
    var users: OrderedMap<User>
    var detections: OrderedMap<DetectionHistory>
    var marketPrices: OrderedMap<MarketPrice>
    var weatherData: OrderedMap<WeatherData>

    /** Every table is a well-formed map whose rows carry the id they are stored under. */
    ghost predicate Valid()
      reads this
    {
      && users.Valid() && detections.Valid() && marketPrices.Valid() && weatherData.Valid()
      && (forall k :: k in users.entries ==> users.entries[k].id == k)
      && (forall k :: k in detections.entries ==> detections.entries[k].id == k)
      && (forall k :: k in marketPrices.entries ==> marketPrices.entries[k].id == k)
      && (forall k :: k in weatherData.entries ==> weatherData.entries[k].id == k)
    }

    /** Builds the empty tables and loads the mock prices and weather, each under the next id of its list. */
    constructor (priceIds: seq<string>, weatherIds: seq<string>, now: int)
      requires |priceIds| == |MockPrices| && Distinct(priceIds)
      requires |weatherIds| == |MockWeather| && Distinct(weatherIds)
      ensures Valid()
      ensures users.Values() == [] && detections.Values() == []
      ensures marketPrices.Values() == PriceRows(MockPrices, priceIds, now)
      ensures weatherData.Values() == WeatherRows(MockWeather, weatherIds, now)
      ensures |marketPrices.Values()| == 6 && |weatherData.Values()| == 2
    {
      users := Empty();
      detections := Empty();
      marketPrices := Empty();
      weatherData := Empty();
      new;
      InitializeMockData(priceIds, weatherIds, now);
    }

    /** Saves each mock price, then each mock weather entry, in list order. */
    method InitializeMockData(priceIds: seq<string>, weatherIds: seq<string>, now: int)
      requires Valid()
      requires marketPrices.Values() == [] && weatherData.Values() == []
      requires |priceIds| == |MockPrices| && Distinct(priceIds)
      requires |weatherIds| == |MockWeather| && Distinct(weatherIds)
      modifies this
      ensures Valid()
      ensures users == old(users) && detections == old(detections)
      ensures marketPrices.Values() == PriceRows(MockPrices, priceIds, now)
      ensures weatherData.Values() == WeatherRows(MockWeather, weatherIds, now)
    {
      SavePrices(MockPrices, priceIds, now);
      SaveWeatherList(MockWeather, weatherIds, now);
    }

    /** `prices.forEach(price => this.saveMarketPrice(price))` on an empty price table, with one fresh id per price. */
    method SavePrices(prices: seq<InsertMarketPrice>, ids: seq<string>, now: int)
      requires Valid() && marketPrices.Values() == []
      requires |ids| == |prices| && Distinct(ids)
      modifies this
      ensures Valid()
      ensures users == old(users) && detections == old(detections) && weatherData == old(weatherData)
      ensures marketPrices.Values() == PriceRows(prices, ids, now)
    {
      for n := 0 to |prices|
        invariant Valid()
        invariant users == old(users) && detections == old(detections) && weatherData == old(weatherData)
        invariant marketPrices.keys == ids[..n]
        invariant marketPrices.Values() == PriceRows(prices[..n], ids[..n], now)
      {
        assert ids[n] !in ids[..n];
        var p := SaveMarketPrice(prices[n], ids[n], now);
        PriceRowsSnoc(prices, ids, n, now);
        assert ids[..n + 1] == ids[..n] + [ids[n]];
      }
      assert prices[..|prices|] == prices && ids[..|ids|] == ids;
    }

    /** `weather.forEach(w => this.saveWeatherData(w))` on an empty weather table, with one fresh id per entry. */
    method SaveWeatherList(entries: seq<InsertWeather>, ids: seq<string>, now: int)
      requires Valid() && weatherData.Values() == []
      requires |ids| == |entries| && Distinct(ids)
      modifies this
      ensures Valid()
      ensures users == old(users) && detections == old(detections) && marketPrices == old(marketPrices)
      ensures weatherData.Values() == WeatherRows(entries, ids, now)
    {
      for n := 0 to |entries|
        invariant Valid()
        invariant users == old(users) && detections == old(detections) && marketPrices == old(marketPrices)
        invariant weatherData.keys == ids[..n]
        invariant weatherData.Values() == WeatherRows(entries[..n], ids[..n], now)
      {
        assert ids[n] !in ids[..n];
        var w := SaveWeatherData(entries[n], ids[n], now);
        WeatherRowsSnoc(entries, ids, n, now);
        assert ids[..n + 1] == ids[..n] + [ids[n]];
      }
      assert entries[..|entries|] == entries && ids[..|ids|] == ids;
    }

    // ---- Users ----

    /** `users.get(id)`. */
    function GetUser(id: string): (r: Option<User>)
      reads this
      requires Valid()
      ensures r.Some? <==> id in users.entries
      ensures r.Some? ==> r.value.id == id && r.value == users.entries[id]
    {
      users.Get(id)
    }

    /** The first-inserted user with this username, if any. */
    function GetUserByUsername(username: string): (r: Option<User>)
      reads this
      requires Valid()
      ensures r.None? <==> forall u :: u in users.Values() ==> u.username != username
      ensures r.Some? ==> r.value in users.Values() && r.value.username == username
      ensures r.Some? ==> exists i :: 0 <= i < |users.Values()| && users.Values()[i] == r.value &&
                                      forall j :: 0 <= j < i ==> users.Values()[j].username != username
    {
      Find(users.Values(), UsernameIs(username))
    }

    /** Stores a new user under `id`; a username already taken is not refused. */
    method CreateUser(ins: InsertUser, id: string) returns (u: User)
      requires Valid()
      modifies this
      ensures Valid()
      ensures u == UserRow(ins, id)
      ensures users == old(users).Set(id, u)
      ensures detections == old(detections) && marketPrices == old(marketPrices) && weatherData == old(weatherData)
      ensures GetUser(id) == Some(u)
      ensures id !in old(users.entries) ==> users.Values() == old(users.Values()) + [u]
      ensures forall i :: 0 <= i < |old(users.keys)| && old(users.keys)[i] == id ==>
                users.Values() == old(users.Values())[i := u]
      ensures id !in old(users.entries) && old(GetUserByUsername(ins.username)).Some? ==>
                GetUserByUsername(ins.username) == old(GetUserByUsername(ins.username))
    {
      u := UserRow(ins, id);
      if id !in users.entries {
        SetFreshAppends(users, id, u);
      }
      SetExistingReplaces(users, id, u);
      users := users.Set(id, u);
      if id !in old(users.entries) && old(GetUserByUsername(ins.username)).Some? {
        FindAppend(old(users.Values()), u, UsernameIs(ins.username));
      }
    }

    // ---- Detections ----

    /** Stores the detection under `id`, stamped with `now`; an empty user id is stored as `null`. */
    method SaveDetection(ins: InsertDetection, id: string, now: int) returns (d: DetectionHistory)
      requires Valid()
      modifies this
      ensures Valid()
      ensures d == DetectionRow(ins, id, now)
      ensures detections == old(detections).Set(id, d)
      ensures users == old(users) && marketPrices == old(marketPrices) && weatherData == old(weatherData)
      ensures GetDetection(id) == Some(d)
      ensures id !in old(detections.entries) ==> detections.Values() == old(detections.Values()) + [d]
      ensures forall i :: 0 <= i < |old(detections.keys)| && old(detections.keys)[i] == id ==>
                detections.Values() == old(detections.Values())[i := d]
    {
      d := DetectionRow(ins, id, now);
      if id !in detections.entries {
        SetFreshAppends(detections, id, d);
      }
      SetExistingReplaces(detections, id, d);
      detections := detections.Set(id, d);
    }

    /** The detections owned by `userId`, newest first. */
    function GetUserDetections(userId: string): (r: seq<DetectionHistory>)
      reads this
      requires Valid()
      ensures forall d :: d in r <==> d in detections.Values() && d.userId == Some(userId)
      ensures forall d :: d in r ==> multiset(r)[d] == 1
      ensures SortedDesc(r, DetectionCreatedAt)
    {
      var owned := Filter(detections.Values(), OwnedBy(userId));
      ValuesDistinct(detections, DetectionId);
      DistinctMultiplicity(detections.Values());
      SortDesc(owned, DetectionCreatedAt)
    }

    /** `detections.get(id)`. */
    function GetDetection(id: string): (r: Option<DetectionHistory>)
      reads this
      requires Valid()
      ensures r.Some? <==> id in detections.entries
      ensures r.Some? ==> r.value.id == id && r.value == detections.entries[id]
    {
      detections.Get(id)
    }

    // ---- Market prices ----

    /** Stores the price under `id`, stamped with `now`. */
    method SaveMarketPrice(ins: InsertMarketPrice, id: string, now: int) returns (p: MarketPrice)
      requires Valid()
      modifies this
      ensures Valid()
      ensures p == PriceRow(ins, id, now)
      ensures marketPrices == old(marketPrices).Set(id, p)
      ensures users == old(users) && detections == old(detections) && weatherData == old(weatherData)
      ensures id !in old(marketPrices.entries) ==> marketPrices.Values() == old(marketPrices.Values()) + [p]
      ensures forall i :: 0 <= i < |old(marketPrices.keys)| && old(marketPrices.keys)[i] == id ==>
                marketPrices.Values() == old(marketPrices.Values())[i := p]
      ensures id !in old(marketPrices.entries) && p.district != "" ==>
                GetMarketPrices(Some(p.district)) == old(GetMarketPrices(Some(p.district))) + [p]
    {
      p := PriceRow(ins, id, now);
      if id !in marketPrices.entries {
        SetFreshAppends(marketPrices, id, p);
      }
      SetExistingReplaces(marketPrices, id, p);
      if id !in marketPrices.entries {
        DistrictQueryAppends(marketPrices, id, p, p.district);
      }
      marketPrices := marketPrices.Set(id, p);
    }

    /** All prices in insertion order when no district (or an empty one) is given, else those of that district. */
    function GetMarketPrices(district: Option<string>): (r: seq<MarketPrice>)
      reads this
      requires Valid()
      ensures (district.None? || district == Some("")) ==> r == marketPrices.Values()
      ensures district.Some? && district.value != "" ==>
                forall p :: p in r <==> p in marketPrices.Values() && p.district == district.value
      ensures district.Some? && district.value != "" ==>
                r == Filter(marketPrices.Values(), PriceIn(district.value))
    {
      var prices := marketPrices.Values();
      if district.Some? && district.value != "" then
        Filter(prices, PriceIn(district.value))
      else prices
    }

    /** Every stored price, most recently updated first. */
    function GetLatestPrices(): (r: seq<MarketPrice>)
      reads this
      requires Valid()
      ensures multiset(r) == multiset(marketPrices.Values())
      ensures SortedDesc(r, PriceUpdatedAt)
    {
      SortDesc(marketPrices.Values(), PriceUpdatedAt)
    }

    // ---- Weather ----

    /** Stores the weather entry under `id`, stamped with `now`; empty advisories are stored as `null`. */
    method SaveWeatherData(ins: InsertWeather, id: string, now: int) returns (w: WeatherData)
      requires Valid()
      modifies this
      ensures Valid()
      ensures w == WeatherRow(ins, id, now)
      ensures weatherData == old(weatherData).Set(id, w)
      ensures users == old(users) && detections == old(detections) && marketPrices == old(marketPrices)
      ensures id !in old(weatherData.entries) ==> weatherData.Values() == old(weatherData.Values()) + [w]
      ensures forall i :: 0 <= i < |old(weatherData.keys)| && old(weatherData.keys)[i] == id ==>
                weatherData.Values() == old(weatherData.Values())[i := w]
    {
      w := WeatherRow(ins, id, now);
      if id !in weatherData.entries {
        SetFreshAppends(weatherData, id, w);
      }
      SetExistingReplaces(weatherData, id, w);
      weatherData := weatherData.Set(id, w);
    }

    /** The first-inserted weather entry for the district, if any. */
    function GetWeatherData(district: string): (r: Option<WeatherData>)
      reads this
      requires Valid()
      ensures r.None? <==> forall w :: w in weatherData.Values() ==> w.district != district
      ensures r.Some? ==> r.value in weatherData.Values() && r.value.district == district
      ensures r.Some? ==> exists i :: 0 <= i < |weatherData.Values()| && weatherData.Values()[i] == r.value &&
                                      forall j :: 0 <= j < i ==> weatherData.Values()[j].district != district
    {
      Find(weatherData.Values(), WeatherIn(district))
    }

    /** Every stored weather entry, most recently updated first. */
    function GetLatestWeather(): (r: seq<WeatherData>)
      reads this
      requires Valid()
      ensures multiset(r) == multiset(weatherData.Values())
      ensures SortedDesc(r, WeatherUpdatedAt)
    {
      SortDesc(weatherData.Values(), WeatherUpdatedAt)
    }
  }

  /**
   * A district query lists prices in insertion order: saving a fresh price
   * leaves the earlier rows as they were and puts the new one last when it
   * belongs to the district.
   */
  lemma DistrictQueryAppends(m: OrderedMap<MarketPrice>, id: string, p: MarketPrice, district: string)
    requires m.Valid() && id !in m.entries
    ensures Filter(m.Set(id, p).Values(), PriceIn(district)) ==
            Filter(m.Values(), PriceIn(district)) + (if p.district == district then [p] else [])
  {
    SetFreshAppends(m, id, p);
    FilterAppend(m.Values(), [p], PriceIn(district));
    FilterSingleton(p, PriceIn(district));
  }

  /** In a sequence without repeats every element occurs once. */
  lemma DistinctMultiplicity<T>(s: seq<T>)
    requires Distinct(s)
    ensures forall x :: x in s ==> multiset(s)[x] == 1
  {
    if s != [] {
      assert s == [s[0]] + s[1..];
      DistinctMultiplicity(s[1..]);
    }
  }

  /** Appending an element does not change the first match of a sequence that already has one. */
  lemma FindAppend<T>(s: seq<T>, x: T, p: T -> bool)
    requires Find(s, p).Some?
    ensures Find(s + [x], p) == Find(s, p)
  {
    var i := FindIndex(s, p);
    assert (s + [x])[i] == s[i];
    assert forall j :: 0 <= j < i ==> (s + [x])[j] == s[j];
  }
}
