/** The vehicle catalogue client of the chat API
    (backend/internal/services/bob_api_service.go): a cache of the auction
    API's vehicle list, refreshed when it is older than five minutes or
    empty, and the searches run over it. The HTTP exchange is an input value
    (`Fetch`), the JSON decoder a parameter and the clock a `now` argument in
    nanoseconds. Prices are float64 in the source and reals here: they are
    only compared, and a JSON number is never NaN or infinite. */
module Vehicles {
  import opened Text
  import opened JsonText

  /** `models.Vehicle` */
  datatype Vehicle = Vehicle(
    id: String, marca: String, modelo: String, ano: String, precioInicio: real, tipoSubasta: String,
    estado: String, imagen: String)

  /** One entry of the API's `data` array. */
  datatype ApiItem = ApiItem(
    id: String, brand: String, model: String, year: String, startPrice: real, auctionType: String,
    status: String, image: String)

  /** How the HTTP exchange went: no response, or a status and a body
      (`None` when reading the body failed). */
  datatype Fetch = TransportFailed(error: String) | Replied(status: int, body: Option<String>)

  datatype FetchError = Transport(error: String) | BadStatus(status: int) | ReadFailed | ParseFailed(error: String)

  datatype Result<T> = Failed(failure: FetchError) | Ok(value: T)

  const Minute: int := 60_000_000_000

  /** `GetBOBAPIService` sets the cache lifetime to five minutes. */
  const CacheDuration: int := 5 * Minute

  /** The zero `time.Time`, in nanoseconds from the Unix epoch: the cache has
      never been fetched. */
  const ZeroTime: int := -62_135_596_800_000_000_000

  function ToVehicle(item: ApiItem): Vehicle {
    Vehicle(item.id, item.brand, item.model, item.year, item.startPrice, item.auctionType, item.status, item.image)
  }

  /** The API's list in our model, item by item and in order. */
  function Converted(items: seq<ApiItem>): (vs: seq<Vehicle>)
    ensures |vs| == |items|
    ensures forall i :: 0 <= i < |items| ==> vs[i] == ToVehicle(items[i])
  {
    if |items| == 0 then [] else Converted(items[..|items| - 1]) + [ToVehicle(items[|items| - 1])]
  }

  /** The outcome of the fetch branch of `GetSublots`. */
  function Fetched(fetch: Fetch, decode: String -> Decoded<seq<ApiItem>>): (r: Result<seq<Vehicle>>)
    ensures fetch.TransportFailed? ==> r == Failed(Transport(fetch.error))
    ensures fetch.Replied? && fetch.status != 200 ==> r == Failed(BadStatus(fetch.status))
    ensures fetch.Replied? && fetch.status == 200 && fetch.body.None? ==> r == Failed(ReadFailed)
    ensures fetch.Replied? && fetch.status == 200 && fetch.body.Some? && decode(fetch.body.value).DecodeError? ==>
      r == Failed(ParseFailed(decode(fetch.body.value).error))
    ensures r.Ok? <==>
      fetch.Replied? && fetch.status == 200 && fetch.body.Some? && decode(fetch.body.value).Decoded?
    ensures r.Ok? ==> r.value == Converted(decode(fetch.body.value).value)
  {
    match fetch
    case TransportFailed(e) => Failed(Transport(e))
    case Replied(status, body) =>
      if status != 200 then Failed(BadStatus(status))
      else if body.None? then Failed(ReadFailed)
      else
        match decode(body.value)
        case DecodeError(e) => Failed(ParseFailed(e))
        case Decoded(items) => Ok(Converted(items))
  }

  /** The cache test of `GetSublots`. */
  predicate Fresh(cache: seq<Vehicle>, lastFetch: int, forceRefresh: bool, now: int) {
    !forceRefresh && now - lastFetch < CacheDuration && |cache| > 0
  }

  /** The loop that converts the decoded items. */
  method ConvertItems(items: seq<ApiItem>) returns (vehicles: seq<Vehicle>)
    ensures vehicles == Converted(items)
  {
    vehicles := [];
    var i := 0;
    while i < |items|
      invariant 0 <= i <= |items|
      invariant vehicles == Converted(items[..i])
    {
      assert items[..i + 1][..i] == items[..i];
      vehicles := vehicles + [ToVehicle(items[i])];
      i := i + 1;
    }
    assert items[..|items|] == items;
  }

  /** The search filters; an empty string or a price bound that is not
      positive is inactive. */
  datatype Filter = Filter(marca: String, modelo: String, precioMin: real, precioMax: real, tipoSubasta: String)

  predicate Matches(v: Vehicle, f: Filter) {
    (f.marca == "" || EqualFold(v.marca, f.marca)) &&
    (f.modelo == "" || Contains(ToLower(v.modelo), ToLower(f.modelo))) &&
    !(f.precioMin > 0.0 && v.precioInicio < f.precioMin) &&
    !(f.precioMax > 0.0 && v.precioInicio > f.precioMax) &&
    (f.tipoSubasta == "" || EqualFold(v.tipoSubasta, f.tipoSubasta))
  }

  /** The matching vehicles, in list order. */
  function Filtered(vs: seq<Vehicle>, f: Filter): seq<Vehicle> {
    if |vs| == 0 then []
    else Filtered(vs[..|vs| - 1], f) + (if Matches(vs[|vs| - 1], f) then [vs[|vs| - 1]] else [])
  }

  /** What `SearchVehicles` returns: the first `limit` matches when `limit`
      is positive, all of them otherwise. */
  function Search(vs: seq<Vehicle>, f: Filter, limit: int): seq<Vehicle> {
    var all := Filtered(vs, f);
    if limit > 0 && |all| > limit then all[..limit] else all
  }

  /** Every result is a vehicle of the list that passes every active filter. */
  lemma {:induction false} FilteredSound(vs: seq<Vehicle>, f: Filter)
    ensures forall v :: v in Filtered(vs, f) ==> v in vs && Matches(v, f)
  {
    if |vs| > 0 {
      FilteredSound(vs[..|vs| - 1], f);
    }
  }

  /** Every matching vehicle of the list is among the results. */
  lemma {:induction false} FilteredComplete(vs: seq<Vehicle>, f: Filter)
    ensures forall v :: v in vs && Matches(v, f) ==> v in Filtered(vs, f)
  {
    if |vs| > 0 {
      var init := vs[..|vs| - 1];
      FilteredComplete(init, f);
      assert vs == init + [vs[|vs| - 1]];
    }
  }

  /** Filtering a concatenation filters each part: the results keep the
      list's order. */
  lemma {:induction false} FilteredConcat(a: seq<Vehicle>, b: seq<Vehicle>, f: Filter)
    ensures Filtered(a + b, f) == Filtered(a, f) + Filtered(b, f)
  {
    if |b| > 0 {
      var init := b[..|b| - 1];
      FilteredConcat(a, init, f);
      assert (a + b)[..|a + b| - 1] == a + init;
    } else {
      assert a + b == a;
    }
  }

  /** A positive limit caps the result, which is then the first `limit`
      matches. */
  lemma SearchLimit(vs: seq<Vehicle>, f: Filter, limit: int)
    ensures limit > 0 ==> |Search(vs, f, limit)| <= limit
    ensures Search(vs, f, limit) <= Filtered(vs, f)
    ensures limit <= 0 ==> Search(vs, f, limit) == Filtered(vs, f)
  {
  }

  /** The search loop, which stops as soon as `limit` results are found. */
  method SearchLoop(vehicles: seq<Vehicle>, f: Filter, limit: int) returns (results: seq<Vehicle>)
    ensures results == Search(vehicles, f, limit)
  {
    results := [];
    var i := 0;
    while i < |vehicles|
      invariant 0 <= i <= |vehicles|
      invariant results == Filtered(vehicles[..i], f)
      invariant limit > 0 ==> |results| < limit
    {
      assert vehicles[..i + 1][..i] == vehicles[..i];
      var v := vehicles[i];
      if Matches(v, f) {
        results := results + [v];
        if limit > 0 && |results| >= limit {
          StopAtLimit(vehicles, i + 1, f, limit);
          return;
        }
      }
      i := i + 1;
    }
    assert vehicles[..|vehicles|] == vehicles;
  }

  /** Once the matches of a prefix reach the limit, they are the answer. */
  lemma StopAtLimit(vs: seq<Vehicle>, k: int, f: Filter, limit: int)
    requires 0 <= k <= |vs| && limit > 0 && |Filtered(vs[..k], f)| == limit
    ensures Filtered(vs[..k], f) == Search(vs, f, limit)
  {
    FilteredConcat(vs[..k], vs[k..], f);
    assert vs[..k] + vs[k..] == vs;
  }

  /** Position `i` holds the first vehicle with the id. */
  predicate IsFirstWithId(vs: seq<Vehicle>, id: String, i: int) {
    0 <= i < |vs| && vs[i].id == id && forall j :: 0 <= j < i ==> vs[j].id != id
  }

  /** The first vehicle with the id. */
  function FirstWithId(vs: seq<Vehicle>, id: String): (r: Option<Vehicle>)
    ensures r.None? <==> forall i :: 0 <= i < |vs| ==> vs[i].id != id
    ensures r.Some? ==> exists i :: IsFirstWithId(vs, id, i) && vs[i] == r.value
  {
    if |vs| == 0 then None
    else if vs[0].id == id then Some(vs[0])
    else
      var r := FirstWithId(vs[1..], id);
      if r.Some? then
        var i :| IsFirstWithId(vs[1..], id, i) && vs[1..][i] == r.value;
        assert IsFirstWithId(vs, id, i + 1);
        r
      else r
  }

  datatype Lookup = LookupFailed(failure: FetchError) | NotFound | Found(vehicle: Vehicle)

  /** The formatting of a price with `%.2f` is not modelled and comes in as
      a parameter. */
  function ContextLine(v: Vehicle, formatPrice: real -> String): String {
    "- " + v.marca + " " + v.modelo + " " + v.ano + " - Precio inicial: $" + formatPrice(v.precioInicio) +
    " - Tipo: " + v.tipoSubasta + "\n"
  }

  const ContextHeader: String := "Vehículos disponibles en subasta:\n\n"

  /** The header followed by one line per vehicle, in order. */
  function ContextText(vs: seq<Vehicle>, formatPrice: real -> String): String {
    if |vs| == 0 then ContextHeader else ContextText(vs[..|vs| - 1], formatPrice) + ContextLine(vs[|vs| - 1], formatPrice)
  }

  /** How many vehicles the context lists: `limit` at most, none when `limit`
      is not positive. */
  function Listed(count: int, limit: int): (n: nat)
    ensures n <= count || count < 0
    ensures limit > 0 ==> n <= limit
    ensures limit <= 0 ==> n == 0
    ensures 0 <= limit <= count ==> n == limit
    ensures 0 <= count <= limit ==> n == count
  {
    if limit <= 0 || count <= 0 then 0 else if limit < count then limit else count
  }

  /** The service with its cache. */
  class VehicleService {
    var cache: seq<Vehicle>
    var lastFetch: int
    const baseUrl: String

    /** `GetBOBAPIService`: an empty cache never fetched. */
    constructor(baseUrl: String)
      ensures this.baseUrl == baseUrl && cache == [] && lastFetch == ZeroTime
    {
      this.baseUrl := baseUrl;
      cache := [];
      lastFetch := ZeroTime;
    }

    /** `GetSublots`: the cache while it is fresh and non-empty, unless a
        refresh is forced; otherwise the fetch, which replaces the cache only
        when it succeeds. */
    method GetSublots(forceRefresh: bool, now: int, fetch: Fetch, decode: String -> Decoded<seq<ApiItem>>)
      returns (r: Result<seq<Vehicle>>)
      modifies this`cache, this`lastFetch
      ensures Fresh(old(cache), old(lastFetch), forceRefresh, now) ==>
        r == Ok(old(cache)) && cache == old(cache) && lastFetch == old(lastFetch)
      ensures !Fresh(old(cache), old(lastFetch), forceRefresh, now) ==> r == Fetched(fetch, decode)
      ensures !Fresh(old(cache), old(lastFetch), forceRefresh, now) && r.Failed? ==>
        cache == old(cache) && lastFetch == old(lastFetch)
      ensures !Fresh(old(cache), old(lastFetch), forceRefresh, now) && r.Ok? ==> cache == r.value && lastFetch == now
      ensures r.Ok? ==> r.value == cache
    {
      if !forceRefresh && now - lastFetch < CacheDuration && |cache| > 0 {
        return Ok(cache);
      }
      match fetch {
        case TransportFailed(e) =>
          return Failed(Transport(e));
        case Replied(status, body) =>
          if status != 200 {
            return Failed(BadStatus(status));
          }
          if body.None? {
            return Failed(ReadFailed);
          }
          var decoded := decode(body.value);
          if decoded.DecodeError? {
            return Failed(ParseFailed(decoded.error));
          }
          var vehicles := ConvertItems(decoded.value);
          cache := vehicles;
          lastFetch := now;
          return Ok(vehicles);
      }
    }

    /** `SearchVehicles` over the (possibly refreshed) cache. */
    method SearchVehicles(f: Filter, limit: int, now: int, fetch: Fetch, decode: String -> Decoded<seq<ApiItem>>)
      returns (r: Result<seq<Vehicle>>)
      modifies this`cache, this`lastFetch
      ensures Fresh(old(cache), old(lastFetch), false, now) ==> cache == old(cache) && lastFetch == old(lastFetch)
      ensures !Fresh(old(cache), old(lastFetch), false, now) && Fetched(fetch, decode).Ok? ==>
        cache == Fetched(fetch, decode).value && lastFetch == now
      ensures r.Failed? <==> !Fresh(old(cache), old(lastFetch), false, now) && Fetched(fetch, decode).Failed?
      ensures r.Failed? ==> r == Fetched(fetch, decode) && cache == old(cache) && lastFetch == old(lastFetch)
      ensures r.Ok? ==> r.value == Search(cache, f, limit)
    {
      var vehicles := GetSublots(false, now, fetch, decode);
      if vehicles.Failed? {
        return Failed(vehicles.failure);
      }
      var results := SearchLoop(vehicles.value, f, limit);
      return Ok(results);
    }

    /** `GetVehicleByID`: the first vehicle with the id. */
    method GetVehicleById(id: String, now: int, fetch: Fetch, decode: String -> Decoded<seq<ApiItem>>)
      returns (r: Lookup)
      modifies this`cache, this`lastFetch
      ensures Fresh(old(cache), old(lastFetch), false, now) ==> cache == old(cache) && lastFetch == old(lastFetch)
      ensures !Fresh(old(cache), old(lastFetch), false, now) && Fetched(fetch, decode).Ok? ==>
        cache == Fetched(fetch, decode).value && lastFetch == now
      ensures r.LookupFailed? <==> !Fresh(old(cache), old(lastFetch), false, now) && Fetched(fetch, decode).Failed?
      ensures r.LookupFailed? ==> Fetched(fetch, decode) == Failed(r.failure) && cache == old(cache)
      ensures r.NotFound? ==> FirstWithId(cache, id).None?
      ensures r.Found? ==> FirstWithId(cache, id) == Some(r.vehicle)
    {
      var vehicles := GetSublots(false, now, fetch, decode);
      if vehicles.Failed? {
        return LookupFailed(vehicles.failure);
      }
      var found := FindById(vehicles.value, id);
      if found.Some? {
        return Found(found.value);
      }
      return NotFound;
    }

    /** `GetVehiclesContext`: a header and one line for each of the first
        `limit` vehicles, or nothing when the list cannot be had. */
    method GetVehiclesContext(limit: int, now: int, fetch: Fetch, decode: String -> Decoded<seq<ApiItem>>,
                              formatPrice: real -> String) returns (context: String)
      modifies this`cache, this`lastFetch
      ensures Fresh(old(cache), old(lastFetch), false, now) ==> cache == old(cache) && lastFetch == old(lastFetch)
      ensures !Fresh(old(cache), old(lastFetch), false, now) && Fetched(fetch, decode).Ok? ==>
        cache == Fetched(fetch, decode).value && lastFetch == now
      ensures !Fresh(old(cache), old(lastFetch), false, now) && Fetched(fetch, decode).Failed? ==>
        context == "" && cache == old(cache)
      ensures Fresh(old(cache), old(lastFetch), false, now) || Fetched(fetch, decode).Ok? ==>
        context == ContextText(cache[..Listed(|cache|, limit)], formatPrice)
    {
      var vehicles := GetSublots(false, now, fetch, decode);
      if vehicles.Failed? {
        return "";
      }
      context := WriteContext(vehicles.value, limit, formatPrice);
    }
  }

  /** The search loop of `GetVehicleByID`. */
  method FindById(vehicles: seq<Vehicle>, id: String) returns (r: Option<Vehicle>)
    ensures r == FirstWithId(vehicles, id)
  {
    var i := 0;
    while i < |vehicles|
      invariant 0 <= i <= |vehicles|
      invariant FirstWithId(vehicles, id) == FirstWithId(vehicles[i..], id)
    {
      if vehicles[i].id == id {
        return Some(vehicles[i]);
      }
      assert vehicles[i..][1..] == vehicles[i + 1..];
      i := i + 1;
    }
    return None;
  }

  /** The context always opens with the header, and each listed vehicle adds
      its line after what came before. */
  lemma {:induction false} ContextStartsWithHeader(vs: seq<Vehicle>, formatPrice: real -> String)
    ensures ContextHeader <= ContextText(vs, formatPrice)
    ensures |ContextText(vs, formatPrice)| >= |ContextHeader| + 2 * |vs|
  {
    if |vs| > 0 {
      ContextStartsWithHeader(vs[..|vs| - 1], formatPrice);
      var prev := ContextText(vs[..|vs| - 1], formatPrice);
      assert ContextText(vs, formatPrice) == prev + ContextLine(vs[|vs| - 1], formatPrice);
      assert ContextText(vs, formatPrice)[..|prev|] == prev;
    }
  }

  lemma ContextTextStep(vs: seq<Vehicle>, i: int, formatPrice: real -> String)
    requires 0 <= i < |vs|
    ensures ContextText(vs[..i + 1], formatPrice) == ContextText(vs[..i], formatPrice) + ContextLine(vs[i], formatPrice)
  {
    assert vs[..i + 1][..i] == vs[..i];
  }

  /** The builder loop of `GetVehiclesContext`. */
  method WriteContext(vehicles: seq<Vehicle>, limit: int, formatPrice: real -> String) returns (context: String)
    ensures context == ContextText(vehicles[..Listed(|vehicles|, limit)], formatPrice)
  {
    context := ContextHeader;
    var count := 0;
    while count < |vehicles|
      invariant 0 <= count <= |vehicles|
      invariant count <= Listed(|vehicles|, limit)
      invariant context == ContextText(vehicles[..count], formatPrice)
    {
      if count >= limit {
        break;
      }
      ContextTextStep(vehicles, count, formatPrice);
      context := context + ContextLine(vehicles[count], formatPrice);
      count := count + 1;
    }
  }
}
