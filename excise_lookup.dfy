/**
 * The owner lookup: a read-through cache over the owner_cache table in
 * front of the excise web site. The HTTP request is an input (`ExciseReply`)
 * and so is today's date; the rest is modelled on table values here and
 * applied to the database by `Backend.Database.LookupPlate`.
 */
module ExciseLookup {
  import opened Wrappers
  import opened Query
  import opened Models

  /**
   * What the excise site gave: no base URL configured, an HTTP response, or
   * an exception raised by the request.
   */
  datatype ExciseReply = NotConfigured | Responded(status: int, body: string) | Raised

  /** The owner name and model the placeholder parse of a 200 response fills in. */
  const ParsedOwnerName := "Parsed Owner"
  const ParsedModel := "Parsed Model"

  /** `_mock_owner(plate)`: the stand-in record used when the site cannot be asked. */
  function MockOwner(plate: string): (o: Owner)
    ensures o.ownerName == Some("Owner of " + plate) && o.vehicleModel == Some("Unknown Model")
    ensures o.registrationDate.None? && o.rawData == Some(MockSource)
  {
    Owner(Some("Owner of " + plate), Some("Unknown Model"), None, Some(MockSource))
  }

  /**
   * The `parsed` record: the placeholder parse of a 200 response, and the
   * mock owner for a missing base URL, any other status or an exception.
   */
  function Fetch(plate: string, reply: ExciseReply, today: string): (o: Owner)
    ensures o.ownerName.Some? && o.vehicleModel.Some? && o.rawData.Some?
    ensures !(reply.Responded? && reply.status == 200) ==> o == MockOwner(plate)
    ensures reply.Responded? && reply.status == 200 ==>
              && o.ownerName == Some(ParsedOwnerName) && o.vehicleModel == Some(ParsedModel)
              && o.registrationDate == Some(today) && o.rawData == Some(Body(reply.body))
  {
    if reply.Responded? && reply.status == 200 then
      Owner(Some(ParsedOwnerName), Some(ParsedModel), Some(today), Some(Body(reply.body)))
    else
      MockOwner(plate)
  }

  /** Python truthiness of a `raw_data` value: None, "" and {} are false. */
  predicate IsFalsy(raw: Option<RawData>) {
    raw.None? || raw == Some(Body("")) || raw == Some(EmptyObject)
  }

  /** `json.dumps(raw or {})`, the text stored in owner_cache.raw_data. */
  function Encode(raw: Option<RawData>): (e: RawData)
    ensures e.Dumped?
    ensures IsFalsy(raw) ==> e == Dumped(EmptyObject)
    ensures !IsFalsy(raw) ==> e == Dumped(raw.value)
  {
    if IsFalsy(raw) then Dumped(EmptyObject) else Dumped(raw.value)
  }

  /** The dict a cache hit returns: the row's four columns as stored. */
  function RowOwner(row: OwnerCacheRow): Owner {
    Owner(row.ownerName, row.vehicleModel, row.registrationDate, row.rawData)
  }

  /** The row cached for a freshly fetched owner. */
  function NewCacheRow(id: int, plate: string, o: Owner): OwnerCacheRow {
    OwnerCacheRow(id, plate, o.ownerName, o.vehicleModel, o.registrationDate, Some(Encode(o.rawData)))
  }

  datatype LookupResult = LookupResult(owner: Owner, cache: seq<OwnerCacheRow>)

  /**
   * `lookup_plate(plate)` on the value of the owner_cache table: the owner
   * it returns and the table afterwards.
   */
  function Lookup(cache: seq<OwnerCacheRow>, plate: string, reply: ExciseReply, today: string): (r: LookupResult)
    // after any call the table holds a row for the plate
    ensures plate in CachePlates(r.cache)
    // hit: the first row for the plate is returned and nothing is added
    ensures plate in CachePlates(cache) ==>
              r.cache == cache && r.owner == RowOwner(cache[FirstMatch(CachePlates(cache), plate).value])
    // miss: the fetched owner is returned and exactly one row for it is appended
    ensures plate !in CachePlates(cache) ==>
              && r.owner == Fetch(plate, reply, today)
              && |r.cache| == |cache| + 1 && r.cache[..|cache|] == cache
              && r.cache[|cache|].plateNumber == plate
              && r.cache[|cache|].id !in CacheIds(cache)
              && r.cache[|cache|].ownerName == r.owner.ownerName
              && r.cache[|cache|].vehicleModel == r.owner.vehicleModel
              && r.cache[|cache|].registrationDate == r.owner.registrationDate
              && r.cache[|cache|].rawData == Some(Encode(r.owner.rawData))
  {
    match FirstMatch(CachePlates(cache), plate)
    case Some(i) => LookupResult(RowOwner(cache[i]), cache)
    case None =>
      var parsed := Fetch(plate, reply, today);
      var row := NewCacheRow(FreshId(CacheIds(cache)), plate, parsed);
      var r := LookupResult(parsed, cache + [row]);
      assert CachePlates(r.cache) == CachePlates(cache) + [plate];
      r
  }

  /** The lookup never gives the cache a second row for a plate, nor a second row with one key. */
  lemma LookupKeepsCacheUnique(cache: seq<OwnerCacheRow>, plate: string, reply: ExciseReply, today: string)
    requires Distinct(CachePlates(cache)) && Distinct(CacheIds(cache))
    ensures Distinct(CachePlates(Lookup(cache, plate, reply, today).cache))
    ensures Distinct(CacheIds(Lookup(cache, plate, reply, today).cache))
  {
    var r := Lookup(cache, plate, reply, today);
    if plate !in CachePlates(cache) {
      assert CachePlates(r.cache) == CachePlates(cache) + [plate];
      assert CacheIds(r.cache) == CacheIds(cache) + [FreshId(CacheIds(cache))];
      FreshIdKeepsDistinct(CacheIds(cache));
    }
  }

  /**
   * Asking again for the same plate is answered from the cache: the second
   * call returns the name, model and date of the first, whatever the excise
   * site says the second time, and adds nothing.
   */
  lemma LookupTwice(cache: seq<OwnerCacheRow>, plate: string, reply1: ExciseReply, today1: string,
                    reply2: ExciseReply, today2: string)
    ensures var first := Lookup(cache, plate, reply1, today1);
            var second := Lookup(first.cache, plate, reply2, today2);
            && second.cache == first.cache
            && second.owner.ownerName == first.owner.ownerName
            && second.owner.vehicleModel == first.owner.vehicleModel
            && second.owner.registrationDate == first.owner.registrationDate
  {
    var first := Lookup(cache, plate, reply1, today1);
    if plate !in CachePlates(cache) {
      var n := |cache|;
      assert CachePlates(first.cache)[..n] == CachePlates(cache);
      var m := FirstMatch(CachePlates(first.cache), plate);
      assert m == Some(n) by {
        assert CachePlates(first.cache)[n] == plate;
      }
    }
  }

  /** Without a usable answer from the excise site, a miss caches and returns the mock owner. */
  lemma MissWithoutSiteIsMock(cache: seq<OwnerCacheRow>, plate: string, reply: ExciseReply, today: string)
    requires plate !in CachePlates(cache)
    requires reply.NotConfigured? || reply.Raised? || (reply.Responded? && reply.status != 200)
    ensures var r := Lookup(cache, plate, reply, today);
            && r.owner == Owner(Some("Owner of " + plate), Some("Unknown Model"), None, Some(MockSource))
            && r.cache[|cache|] == OwnerCacheRow(r.cache[|cache|].id, plate, Some("Owner of " + plate),
                                                   Some("Unknown Model"), None, Some(Dumped(MockSource)))
  {
  }
}
