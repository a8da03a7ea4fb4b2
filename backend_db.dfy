/**
 * The backend database and the operations that change it: recording a
 * plate reading (`process_detection`), the timeout sweep
 * (`sweep_sessions`), the cached owner lookup (`lookup_plate`) and the two
 * write endpoints (`add_resident`, `manual_lookup`). Each operation is one
 * atomic step over in-memory tables; clocks, the saved image path and the
 * excise site's answer are parameters.
 */
module Backend {
  import opened Wrappers
  import opened Query
  import opened AsciiText
  import opened Models
  import opened ExciseLookup
  import opened SessionManager

  /** The dict `process_detection` returns. */
  datatype DetectionSummary = DetectionSummary(sessionId: int, plate: string, owner: Owner)

  /** The body of a POST /residents request. */
  datatype ResidentIn = ResidentIn(
    plateNumber: string,
    residentName: Option<string>,
    apartmentNo: Option<string>,
    phone: Option<string>,
    notes: Option<string>)

  /** {"status": "exists"} or {"status": "ok", "id": id}. */
  datatype AddResidentReply = AlreadyExists | Added(id: int)

  /** {"plate": plate, "owner": owner}. */
  datatype ManualLookupReply = ManualLookupReply(plate: string, owner: Owner)

  /** Refreshing or opening a session and then linking its owner, as one change to the table. */
  lemma RefreshThenLink(before: seq<AccessSession>, touched: seq<AccessSession>, after: seq<AccessSession>,
                        plate: string, now: int, k: nat, ownerId: Option<int>)
    requires match FindActive(before, plate)
             case Some(i) => k == i && touched == before[k := before[k].(lastSeen := now)]
             case None =>
               && k == |before|
               && touched == before + [AccessSession(FreshId(SessionIds(before)), plate, now, now, None, Active, None)]
    requires k < |touched| && after == touched[k := touched[k].(ownerId := ownerId)]
    ensures match FindActive(before, plate)
            case Some(i) => after == before[k := before[k].(lastSeen := now, ownerId := ownerId)]
            case None =>
              after == before + [AccessSession(FreshId(SessionIds(before)), plate, now, now, None, Active, ownerId)]
  {
    if FindActive(before, plate).None? {
      assert after == before + [AccessSession(FreshId(SessionIds(before)), plate, now, now, None, Active, ownerId)];
    }
  }

  class Database {
    var sessions: seq<AccessSession>
    var detections: seq<Detection>
    var ownerCache: seq<OwnerCacheRow>
    var residents: seq<Resident>

    /**
     * Primary keys are unique in every table; plate_number is unique in
     * owner_cache and residents; no plate has two active sessions.
     */
    ghost predicate Valid()
      reads this
    {
      && Distinct(SessionIds(sessions))
      && Distinct(DetectionIds(detections))
      && Distinct(CacheIds(ownerCache))
      && Distinct(ResidentIds(residents))
      && Distinct(CachePlates(ownerCache))
      && Distinct(ResidentPlates(residents))
      && AtMostOneActive(sessions)
    }

    constructor ()
      ensures Valid()
      ensures sessions == [] && detections == [] && ownerCache == [] && residents == []
    {
      sessions, detections, ownerCache, residents := [], [], [], [];
    }

    /**
     * `lookup_plate(plate)`: answers from the cache when it holds the plate,
     * otherwise asks the excise site (or falls back to the mock owner) and
     * caches the answer.
     */
    method LookupPlate(plate: string, reply: ExciseReply, today: string) returns (owner: Owner)
      requires Valid()
      modifies this`ownerCache
      ensures Valid()
      ensures owner == Lookup(old(ownerCache), plate, reply, today).owner
      ensures ownerCache == Lookup(old(ownerCache), plate, reply, today).cache
    {
      LookupKeepsCacheUnique(ownerCache, plate, reply, today);
      var hit := FirstMatch(CachePlates(ownerCache), plate);
      if hit.Some? {
        var row := ownerCache[hit.value];
        owner := Owner(row.ownerName, row.vehicleModel, row.registrationDate, row.rawData);
        return;
      }
      var parsed := Fetch(plate, reply, today);
      var newRow := OwnerCacheRow(FreshId(CacheIds(ownerCache)), plate, parsed.ownerName, parsed.vehicleModel,
                                 parsed.registrationDate, Some(Encode(parsed.rawData)));
      ownerCache := ownerCache + [newRow];
      owner := parsed;
    }

    /**
     * `process_detection`: files a plate reading under the plate's active
     * session, opening one when there is none, links the session to the
     * plate's owner_cache row and records the reading.
     */
    method ProcessDetection(plateText: Option<string>, imagePath: string, confidence: real, cameraId: string,
                            now: int, reply: ExciseReply, today: string)
      returns (result: DetectionSummary)
      requires Valid()
      requires plateText.Some? ==> IsAscii(plateText.value)
      modifies this
      ensures Valid()
      ensures result.plate == SessionPlate(plateText)
      // the owner lookup, with its cache insert on a miss
      ensures result.owner == Lookup(old(ownerCache), result.plate, reply, today).owner
      ensures ownerCache == Lookup(old(ownerCache), result.plate, reply, today).cache
      // an active session is refreshed, or else exactly one is opened; either way it
      // is linked to the owner_cache row of the plate
      ensures result.plate in CachePlates(ownerCache)
      ensures var ownerId := Some(ownerCache[FirstMatch(CachePlates(ownerCache), result.plate).value].id);
              match FindActive(old(sessions), result.plate)
              case Some(k) =>
                && result.sessionId == old(sessions)[k].id
                && sessions == old(sessions)[k := old(sessions)[k].(lastSeen := now, ownerId := ownerId)]
              case None =>
                && result.sessionId == FreshId(SessionIds(old(sessions)))
                && sessions == old(sessions) + [AccessSession(result.sessionId, result.plate, now, now, None, Active, ownerId)]
      // afterwards the plate has exactly one active session: the one the reading is filed under
      ensures FindActive(sessions, result.plate).Some?
      ensures sessions[FindActive(sessions, result.plate).value].id == result.sessionId
      // exactly one reading is appended
      ensures detections == old(detections) + [Detection(FreshId(DetectionIds(old(detections))), Some(result.sessionId),
                                                         now, result.plate, confidence, imagePath, cameraId)]
      ensures residents == old(residents)
    {
      var plate := SessionPlate(plateText);
      ghost var before := sessions;
      var k := OpenOrRefresh(plate, now);
      ghost var touched := sessions;
      // the crop image is saved by the caller; its path is `imagePath`
      var ownerData := LookupPlate(plate, reply, today);
      var owner := FirstMatch(CachePlates(ownerCache), plate);
      assert owner.Some?;
      LinkOwner(k, plate, ownerCache[owner.value].id);
      RefreshThenLink(before, touched, sessions, plate, now, k, Some(ownerCache[owner.value].id));
      var sessionId := sessions[k].id;
      RecordDetection(Some(sessionId), now, plate, confidence, imagePath, cameraId);
      result := DetectionSummary(sessionId, plate, ownerData);
    }

    /** Refreshes the plate's active session, or opens one; returns its index. */
    method OpenOrRefresh(plate: string, now: int) returns (k: nat)
      requires Valid()
      modifies this`sessions
      ensures Valid()
      ensures k < |sessions| && FindActive(sessions, plate) == Some(k)
      ensures match FindActive(old(sessions), plate)
              case Some(i) => k == i && sessions == old(sessions)[k := old(sessions)[k].(lastSeen := now)]
              case None =>
                && k == |old(sessions)|
                && sessions == old(sessions) + [AccessSession(FreshId(SessionIds(old(sessions))), plate, now, now, None, Active, None)]
    {
      match FindActive(sessions, plate) {
        case Some(i) =>
          k := i;
          UpdateKeepsInvariant(sessions, k, sessions[k].(lastSeen := now));
          sessions := sessions[k := sessions[k].(lastSeen := now)];
        case None =>
          k := |sessions|;
          var newSession := AccessSession(FreshId(SessionIds(sessions)), plate, now, now, None, Active, None);
          OpenKeepsInvariant(sessions, newSession);
          FreshIdKeepsDistinct(SessionIds(sessions));
          assert SessionIds(sessions + [newSession]) == SessionIds(sessions) + [newSession.id];
          sessions := sessions + [newSession];
      }
      FindActiveUnique(sessions, plate, k);
    }

    /** Sets `owner_id` of the active session at index `k`. */
    method LinkOwner(k: nat, plate: string, ownerId: int)
      requires Valid()
      requires k < |sessions| && FindActive(sessions, plate) == Some(k)
      modifies this`sessions
      ensures Valid()
      ensures sessions == old(sessions)[k := old(sessions)[k].(ownerId := Some(ownerId))]
      ensures FindActive(sessions, plate) == Some(k)
    {
      UpdateKeepsInvariant(sessions, k, sessions[k].(ownerId := Some(ownerId)));
      sessions := sessions[k := sessions[k].(ownerId := Some(ownerId))];
      FindActiveUnique(sessions, plate, k);
    }

    /** Appends one detection row under a fresh key. */
    method RecordDetection(sessionId: Option<int>, now: int, plate: string, confidence: real, imagePath: string, cameraId: string)
      requires Valid()
      modifies this`detections
      ensures Valid()
      ensures detections == old(detections) + [Detection(FreshId(DetectionIds(old(detections))), sessionId,
                                                         now, plate, confidence, imagePath, cameraId)]
    {
      var det := Detection(FreshId(DetectionIds(detections)), sessionId, now, plate, confidence, imagePath, cameraId);
      FreshIdKeepsDistinct(DetectionIds(detections));
      assert DetectionIds(detections + [det]) == DetectionIds(detections) + [det.id];
      detections := detections + [det];
    }

    /**
     * `sweep_sessions`: every active session last seen more than
     * ActiveTimeoutSeconds before `now` is marked exited at `exitTime`,
     * which is also the `last_seen` its update writes.
     */
    method SweepSessions(now: int, exitTime: int)
      requires Valid()
      modifies this`sessions
      ensures Valid()
      ensures sessions == Swept(old(sessions), now - ActiveTimeoutSeconds, exitTime)
    {
      var threshold := now - ActiveTimeoutSeconds;
      var i := 0;
      while i < |sessions|
        invariant 0 <= i <= |sessions| == |old(sessions)|
        invariant forall j :: 0 <= j < i ==> sessions[j] == Expire(old(sessions)[j], threshold, exitTime)
        invariant forall j :: i <= j < |sessions| ==> sessions[j] == old(sessions)[j]
      {
        var s := sessions[i];
        if s.status == Active && s.lastSeen < threshold {
          sessions := sessions[i := s.(exitTime := Some(exitTime), lastSeen := exitTime, status := Exited)];
        }
        i := i + 1;
      }
      assert sessions == Swept(old(sessions), threshold, exitTime);
      SweptKeepsInvariant(old(sessions), threshold, exitTime);
    }

    /**
     * `add_resident`: a plate already registered is reported and the table
     * left alone; otherwise exactly one resident is added.
     */
    method AddResident(r: ResidentIn) returns (reply: AddResidentReply)
      requires Valid()
      modifies this`residents
      ensures Valid()
      ensures r.plateNumber in ResidentPlates(old(residents)) ==>
                reply == AlreadyExists && residents == old(residents)
      ensures r.plateNumber !in ResidentPlates(old(residents)) ==>
                && reply == Added(FreshId(ResidentIds(old(residents))))
                && reply.id !in ResidentIds(old(residents))
                && residents == old(residents) + [Resident(reply.id, r.plateNumber, r.residentName, r.apartmentNo, r.phone, r.notes)]
    {
      var existing := FirstMatch(ResidentPlates(residents), r.plateNumber);
      if existing.Some? {
        return AlreadyExists;
      }
      var added := Resident(FreshId(ResidentIds(residents)), r.plateNumber, r.residentName, r.apartmentNo, r.phone, r.notes);
      FreshIdKeepsDistinct(ResidentIds(residents));
      assert ResidentIds(residents + [added]) == ResidentIds(residents) + [added.id];
      assert ResidentPlates(residents + [added]) == ResidentPlates(residents) + [added.plateNumber];
      residents := residents + [added];
      reply := Added(added.id);
    }

    /** `manual_lookup(plate)`: the plate as given, not normalised, with its owner lookup. */
    method ManualLookup(plate: string, reply: ExciseReply, today: string) returns (res: ManualLookupReply)
      requires Valid()
      modifies this`ownerCache
      ensures Valid()
      ensures res.plate == plate
      ensures res.owner == Lookup(old(ownerCache), plate, reply, today).owner
      ensures ownerCache == Lookup(old(ownerCache), plate, reply, today).cache
    {
      var owner := LookupPlate(plate, reply, today);
      res := ManualLookupReply(plate, owner);
    }
  }
}
