/**
 * The read-only API endpoints: listing sessions, detections and residents,
 * and the alias endpoints built on them. Each is a function of the table
 * it queries.
 */
module Routes {
  import opened Wrappers
  import opened Seqs
  import opened Query
  import opened Models

  /** GET /sessions returns at most this many sessions. */
  const SessionListLimit: int := 500

  /** The default `limit` of GET /detections. */
  const DefaultDetectionLimit: int := 100

  /** A session as listed: every column but owner_id. */
  datatype SessionView = SessionView(id: int, plate: string, entryTime: int, lastSeen: int,
                                     exitTime: Option<int>, status: string)

  /** A detection as listed: every column but camera_id. */
  datatype DetectionView = DetectionView(id: int, sessionId: Option<int>, timestamp: int, ocrText: string,
                                         confidence: real, imagePath: string)

  /** A resident as listed: every column but notes. */
  datatype ResidentView = ResidentView(id: int, plateNumber: string, residentName: Option<string>,
                                       apartmentNo: Option<string>, phone: Option<string>)

  function LastSeen(s: AccessSession): int { s.lastSeen }
  function Timestamp(d: Detection): int { d.timestamp }
  predicate IsActive(s: AccessSession) { s.status == Active }

  /** Sessions a listing may show: all of them, or only the active ones. */
  predicate Eligible(s: AccessSession, activeOnly: bool) {
    !activeOnly || IsActive(s)
  }

  /**
   * The rows `list_sessions` selects: optionally only active sessions, most
   * recently seen first, at most 500. A session left out was seen no later
   * than any session shown.
   */
  function SelectSessions(sessions: seq<AccessSession>, activeOnly: bool): (r: seq<AccessSession>)
    ensures |r| <= SessionListLimit
    ensures forall i :: 0 <= i < |r| ==> r[i] in sessions && Eligible(r[i], activeOnly)
    ensures forall i, j :: 0 <= i < j < |r| ==> r[i].lastSeen >= r[j].lastSeen
    ensures multiset(r) <= multiset(sessions)
    ensures forall j, k :: 0 <= j < |sessions| && Eligible(sessions[j], activeOnly) && sessions[j] !in r && 0 <= k < |r|
              ==> sessions[j].lastSeen <= r[k].lastSeen
    ensures |r| == SessionListLimit || forall j :: 0 <= j < |sessions| && Eligible(sessions[j], activeOnly) ==> sessions[j] in r
  {
    var chosen := Chosen(sessions, activeOnly);
    var r := NewestFirst(chosen, LastSeen, SessionListLimit);
    SelectionFacts(sessions, activeOnly, r);
    r
  }

  /** The sessions a listing chooses from. */
  function Chosen(sessions: seq<AccessSession>, activeOnly: bool): seq<AccessSession> {
    if activeOnly then Filter(sessions, IsActive) else sessions
  }

  lemma SelectionFacts(sessions: seq<AccessSession>, activeOnly: bool, r: seq<AccessSession>)
    requires r == NewestFirst(Chosen(sessions, activeOnly), LastSeen, SessionListLimit)
    ensures |r| <= SessionListLimit
    ensures forall i :: 0 <= i < |r| ==> r[i] in sessions && Eligible(r[i], activeOnly)
    ensures forall i, j :: 0 <= i < j < |r| ==> r[i].lastSeen >= r[j].lastSeen
    ensures multiset(r) <= multiset(sessions)
    ensures forall j, k :: 0 <= j < |sessions| && Eligible(sessions[j], activeOnly) && sessions[j] !in r && 0 <= k < |r|
              ==> sessions[j].lastSeen <= r[k].lastSeen
    ensures |r| == SessionListLimit || forall j :: 0 <= j < |sessions| && Eligible(sessions[j], activeOnly) ==> sessions[j] in r
  {
    var chosen := Chosen(sessions, activeOnly);
    assert forall i :: 0 <= i < |chosen| ==> chosen[i] in sessions && Eligible(chosen[i], activeOnly) by {
      ChosenAreEligible(sessions, activeOnly);
    }
    assert multiset(r) <= multiset(sessions) by {
      ChosenAreEligible(sessions, activeOnly);
    }
    assert forall j :: 0 <= j < |sessions| && Eligible(sessions[j], activeOnly) ==> sessions[j] in chosen by {
      EligibleAreChosen(sessions, activeOnly);
    }
    SelectedComeFromTable(sessions, activeOnly, chosen, r);
    assert forall i, j :: 0 <= i < j < |r| ==> LastSeen(r[i]) >= LastSeen(r[j]);
    SelectedAreNewest(sessions, activeOnly, chosen, r);
    if |r| < SessionListLimit {
      TakeAllWhenShort(chosen, r);
    }
  }

  lemma EligibleAreChosen(sessions: seq<AccessSession>, activeOnly: bool)
    ensures forall j :: 0 <= j < |sessions| && Eligible(sessions[j], activeOnly) ==> sessions[j] in Chosen(sessions, activeOnly)
  {
  }

  lemma ChosenAreEligible(sessions: seq<AccessSession>, activeOnly: bool)
    ensures var chosen := Chosen(sessions, activeOnly);
            && multiset(chosen) <= multiset(sessions)
            && forall i :: 0 <= i < |chosen| ==> chosen[i] in sessions && Eligible(chosen[i], activeOnly)
  {
    FilterMultiset(sessions, IsActive);
  }

  lemma SelectedComeFromTable(sessions: seq<AccessSession>, activeOnly: bool, chosen: seq<AccessSession>, r: seq<AccessSession>)
    requires forall i :: 0 <= i < |chosen| ==> chosen[i] in sessions && Eligible(chosen[i], activeOnly)
    requires multiset(r) <= multiset(chosen)
    ensures forall i :: 0 <= i < |r| ==> r[i] in sessions && Eligible(r[i], activeOnly)
  {
    forall i | 0 <= i < |r| ensures r[i] in sessions && Eligible(r[i], activeOnly) {
      assert r[i] in multiset(r);
      assert r[i] in chosen;
      var m :| 0 <= m < |chosen| && chosen[m] == r[i];
    }
  }

  lemma SelectedAreNewest(sessions: seq<AccessSession>, activeOnly: bool, chosen: seq<AccessSession>, r: seq<AccessSession>)
    requires forall j :: 0 <= j < |sessions| && Eligible(sessions[j], activeOnly) ==> sessions[j] in chosen
    requires forall i, k :: 0 <= i < |chosen| && chosen[i] !in r && 0 <= k < |r| ==> LastSeen(chosen[i]) <= LastSeen(r[k])
    ensures forall j, k :: 0 <= j < |sessions| && Eligible(sessions[j], activeOnly) && sessions[j] !in r && 0 <= k < |r|
              ==> sessions[j].lastSeen <= r[k].lastSeen
  {
    forall j, k | 0 <= j < |sessions| && Eligible(sessions[j], activeOnly) && sessions[j] !in r && 0 <= k < |r|
      ensures sessions[j].lastSeen <= r[k].lastSeen
    {
      var m :| 0 <= m < |chosen| && chosen[m] == sessions[j];
      assert LastSeen(chosen[m]) <= LastSeen(r[k]);
    }
  }

  /** A sub-multiset of the same size holds every element. */
  lemma TakeAllWhenShort<T>(chosen: seq<T>, r: seq<T>)
    requires multiset(r) <= multiset(chosen) && |r| == |chosen|
    ensures forall x :: x in chosen ==> x in r
  {
    assert |multiset(r)| == |multiset(chosen)|;
    var d := multiset(chosen) - multiset(r);
    assert multiset(chosen) == multiset(r) + d;
    assert |d| == 0;
    assert multiset(r) == multiset(chosen);
    forall x | x in chosen ensures x in r {
      assert x in multiset(chosen);
    }
  }

  function ViewSession(s: AccessSession): SessionView {
    SessionView(s.id, s.plateNumber, s.entryTime, s.lastSeen, s.exitTime, s.status)
  }

  /** GET /sessions: the selected sessions, projected. */
  function ListSessions(sessions: seq<AccessSession>, activeOnly: bool): (r: seq<SessionView>)
    ensures |r| == |SelectSessions(sessions, activeOnly)|
    ensures forall i :: 0 <= i < |r| ==> r[i] == ViewSession(SelectSessions(sessions, activeOnly)[i])
  {
    var rows := SelectSessions(sessions, activeOnly);
    seq(|rows|, i requires 0 <= i < |rows| => ViewSession(rows[i]))
  }

  /**
   * GET /sessions lists at most 500 sessions, most recently seen first, and
   * with `active_only` only active ones.
   */
  lemma ListSessionsShape(sessions: seq<AccessSession>, activeOnly: bool)
    ensures var r := ListSessions(sessions, activeOnly);
            && |r| <= SessionListLimit
            && (activeOnly ==> forall i :: 0 <= i < |r| ==> r[i].status == Active)
            && forall i, j :: 0 <= i < j < |r| ==> r[i].lastSeen >= r[j].lastSeen
  {
    var rows := SelectSessions(sessions, activeOnly);
    var r := ListSessions(sessions, activeOnly);
    assert forall i :: 0 <= i < |r| ==> r[i].status == rows[i].status && r[i].lastSeen == rows[i].lastSeen;
  }

  /**
   * The rows `list_detections(limit)` selects: newest first, at most
   * `limit` (a negative limit means no bound, as in SQLite). A detection
   * left out is no newer than any detection shown.
   */
  function SelectDetections(detections: seq<Detection>, limit: int): (r: seq<Detection>)
    ensures limit >= 0 ==> |r| <= limit
    ensures |r| == if 0 <= limit < |detections| then limit else |detections|
    ensures forall i, j :: 0 <= i < j < |r| ==> r[i].timestamp >= r[j].timestamp
    ensures multiset(r) <= multiset(detections)
    ensures forall j, k :: 0 <= j < |detections| && detections[j] !in r && 0 <= k < |r|
              ==> detections[j].timestamp <= r[k].timestamp
  {
    var r := NewestFirst(detections, Timestamp, limit);
    assert forall j, k :: 0 <= j < |detections| && detections[j] !in r && 0 <= k < |r|
              ==> Timestamp(detections[j]) <= Timestamp(r[k]);
    r
  }

  function ViewDetection(d: Detection): DetectionView {
    DetectionView(d.id, d.sessionId, d.timestamp, d.ocrText, d.confidence, d.imagePath)
  }

  /** GET /detections: the selected detections, projected. */
  function ListDetections(detections: seq<Detection>, limit: int): (r: seq<DetectionView>)
    ensures |r| == |SelectDetections(detections, limit)|
    ensures forall i :: 0 <= i < |r| ==> r[i] == ViewDetection(SelectDetections(detections, limit)[i])
    ensures limit >= 0 ==> |r| <= limit
    ensures forall i, j :: 0 <= i < j < |r| ==> r[i].timestamp >= r[j].timestamp
  {
    var rows := SelectDetections(detections, limit);
    var r := seq(|rows|, i requires 0 <= i < |rows| => ViewDetection(rows[i]));
    assert forall i :: 0 <= i < |r| ==> r[i].timestamp == rows[i].timestamp;
    r
  }

  function ViewResident(r: Resident): ResidentView {
    ResidentView(r.id, r.plateNumber, r.residentName, r.apartmentNo, r.phone)
  }

  /** GET /residents: every resident, in table order, without the notes. */
  function ListResidents(residents: seq<Resident>): (r: seq<ResidentView>)
    ensures |r| == |residents|
    ensures forall i :: 0 <= i < |r| ==> r[i] == ViewResident(residents[i])
  {
    seq(|residents|, i requires 0 <= i < |residents| => ViewResident(residents[i]))
  }

  /**
   * A resident added by POST /residents appears once more at the end of the
   * listing, with the fields it was added with; the earlier entries stay.
   */
  lemma {:induction false} ListResidentsAfterAdd(residents: seq<Resident>, added: Resident)
    ensures ListResidents(residents + [added]) == ListResidents(residents) + [ViewResident(added)]
  {
    var l := ListResidents(residents + [added]);
    var m := ListResidents(residents) + [ViewResident(added)];
    assert |l| == |m|;
    forall i | 0 <= i < |l| ensures l[i] == m[i] {
      if i < |residents| {
        assert (residents + [added])[i] == residents[i];
      }
    }
  }

  /**
   * GET /detections without a `limit` lists the 100 newest detections, or
   * all of them when there are fewer.
   */
  lemma DefaultDetectionListing(detections: seq<Detection>)
    ensures var r := ListDetections(detections, DefaultDetectionLimit);
            && |r| == (if |detections| < 100 then |detections| else 100)
            && forall j, k ::
                 0 <= j < |detections| && detections[j] !in SelectDetections(detections, DefaultDetectionLimit) && 0 <= k < |r|
                 ==> detections[j].timestamp <= r[k].timestamp
  {
    var rows := SelectDetections(detections, DefaultDetectionLimit);
    var r := ListDetections(detections, DefaultDetectionLimit);
    assert forall k :: 0 <= k < |r| ==> r[k].timestamp == rows[k].timestamp;
  }

  /** GET /vehicles: the resident listing. */
  function ListVehicles(residents: seq<Resident>): (r: seq<ResidentView>)
    ensures r == ListResidents(residents)
  {
    ListResidents(residents)
  }

  /** GET /owners: the resident listing. */
  function ListOwners(residents: seq<Resident>): (r: seq<ResidentView>)
    ensures r == ListResidents(residents)
  {
    ListResidents(residents)
  }

  /** GET /verifications: every session, as GET /sessions lists them. */
  function ListVerifications(sessions: seq<AccessSession>): (r: seq<SessionView>)
    ensures r == ListSessions(sessions, false)
  {
    ListSessions(sessions, false)
  }
}
