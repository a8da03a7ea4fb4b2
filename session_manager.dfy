/**
 * Session tracking on values of the access_sessions table: the plate key,
 * the "at most one active session per plate" invariant, finding the active
 * session, and the timeout sweep. `Backend.Database` applies these to the
 * database.
 */
module SessionManager {
  import opened Wrappers
  import opened Query
  import opened AsciiText
  import opened Models

  /** ACTIVE_SESSION_TIMEOUT_SECONDS, at its default setting. */
  const ActiveTimeoutSeconds: int := 300

  /**
   * `(plate_text or "").upper().strip()`: the key under which a reading is
   * filed. Unlike `normalize_plate` it upper-cases before stripping and
   * keeps every character.
   */
  function SessionPlate(plateText: Option<string>): (p: string)
    requires plateText.Some? ==> IsAscii(plateText.value)
    ensures plateText.None? ==> p == ""
    ensures |p| <= |plateText.GetOr("")|
    ensures forall i :: 0 <= i < |p| ==> !IsLowerLetter(p[i])
    ensures p == [] || (!IsSpace(p[0]) && !IsSpace(p[|p| - 1]))
  {
    Strip(Upper(plateText.GetOr("")))
  }

  /**
   * The session key is the upper-cased text with its leading and trailing
   * whitespace removed and every other character kept, in place.
   */
  lemma SessionPlateContent(plateText: Option<string>)
    requires plateText.Some? ==> IsAscii(plateText.value)
    ensures var u := Upper(plateText.GetOr(""));
            var p := SessionPlate(plateText);
            && LeadingSpaces(u) + |p| <= |u|
            && WhitespaceOnly(u[..LeadingSpaces(u)])
            && p == u[LeadingSpaces(u)..LeadingSpaces(u) + |p|]
            && WhitespaceOnly(u[LeadingSpaces(u) + |p|..])
  {
  }

  predicate IsActiveFor(s: AccessSession, plate: string) {
    s.plateNumber == plate && s.status == Active
  }

  /** No plate has two active sessions. */
  ghost predicate AtMostOneActive(t: seq<AccessSession>) {
    forall i, j :: 0 <= i < j < |t| && t[i].status == Active && t[j].status == Active ==>
      t[i].plateNumber != t[j].plateNumber
  }

  /** The first active session for `plate`, or None when there is none. */
  function FindActive(t: seq<AccessSession>, plate: string): (r: Option<nat>)
    ensures r.Some? ==> r.value < |t| && IsActiveFor(t[r.value], plate)
    ensures r.Some? ==> forall i :: 0 <= i < r.value ==> !IsActiveFor(t[i], plate)
    ensures r.None? ==> forall i :: 0 <= i < |t| ==> !IsActiveFor(t[i], plate)
  {
    if t == [] then None
    else if IsActiveFor(t[0], plate) then Some(0)
    else
      match FindActive(t[1..], plate)
      case None => None
      case Some(i) => Some(i + 1)
  }

  /** Under the invariant, an active session for the plate is the one `FindActive` finds. */
  lemma FindActiveUnique(t: seq<AccessSession>, plate: string, k: nat)
    requires AtMostOneActive(t)
    requires k < |t| && IsActiveFor(t[k], plate)
    ensures FindActive(t, plate) == Some(k)
  {
  }

  /**
   * Replacing a session by one with the same id, plate and status keeps the
   * invariant and the keys: refreshing `last_seen` or setting `owner_id`.
   */
  lemma UpdateKeepsInvariant(t: seq<AccessSession>, k: nat, s: AccessSession)
    requires k < |t| && s.id == t[k].id && s.plateNumber == t[k].plateNumber && s.status == t[k].status
    ensures AtMostOneActive(t) ==> AtMostOneActive(t[k := s])
    ensures SessionIds(t[k := s]) == SessionIds(t)
  {
  }

  /** Opening an active session for a plate that has none keeps the invariant. */
  lemma OpenKeepsInvariant(t: seq<AccessSession>, s: AccessSession)
    requires AtMostOneActive(t)
    requires s.status == Active && FindActive(t, s.plateNumber).None?
    ensures AtMostOneActive(t + [s])
  {
    var u := t + [s];
    forall i, j | 0 <= i < j < |u| && u[i].status == Active && u[j].status == Active
      ensures u[i].plateNumber != u[j].plateNumber
    {
      if j == |t| {
        assert !IsActiveFor(t[i], s.plateNumber);
      } else {
        assert u[i] == t[i] && u[j] == t[j];
      }
    }
  }

  /**
   * One session after the sweep: closed when it was active and not seen
   * since `threshold`. The UPDATE that closes it also rewrites `last_seen`,
   * whose column is refreshed by the database clock on every update; that
   * clock is the sweep's `exitTime` here.
   */
  function Expire(s: AccessSession, threshold: int, exitTime: int): (e: AccessSession)
    // the row keeps its identity, plate, entry time and owner link
    ensures e.id == s.id && e.plateNumber == s.plateNumber && e.entryTime == s.entryTime && e.ownerId == s.ownerId
    ensures s.status == Active && s.lastSeen < threshold ==>
              e.status == Exited && e.exitTime == Some(exitTime) && e.lastSeen == exitTime
    ensures !(s.status == Active && s.lastSeen < threshold) ==> e == s
    // a session that is still active afterwards was seen at or after the threshold
    ensures e.status == Active ==> e.lastSeen >= threshold
  {
    if s.status == Active && s.lastSeen < threshold then s.(exitTime := Some(exitTime), lastSeen := exitTime, status := Exited)
    else s
  }

  /** The access_sessions table after `sweep_sessions`. */
  function Swept(t: seq<AccessSession>, threshold: int, exitTime: int): (r: seq<AccessSession>)
    ensures |r| == |t|
  {
    seq(|t|, i requires 0 <= i < |t| => Expire(t[i], threshold, exitTime))
  }

  /**
   * What the sweep does to each session: an active session last seen before
   * the threshold becomes exited, with its exit time and its `last_seen` set
   * to the sweep's clock and nothing else changed; every other session,
   * exited ones included, is left as it was.
   */
  lemma SweptEach(t: seq<AccessSession>, threshold: int, exitTime: int, i: nat)
    requires i < |t|
    ensures t[i].status == Active && t[i].lastSeen < threshold ==>
              Swept(t, threshold, exitTime)[i] == t[i].(exitTime := Some(exitTime), lastSeen := exitTime, status := Exited)
    ensures !(t[i].status == Active && t[i].lastSeen < threshold) ==>
              Swept(t, threshold, exitTime)[i] == t[i]
  {
  }

  /** After the sweep no active session is older than the threshold. */
  lemma SweptLeavesNoStale(t: seq<AccessSession>, threshold: int, exitTime: int)
    ensures forall i :: 0 <= i < |t| && Swept(t, threshold, exitTime)[i].status == Active ==>
              Swept(t, threshold, exitTime)[i].lastSeen >= threshold
  {
  }

  /** A second sweep with the same threshold changes nothing, whatever its exit time. */
  lemma SweptIdempotent(t: seq<AccessSession>, threshold: int, exitTime: int, laterExit: int)
    ensures Swept(Swept(t, threshold, exitTime), threshold, laterExit) == Swept(t, threshold, exitTime)
  {
  }

  /** The sweep keeps the invariant and the keys of every session. */
  lemma SweptKeepsInvariant(t: seq<AccessSession>, threshold: int, exitTime: int)
    ensures AtMostOneActive(t) ==> AtMostOneActive(Swept(t, threshold, exitTime))
    ensures SessionIds(Swept(t, threshold, exitTime)) == SessionIds(t)
  {
  }
}
