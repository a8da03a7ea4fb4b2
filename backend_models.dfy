/**
 * Rows of the backend's four tables (access_sessions, detections,
 * owner_cache, residents) and the owner record that the excise lookup
 * returns. Timestamps are integers (seconds); nullable columns are Options.
 */
module Models {
  import opened Wrappers

  /** Session states stored in `access_sessions.status`. */
  const Active: string := "active"
  const Exited: string := "exited"

  /** One visit of a vehicle: opened on first sighting, closed by the sweep. */
  datatype AccessSession = AccessSession(
    id: int,
    plateNumber: string,
    entryTime: int,
    lastSeen: int,
    exitTime: Option<int>,
    status: string,
    ownerId: Option<int>)

  /** One plate reading, linked to the session it belongs to. */
  datatype Detection = Detection(
    id: int,
    sessionId: Option<int>,
    timestamp: int,
    ocrText: string,
    confidence: real,
    imagePath: string,
    cameraId: string)

  /**
   * The `raw_data` of an owner record. `json.dumps` is kept opaque: a dumped
   * value is the text `Dumped(v)`, distinct for distinct `v`.
   */
  datatype RawData =
    | MockSource          // the dict {"source": "mock"}
    | EmptyObject         // the dict {}
    | Body(text: string)  // the text of an excise-site response
    | Dumped(of: RawData) // json.dumps(of), as stored in owner_cache.raw_data

  /** The dict that lookup_plate returns. */
  datatype Owner = Owner(
    ownerName: Option<string>,
    vehicleModel: Option<string>,
    registrationDate: Option<string>,
    rawData: Option<RawData>)

  /** A cached excise answer; `plate_number` is unique in this table. */
  datatype OwnerCacheRow = OwnerCacheRow(
    id: int,
    plateNumber: string,
    ownerName: Option<string>,
    vehicleModel: Option<string>,
    registrationDate: Option<string>,
    rawData: Option<RawData>)

  /** A registered resident; `plate_number` is unique and not null. */
  datatype Resident = Resident(
    id: int,
    plateNumber: string,
    residentName: Option<string>,
    apartmentNo: Option<string>,
    phone: Option<string>,
    notes: Option<string>)

  function SessionIds(t: seq<AccessSession>): seq<int> {
    seq(|t|, i requires 0 <= i < |t| => t[i].id)
  }

  function DetectionIds(t: seq<Detection>): seq<int> {
    seq(|t|, i requires 0 <= i < |t| => t[i].id)
  }

  function CacheIds(t: seq<OwnerCacheRow>): seq<int> {
    seq(|t|, i requires 0 <= i < |t| => t[i].id)
  }

  function ResidentIds(t: seq<Resident>): seq<int> {
    seq(|t|, i requires 0 <= i < |t| => t[i].id)
  }

  function CachePlates(t: seq<OwnerCacheRow>): seq<string> {
    seq(|t|, i requires 0 <= i < |t| => t[i].plateNumber)
  }

  function ResidentPlates(t: seq<Resident>): seq<string> {
    seq(|t|, i requires 0 <= i < |t| => t[i].plateNumber)
  }
}
