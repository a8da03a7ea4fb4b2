/**
 * Rows of the Supabase tables the ingestion endpoint and the dashboard use:
 * detections, access_logs and vehicles. Identifiers (UUIDs in the database)
 * are integers here; times are integers.
 */
module SupabaseRecords {
  import opened Wrappers

  /** One recorded detection, as stored and as the dashboard reads it. */
  datatype DetectionRecord = DetectionRecord(
    id: int,
    plateNumber: string,
    imageUrl: Option<string>,
    confidenceScore: Option<real>,
    detectionTime: int,
    vehicleType: Option<string>,
    ownerName: Option<string>,
    verificationStatus: string)

  /** An audit entry written after a detection. */
  datatype AccessLog = AccessLog(id: int, detectionId: int, timestamp: int, statusMessage: string)

  /** A registered vehicle, looked up by plate. */
  datatype Vehicle = Vehicle(
    id: int,
    plateNumber: string,
    vehicleType: Option<string>,
    ownerName: Option<string>,
    flatNumber: Option<string>,
    phone: Option<string>,
    isResident: bool,
    createdAt: int)

  function DetectionRecordIds(t: seq<DetectionRecord>): seq<int> {
    seq(|t|, i requires 0 <= i < |t| => t[i].id)
  }

  function AccessLogIds(t: seq<AccessLog>): seq<int> {
    seq(|t|, i requires 0 <= i < |t| => t[i].id)
  }

  function VehiclePlates(t: seq<Vehicle>): seq<string> {
    seq(|t|, i requires 0 <= i < |t| => t[i].plateNumber)
  }
}
