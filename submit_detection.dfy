/**
 * The `submit-detection` edge function: validates a detection report,
 * inserts the detection (fatal on failure), inserts an access-log entry
 * (best effort), looks the plate up among registered vehicles and answers.
 * Storage is a `Store` object; whether each storage request succeeds is an
 * input, so the partial-failure rules can be stated exactly.
 */
module SubmitDetection {
  import opened Wrappers
  import opened Seqs
  import opened Query
  import opened AsciiText
  import opened SupabaseRecords

  /**
   * The request's `plate_number`: absent or null, a string, or a JSON value
   * of another type (a number, boolean, object or array), with its
   * JavaScript truthiness.
   */
  datatype PlateValue = NoPlate | PlateText(text: string) | PlateOther(truthy: bool)

  /** The fields the handler reads from the JSON body; None is absent or null. */
  datatype Payload = Payload(
    plateNumber: PlateValue,
    imageUrl: Option<string>,
    confidenceScore: Option<real>,
    vehicleType: Option<string>,
    ownerName: Option<string>,
    verificationStatus: Option<string>)

  /** A value thrown inside the handler: an `Error` with its message, or any other value. */
  datatype Thrown = ErrorObject(message: string) | OtherValue

  /** The request body: JSON that failed to parse (with what `req.json()` threw), or a payload. */
  datatype Body = Unparsable(error: Thrown) | Json(payload: Payload)

  datatype Request = Request(verb: string, body: Body)

  /** The outcome storage gives one write request. */
  datatype Write = Accepted | Rejected(error: Thrown)

  /** How storage answers the three requests one call can make. */
  datatype StoreFaults = StoreFaults(detectionInsert: Write, accessLogInsert: Write, vehicleQueryFails: bool)

  datatype ResponseBody =
    | PlainOk                                  // 'ok'
    | MissingPlate                             // {"error": "plate_number is required"}
    | Failure(error: string)                   // {"error": message}
    | Success(detection: DetectionRecord, isResident: bool, residentInfo: Option<Vehicle>)

  datatype Response = Response(status: int, body: ResponseBody, headers: map<string, string>)

  const CorsHeaders: map<string, string> := map[
    "Access-Control-Allow-Origin" := "*",
    "Access-Control-Allow-Headers" := "authorization, x-client-info, apikey, content-type"]

  const JsonHeaders: map<string, string> := CorsHeaders["Content-Type" := "application/json"]

  const UnknownErrorMessage: string := "Unknown error occurred"

  /** What V8 throws for `plate_number.toUpperCase()` when the value is not a string. */
  const NotAFunctionMessage: string := "plate_number.toUpperCase is not a function"

  /** JavaScript truthiness of `plate_number`. */
  predicate IsFalsy(p: PlateValue) {
    p.NoPlate? || p == PlateText("") || p == PlateOther(false)
  }

  /** `v || null` for a string field: the empty string becomes null too. */
  function TextOrNull(v: Option<string>): (r: Option<string>)
    ensures r.Some? <==> v.Some? && v.value != ""
    ensures r.Some? ==> r == v
  {
    if v.Some? && v.value != "" then v else None
  }

  /** `v || null` for a number field: zero becomes null too. */
  function NumberOrNull(v: Option<real>): (r: Option<real>)
    ensures r.Some? <==> v.Some? && v.value != 0.0
    ensures r.Some? ==> r == v
  {
    if v.Some? && v.value != 0.0 then v else None
  }

  /** `verification_status || 'Unknown'`. */
  function StatusOrUnknown(v: Option<string>): (s: string)
    ensures s != ""
    ensures v.Some? && v.value != "" ==> s == v.value
    ensures !(v.Some? && v.value != "") ==> s == "Unknown"
  {
    if v.Some? && v.value != "" then v.value else "Unknown"
  }

  /** `error instanceof Error ? error.message : 'Unknown error occurred'`. */
  function ErrorText(t: Thrown): (m: string)
    ensures t.ErrorObject? ==> m == t.message
    ensures t.OtherValue? ==> m == "Unknown error occurred"
  {
    match t
    case ErrorObject(m) => m
    case OtherValue => UnknownErrorMessage
  }

  /** The detection row inserted for a report with string plate `plate`. */
  function NewDetection(id: int, plate: string, p: Payload, now: int): (d: DetectionRecord)
    requires IsAscii(plate)
    ensures d.id == id && d.detectionTime == now
    ensures |d.plateNumber| == |plate| && forall i :: 0 <= i < |plate| ==> !IsLowerLetter(d.plateNumber[i])
    ensures d.plateNumber == Upper(plate)
    ensures d.verificationStatus == StatusOrUnknown(p.verificationStatus)
    ensures d.imageUrl == TextOrNull(p.imageUrl) && d.vehicleType == TextOrNull(p.vehicleType)
    ensures d.ownerName == TextOrNull(p.ownerName) && d.confidenceScore == NumberOrNull(p.confidenceScore)
  {
    DetectionRecord(id, Upper(plate), TextOrNull(p.imageUrl), NumberOrNull(p.confidenceScore), now,
                    TextOrNull(p.vehicleType), TextOrNull(p.ownerName), StatusOrUnknown(p.verificationStatus))
  }

  /** The audit text; it quotes the plate as sent, before upper-casing. */
  function StatusMessage(plate: string, status: Option<string>): (m: string)
    ensures |m| == 8 + |plate| + 20 + |StatusOrUnknown(status)|
    ensures m[..8] == "Vehicle " && m[8..8 + |plate|] == plate
    ensures m[8 + |plate|..8 + |plate| + 20] == " detected - Status: "
    ensures m[8 + |plate| + 20..] == StatusOrUnknown(status)
  {
    "Vehicle " + plate + " detected - Status: " + StatusOrUnknown(status)
  }

  /** The test of `.eq('plate_number', plate)`. */
  function PlateIs(plate: string): Vehicle -> bool {
    (v: Vehicle) => v.plateNumber == plate
  }

  /** The vehicles whose plate is exactly `plate`, in table order. */
  function VehiclesWithPlate(vehicles: seq<Vehicle>, plate: string): (r: seq<Vehicle>)
    ensures forall i :: 0 <= i < |r| ==> r[i] in vehicles && r[i].plateNumber == plate
    ensures forall i :: 0 <= i < |vehicles| && vehicles[i].plateNumber == plate ==> vehicles[i] in r
  {
    Filter(vehicles, PlateIs(plate))
  }

  /**
   * `.from('vehicles').select('*').eq('plate_number', plate).single()`: the
   * data is the row when exactly one row matches and null otherwise.
   */
  function SingleVehicle(vehicles: seq<Vehicle>, plate: string): (r: Option<Vehicle>)
    ensures r.Some? <==> |VehiclesWithPlate(vehicles, plate)| == 1
    ensures r.Some? ==> r.value in vehicles && r.value.plateNumber == plate
    ensures r.Some? ==> forall i :: 0 <= i < |vehicles| && vehicles[i].plateNumber == plate ==> vehicles[i] == r.value
  {
    var matches := VehiclesWithPlate(vehicles, plate);
    if |matches| == 1 then Some(matches[0]) else None
  }

  /**
   * When registered plates are unique, a registered plate is always reported
   * as a resident with its own row, and an unregistered one never is.
   */
  lemma {:induction false} UniquePlateIsFound(vehicles: seq<Vehicle>, plate: string)
    requires Distinct(VehiclePlates(vehicles))
    ensures SingleVehicle(vehicles, plate).Some? <==> plate in VehiclePlates(vehicles)
    ensures forall i :: 0 <= i < |vehicles| && vehicles[i].plateNumber == plate ==>
              SingleVehicle(vehicles, plate) == Some(vehicles[i])
  {
    CountMatches(vehicles, plate);
  }

  lemma {:induction false} CountMatches(vehicles: seq<Vehicle>, plate: string)
    requires Distinct(VehiclePlates(vehicles))
    ensures |VehiclesWithPlate(vehicles, plate)| == if plate in VehiclePlates(vehicles) then 1 else 0
  {
    if vehicles != [] {
      assert VehiclePlates(vehicles[1..]) == VehiclePlates(vehicles)[1..];
      assert Distinct(VehiclePlates(vehicles[1..])) by {
        var ps := VehiclePlates(vehicles);
        forall i, j | 0 <= i < j < |ps| - 1 ensures ps[1..][i] != ps[1..][j] {
          assert ps[i + 1] != ps[j + 1];
        }
      }
      CountMatches(vehicles[1..], plate);
      if vehicles[0].plateNumber == plate {
        assert VehiclePlates(vehicles)[0] == plate;
      } else {
        assert plate in VehiclePlates(vehicles) <==> plate in VehiclePlates(vehicles[1..]) by {
          if plate in VehiclePlates(vehicles) {
            var k :| 0 <= k < |vehicles| && VehiclePlates(vehicles)[k] == plate;
            assert k != 0;
            assert VehiclePlates(vehicles[1..])[k - 1] == plate;
          }
        }
      }
    }
  }

  /** The request gets past validation and upper-casing: not OPTIONS, parsed, a non-empty string plate. */
  predicate Proceeds(req: Request) {
    req.verb != "OPTIONS" && req.body.Json? && req.body.payload.plateNumber.PlateText?
    && req.body.payload.plateNumber.text != ""
  }

  /** Case mapping is modelled on ASCII plates only. */
  predicate AsciiPlate(req: Request) {
    req.body.Json? && req.body.payload.plateNumber.PlateText? ==> IsAscii(req.body.payload.plateNumber.text)
  }

  class Store {
    var detections: seq<DetectionRecord>
    var accessLogs: seq<AccessLog>
    var vehicles: seq<Vehicle>

    /** Identifiers are unique in both tables the endpoint writes. */
    ghost predicate Valid()
      reads this
    {
      Distinct(DetectionRecordIds(detections)) && Distinct(AccessLogIds(accessLogs))
    }

    constructor (registered: seq<Vehicle>)
      ensures Valid()
      ensures detections == [] && accessLogs == [] && vehicles == registered
    {
      detections, accessLogs, vehicles := [], [], registered;
    }

    /** One invocation of the handler at time `now`. */
    method Serve(req: Request, faults: StoreFaults, now: int) returns (resp: Response)
      requires Valid()
      requires AsciiPlate(req)
      modifies this`detections, this`accessLogs
      ensures Valid()
      ensures vehicles == old(vehicles)
      // pre-flight: 'ok' with the CORS headers, no table touched
      ensures req.verb == "OPTIONS" ==>
                resp == Response(200, PlainOk, CorsHeaders)
                && detections == old(detections) && accessLogs == old(accessLogs)
      // every other response is JSON with the CORS headers
      ensures req.verb != "OPTIONS" ==> resp.headers == JsonHeaders
      // every failure happens before the first write, or is the first write
      ensures !Proceeds(req) || faults.detectionInsert.Rejected? ==>
                detections == old(detections) && accessLogs == old(accessLogs)
      ensures req.verb != "OPTIONS" && req.body.Unparsable? ==>
                resp.status == 500 && resp.body == Failure(ErrorText(req.body.error))
      // a falsy plate_number is rejected; a whitespace-only string is not falsy
      ensures req.verb != "OPTIONS" && req.body.Json? && IsFalsy(req.body.payload.plateNumber) ==>
                resp.status == 400 && resp.body == MissingPlate
      ensures req.verb != "OPTIONS" && req.body.Json? && req.body.payload.plateNumber == PlateOther(true) ==>
                resp.status == 500 && resp.body == Failure(NotAFunctionMessage)
      // a failed detection insert is fatal: 500 with its message
      ensures Proceeds(req) && faults.detectionInsert.Rejected? ==>
                resp.status == 500 && resp.body == Failure(ErrorText(faults.detectionInsert.error))
      // otherwise exactly one detection is stored; one log entry is attempted and its
      // failure is ignored; the answer reports the single matching vehicle, if any
      ensures Proceeds(req) && faults.detectionInsert.Accepted? ==>
                var plate := req.body.payload.plateNumber.text;
                var d := NewDetection(FreshId(DetectionRecordIds(old(detections))), plate, req.body.payload, now);
                var resident := if faults.vehicleQueryFails then None else SingleVehicle(vehicles, Upper(plate));
                && detections == old(detections) + [d]
                && accessLogs == (if faults.accessLogInsert.Accepted?
                                  then old(accessLogs) + [AccessLog(FreshId(AccessLogIds(old(accessLogs))), d.id, now,
                                                                    StatusMessage(plate, req.body.payload.verificationStatus))]
                                  else old(accessLogs))
                && resp == Response(200, Success(d, resident.Some?, resident), JsonHeaders)
    {
      if req.verb == "OPTIONS" {
        return Response(200, PlainOk, CorsHeaders);
      }
      if req.body.Unparsable? {
        return Response(500, Failure(ErrorText(req.body.error)), JsonHeaders);
      }
      var payload := req.body.payload;
      if IsFalsy(payload.plateNumber) {
        return Response(400, MissingPlate, JsonHeaders);
      }
      if !payload.plateNumber.PlateText? {
        // `toUpperCase` is not a method of the value: a TypeError, caught below
        return Response(500, Failure(NotAFunctionMessage), JsonHeaders);
      }
      var plate := payload.plateNumber.text;

      var detection := NewDetection(FreshId(DetectionRecordIds(detections)), plate, payload, now);
      if faults.detectionInsert.Rejected? {
        return Response(500, Failure(ErrorText(faults.detectionInsert.error)), JsonHeaders);
      }
      FreshIdKeepsDistinct(DetectionRecordIds(detections));
      assert DetectionRecordIds(detections + [detection]) == DetectionRecordIds(detections) + [detection.id];
      detections := detections + [detection];

      var log := AccessLog(FreshId(AccessLogIds(accessLogs)), detection.id, now,
                           StatusMessage(plate, payload.verificationStatus));
      if faults.accessLogInsert.Accepted? {
        FreshIdKeepsDistinct(AccessLogIds(accessLogs));
        assert AccessLogIds(accessLogs + [log]) == AccessLogIds(accessLogs) + [log.id];
        accessLogs := accessLogs + [log];
      }
      // a failed log insert is only reported on the console

      var resident := if faults.vehicleQueryFails then None else SingleVehicle(vehicles, Upper(plate));
      resp := Response(200, Success(detection, resident.Some?, resident), JsonHeaders);
    }
  }
}
