/** The vitals client (src/services/vitalsService.ts): reading a patient's vital-sign
    Observations, and posting a new one with a bounded retry on gateway timeouts. Each network
    reply is an input: `reply(k)` is what the k-th POST of one `addVital` call yields. */
module VitalsService {
  import opened Common
  import opened Types

  // ---------------------------------------------------------------------------
  // Lookup tables

  /** FHIR unit codes for the units the UI offers. */
  const UnitCodes: map<string, string> :=
    map["°F" := "[degF]", "mmHg" := "mm[Hg]", "bpm" := "{beats}/min", "/min" := "/min", "%" := "%"]

  /** `unitCodes[unit] || unit`: the table's code, or the unit itself when it is not listed. */
  function UnitCode(unit: string): string {
    if unit in UnitCodes then UnitCodes[unit] else unit
  }

  /** The five listed units map to their UCUM codes, every other unit passes through, and
      looking a code up again changes nothing. */
  lemma UnitCodeTable(unit: string)
    ensures UnitCode("°F") == "[degF]" && UnitCode("mmHg") == "mm[Hg]"
    ensures UnitCode("bpm") == "{beats}/min" && UnitCode("/min") == "/min" && UnitCode("%") == "%"
    ensures unit !in {"°F", "mmHg", "bpm", "/min", "%"} ==> UnitCode(unit) == unit
    ensures UnitCode(UnitCode(unit)) == UnitCode(unit)
  {
  }

  datatype Coding = Coding(system: string, code: string, display: string)

  const Loinc: string := "http://loinc.org"

  /** LOINC codings per vital type. */
  const VitalTypeCodes: map<string, Coding> := map[
    "blood-pressure" := Coding(Loinc, "85354-9", "Blood pressure"),
    "heart-rate" := Coding(Loinc, "8867-4", "Heart rate"),
    "respiratory-rate" := Coding(Loinc, "9279-1", "Respiratory rate"),
    "temperature" := Coding(Loinc, "8310-5", "Body temperature"),
    "oxygen-saturation" := Coding(Loinc, "59408-5", "Oxygen saturation")]

  /** `codes[type]`: the coding of a listed vital type, `undefined` for any other type. */
  function CodeForVitalType(vitalType: string): Option<Coding> {
    if vitalType in VitalTypeCodes then Some(VitalTypeCodes[vitalType]) else None
  }

  /** The lookup is defined for exactly the five vital types, and every coding it gives is LOINC. */
  lemma CodeForVitalTypeDomain(vitalType: string)
    ensures CodeForVitalType(vitalType).Some? <==>
      vitalType in {"blood-pressure", "heart-rate", "respiratory-rate", "temperature", "oxygen-saturation"}
    ensures CodeForVitalType(vitalType).Some? ==> CodeForVitalType(vitalType).value.system == Loinc
    ensures CodeForVitalType("temperature") == Some(Coding(Loinc, "8310-5", "Body temperature"))
  {
  }

  // ---------------------------------------------------------------------------
  // Building the Observation

  /** What the form submits. */
  datatype VitalInput = VitalInput(patientId: string, vitalType: string, value: real, unit: string)

  /** The Observation resource `addVital` posts. */
  datatype Observation = Observation(
    resourceType: string,
    status: string,
    categoryCode: string,
    codeSystem: string,
    code: string,
    codeText: string,
    subjectReference: string,
    effectiveDateTime: string,
    value: real,
    unit: string,
    unitSystem: string,
    unitCode: string)

  /** The value to store: a temperature in degrees Fahrenheit becomes Celsius, `(v - 32) * 5 / 9`;
      anything else is kept. */
  function StoredValue(vitalType: string, unit: string, value: real): real {
    if vitalType == "temperature" && unit == "°F" then (value - 32.0) * 5.0 / 9.0 else value
  }

  /** The conversion happens exactly for a temperature given in °F, and then converting back
      to Fahrenheit recovers the input; in every other case the value is left alone. */
  lemma StoredValueConverts(vitalType: string, unit: string, value: real)
    ensures vitalType == "temperature" && unit == "°F" ==>
      StoredValue(vitalType, unit, value) * 9.0 / 5.0 + 32.0 == value
    ensures !(vitalType == "temperature" && unit == "°F") ==> StoredValue(vitalType, unit, value) == value
    ensures vitalType == "temperature" && unit == "°F" && value != -40.0 ==>
      StoredValue(vitalType, unit, value) != value
  {
  }

  /** Body temperature 98.6 °F is stored as 37 °C. */
  lemma NormalBodyTemperature()
    ensures StoredValue("temperature", "°F", 98.6) == 37.0
  {
  }

  /** `iso.split('.')[0] + '.000Z'`: the timestamp with its fractional part replaced by zero
      milliseconds in UTC. */
  function EffectiveDateTime(iso: string): string {
    Split(iso, '.')[0] + ".000Z"
  }

  /** The result ends in `.000Z`; what precedes it is the longest prefix of the input without a
      dot, so it is the whole input when the input has no dot and otherwise stops right before
      the first dot. */
  lemma EffectiveDateTimeShape(iso: string)
    ensures var r := EffectiveDateTime(iso);
      |r| >= 5 && r[|r| - 5..] == ".000Z" &&
      r[..|r| - 5] <= iso && '.' !in r[..|r| - 5] &&
      (|r| - 5 < |iso| ==> iso[|r| - 5] == '.') &&
      ('.' !in iso ==> r[..|r| - 5] == iso)
  {
    var r := EffectiveDateTime(iso);
    var p := Split(iso, '.')[0];
    assert r[..|r| - 5] == p && r[|r| - 5..] == ".000Z";
  }

  /** Builds the resource. Whatever the vital type, it is coded as LOINC 8331-1 (oral temperature)
      in degrees Celsius. */
  function BuildObservation(vital: VitalInput, isoNow: string): Observation {
    Observation(
      "Observation", "final", "vital-signs", Loinc, "8331-1", "Temperature Oral",
      "Patient/" + vital.patientId, EffectiveDateTime(isoNow),
      StoredValue(vital.vitalType, vital.unit, vital.value),
      "degC", "http://unitsofmeasure.org", "Cel")
  }

  /** Every submission is posted as LOINC 8331-1 in `Cel` for `Patient/<id>`. Two submissions
      that differ only in their vital type post the same resource apart from the value, and the
      same value too unless the unit is `°F`: the per-type tables above are not consulted. */
  lemma ObservationIgnoresVitalType(v: VitalInput, w: VitalInput, isoNow: string)
    requires v.patientId == w.patientId && v.value == w.value && v.unit == w.unit
    ensures BuildObservation(v, isoNow).codeSystem == Loinc
    ensures BuildObservation(v, isoNow).code == "8331-1" && BuildObservation(v, isoNow).unitCode == "Cel"
    ensures BuildObservation(v, isoNow).subjectReference == "Patient/" + v.patientId
    ensures BuildObservation(v, isoNow).(value := 0.0) == BuildObservation(w, isoNow).(value := 0.0)
    ensures v.unit != "°F" ==> BuildObservation(v, isoNow) == BuildObservation(w, isoNow)
  {
  }

  // ---------------------------------------------------------------------------
  // Posting with retries

  const MaxRetries: nat := 3
  const GatewayTimeout: nat := 504

  /** What one POST yields: a 2xx response, another status with its text and body (empty when
      the body could not be read), or a rejected fetch with its error message. */
  datatype PostOutcome =
    | Created
    | HttpStatus(status: nat, statusText: string, body: string)
    | NetworkError(message: string)

  /** `${status} ${statusText}`, followed by ` - ${body}` when the body is not empty. */
  function StatusLine(status: nat, statusText: string, body: string): string {
    DecimalString(status) + " " + statusText + (if body != "" then " - " + body else "")
  }

  /** The error the `catch` receives for a failed attempt that is not a 504 response: the
      "Failed to add vital" error thrown inside the `try` for another status, or fetch's own. */
  function Thrown(o: PostOutcome): Exception
    requires !o.Created?
  {
    match o
    case HttpStatus(s, t, b) => Error("Failed to add vital: " + StatusLine(s, t, b))
    case NetworkError(m) => Error(m)
  }

  /** Whether an attempt with this outcome is followed by another one when attempts remain:
      a 504 response, or a caught error whose message mentions "504". */
  predicate Retryable(o: PostOutcome) {
    match o
    case Created => false
    case HttpStatus(s, _, _) => s == GatewayTimeout || Contains(Thrown(o).message, "504")
    case NetworkError(m) => Contains(m, "504")
  }

  /** The message after the attempts are used up by 504 responses. */
  function ExhaustedMessage(lastError: string): string {
    "Failed to add vital after " + DecimalString(MaxRetries) + " attempts: " + lastError
  }

  /** How one `addVital` call ends: its result, how many POSTs it made, and the waits (ms) it
      made between them. */
  datatype Trace = Trace(result: Result<()>, posts: nat, delays: seq<nat>)

  /** The retry loop from attempt `attempt` on, one step per loop iteration. */
  function Run(reply: nat -> PostOutcome, attempt: nat, lastError: string, delays: seq<nat>): Trace
    requires attempt <= MaxRetries
    decreases MaxRetries - attempt
  {
    if attempt == MaxRetries then
      Trace(Fail(Error(ExhaustedMessage(lastError))), attempt, delays)
    else
      var o := reply(attempt);
      var next := attempt + 1;
      if o.Created? then
        Trace(Ok(()), next, delays)
      else if o.HttpStatus? && o.status == GatewayTimeout then
        Run(reply, next, StatusLine(o.status, o.statusText, o.body),
            if next < MaxRetries then delays + [1000 * next] else delays)
      else if next < MaxRetries && Contains(Thrown(o).message, "504") then
        Run(reply, next, Thrown(o).message, delays + [1000 * next])
      else
        Trace(Fail(Thrown(o)), next, delays)
  }

  /** Index of the last POST: the first outcome that is not retried, or the third. */
  function StopIndex(reply: nat -> PostOutcome, i: nat): (k: nat)
    requires i < MaxRetries
    ensures i <= k < MaxRetries
    ensures forall j :: i <= j < k ==> Retryable(reply(j))
    ensures k < MaxRetries - 1 ==> !Retryable(reply(k))
    decreases MaxRetries - i
  {
    if i == MaxRetries - 1 || !Retryable(reply(i)) then i else StopIndex(reply, i + 1)
  }

  /** The waits before POSTs 2 and 3: 1000 ms, then 2000 ms. */
  function Backoff(waits: nat): (delays: seq<nat>)
    requires waits < MaxRetries
    ensures |delays| == waits && forall j :: 0 <= j < waits ==> delays[j] == 1000 * (j + 1)
  {
    [1000, 2000][..waits]
  }

  /** The outcome of the call whose last POST had outcome `o`. */
  function FinalResult(o: PostOutcome): Result<()> {
    if o.Created? then Ok(())
    else if o.HttpStatus? && o.status == GatewayTimeout then
      Fail(Error(ExhaustedMessage(StatusLine(o.status, o.statusText, o.body))))
    else Fail(Thrown(o))
  }

  lemma {:induction false} RunFrom(reply: nat -> PostOutcome, i: nat, lastError: string)
    requires i < MaxRetries
    ensures var k := StopIndex(reply, i);
      Run(reply, i, lastError, Backoff(i)) == Trace(FinalResult(reply(k)), k + 1, Backoff(k))
    decreases MaxRetries - i
  {
    var o := reply(i);
    if i < MaxRetries - 1 && Retryable(o) {
      var next := i + 1;
      assert Backoff(i) + [1000 * next] == Backoff(next);
      if o.HttpStatus? && o.status == GatewayTimeout {
        RunFrom(reply, next, StatusLine(o.status, o.statusText, o.body));
      } else {
        RunFrom(reply, next, Thrown(o).message);
      }
    } else if o.HttpStatus? && o.status == GatewayTimeout {
      assert i == MaxRetries - 1;
      var line := StatusLine(o.status, o.statusText, o.body);
      assert Run(reply, i, lastError, Backoff(i)) == Run(reply, MaxRetries, line, Backoff(i));
    }
  }

  /** How `addVital` ends, for every sequence of replies: it POSTs until the first outcome that is
      not retried, or three times; it waits 1000 ms and 2000 ms before the second and third POST;
      it succeeds exactly on a 2xx; a final 504 gives the "after 3 attempts" error with that
      response's status line, and any other failure rethrows the caught error. */
  lemma AddVitalOutcome(reply: nat -> PostOutcome)
    ensures var k := StopIndex(reply, 0);
      Run(reply, 0, "", []) == Trace(FinalResult(reply(k)), k + 1, Backoff(k))
  {
    RunFrom(reply, 0, "");
  }

  /** The shape of every trace: one to three POSTs, the waits between them, success exactly
      when the last POST succeeded, and every earlier POST was retried. */
  lemma TraceShape(reply: nat -> PostOutcome)
    ensures var t := Run(reply, 0, "", []);
      1 <= t.posts <= MaxRetries && t.delays == Backoff(t.posts - 1) &&
      (t.result.Ok? <==> reply(t.posts - 1).Created?) &&
      (forall j :: 0 <= j < t.posts - 1 ==> Retryable(reply(j)) && !reply(j).Created?)
  {
    AddVitalOutcome(reply);
  }

  /** Three 504 responses in a row: three POSTs, waits of 1000 and 2000 ms, and the
      "after 3 attempts" error carrying the third response's status line. */
  lemma ThreeGatewayTimeouts(reply: nat -> PostOutcome)
    requires forall j :: 0 <= j < 3 ==> reply(j).HttpStatus? && reply(j).status == GatewayTimeout
    ensures var o := reply(2);
      Run(reply, 0, "", []) == Trace(
        Fail(Error("Failed to add vital after 3 attempts: " + StatusLine(504, o.statusText, o.body))),
        3, [1000, 2000])
  {
    assert reply(0).HttpStatus? && reply(1).HttpStatus? && reply(2).HttpStatus?;
    assert Retryable(reply(0)) && Retryable(reply(1));
    assert StopIndex(reply, 0) == 2;
    AddVitalOutcome(reply);
    var o := reply(2);
    var line := StatusLine(504, o.statusText, o.body);
    assert DecimalString(3) == "3";
    assert ExhaustedMessage(line) == "Failed to add vital after 3 attempts: " + line;
  }

  /** The message of a non-504 failure, split at its seams: every seam has a non-digit on one
      side, so "504" occurs in it exactly when it occurs in one of the pieces. */
  lemma StatusLineMentions504(status: nat, statusText: string, body: string)
    ensures Contains(StatusLine(status, statusText, body), "504") <==>
      Contains(DecimalString(status), "504") || Contains(statusText, "504") || Contains(body, "504")
  {
    var w := "504";
    assert AllDigits(w);
    var d := DecimalString(status);
    var tail := if body != "" then " - " + body else "";
    assert StatusLine(status, statusText, body) == d + " " + statusText + tail;
    ContainsDigitsAcrossSeam(d + " " + statusText, tail, w);
    ContainsDigitsAcrossSeam(d + " ", statusText, w);
    ContainsDigitsAcrossSeam(d, " ", w);
    NoDigitNoDigitRun(" ", w);
    if body != "" {
      assert HasNoDigit(" - ");
      ContainsDigitsAcrossSeam(" - ", body, w);
      NoDigitNoDigitRun(" - ", w);
    } else {
      NoDigitNoDigitRun(tail, w);
    }
  }

  /** The fixed text in front of the status line holds no digit. */
  lemma FailurePrefixMentionsNo504()
    ensures !Contains("Failed to add vital: ", "504")
  {
    assert AllDigits("504");
    assert HasNoDigit("Failed to add vital: ");
    NoDigitNoDigitRun("Failed to add vital: ", "504");
  }

  /** A failed response other than 504 is retried exactly when its status text or body mentions
      "504" (HTTP statuses are below 1000, and the status itself then cannot). */
  lemma HttpFailureRetriedIff(status: nat, statusText: string, body: string)
    requires status < 1000 && status != GatewayTimeout
    ensures Retryable(HttpStatus(status, statusText, body)) <==>
      Contains(statusText, "504") || Contains(body, "504")
  {
    var prefix := "Failed to add vital: ";
    var line := StatusLine(status, statusText, body);
    assert AllDigits("504");
    assert prefix[|prefix| - 1] == ' ';
    ContainsDigitsAcrossSeam(prefix, line, "504");
    FailurePrefixMentionsNo504();
    StatusLineMentions504(status, statusText, body);
    DecimalMentions504(status);
  }

  /** A first reply that is a non-504 failure whose text and body do not mention "504" (a plain
      500, say) fails at once: one POST, no wait, the "Failed to add vital" error. */
  lemma NonTimeoutFailsAtOnce(reply: nat -> PostOutcome)
    requires reply(0).HttpStatus? && reply(0).status < 1000 && reply(0).status != GatewayTimeout
    requires !Contains(reply(0).statusText, "504") && !Contains(reply(0).body, "504")
    ensures var o := reply(0);
      Run(reply, 0, "", []) == Trace(
        Fail(Error("Failed to add vital: " + StatusLine(o.status, o.statusText, o.body))), 1, [])
  {
    var o := reply(0);
    HttpFailureRetriedIff(o.status, o.statusText, o.body);
    AddVitalOutcome(reply);
  }

  /** `addVital`: builds the Observation for the submission at the instant `isoNow` (an ISO-8601
      timestamp), then runs the retry loop against the replies. It returns the resource it
      posts, its result, how many POSTs it made and the waits between them. */
  method AddVital(vital: VitalInput, isoNow: string, reply: nat -> PostOutcome)
    returns (observation: Observation, result: Result<()>, posts: nat, delays: seq<nat>)
    ensures observation == BuildObservation(vital, isoNow)
    ensures Trace(result, posts, delays) == Run(reply, 0, "", [])
    ensures 1 <= posts <= MaxRetries && delays == Backoff(posts - 1)
    ensures result.Ok? <==> reply(posts - 1).Created?
  {
    TraceShape(reply);
    observation := BuildObservation(vital, isoNow);
    var attempt: nat := 0;
    var lastError := "";
    delays := [];
    posts := 0;
    while attempt < MaxRetries
      invariant attempt <= MaxRetries && posts == attempt
      invariant Run(reply, attempt, lastError, delays) == Run(reply, 0, "", [])
    {
      var o := reply(attempt);
      posts := posts + 1;
      if o.Created? {
        result := Ok(());
        return;
      }
      if o.HttpStatus? && o.status == GatewayTimeout {
        lastError := StatusLine(o.status, o.statusText, o.body);
        attempt := attempt + 1;
        if attempt < MaxRetries {
          delays := delays + [1000 * attempt];
        }
      } else {
        // a non-504 status is thrown inside the try; the catch sees it like a fetch error
        var e := Thrown(o);
        lastError := e.message;
        attempt := attempt + 1;
        if attempt < MaxRetries && Contains(e.message, "504") {
          delays := delays + [1000 * attempt];
        } else {
          result := Fail(e);
          return;
        }
      }
    }
    result := Fail(Error(ExhaustedMessage(lastError)));
  }

  // ---------------------------------------------------------------------------
  // Reading vitals

  /** What the Observation search yields: a response with its status and its parsed JSON body
      (None when the body is not JSON), or a rejected fetch. */
  datatype SearchReply =
    | SearchResponse(ok: bool, status: nat, statusText: string, body: Option<VitalSignsResponse>)
    | SearchNetworkError(message: string)

  /** `entry.map(e => e.resource)`. */
  function EntryResources(entries: seq<BundleEntry>): (resources: seq<VitalSign>)
    ensures |resources| == |entries|
    ensures forall i :: 0 <= i < |entries| ==> resources[i] == entries[i].resource
  {
    if entries == [] then [] else [entries[0].resource] + EntryResources(entries[1..])
  }

  /** `getPatientVitals` once the search has answered. */
  function GetPatientVitals(reply: SearchReply): Result<seq<VitalSign>> {
    match reply
    case SearchNetworkError(m) => Fail(Error(m))
    case SearchResponse(ok, status, statusText, body) =>
      if !ok then
        Fail(Error("Failed to fetch vitals: " + DecimalString(status) + " " + statusText))
      else
        match body
        case None => Fail(SyntaxError)
        case Some(data) =>
          Ok(match data.entry
             case None => []
             case Some(entries) => EntryResources(entries))
  }

  /** "No vitals recorded" and "request failed" are told apart: a non-2xx status always fails
      with its status line; a 2xx bundle without `entry` gives the empty list; otherwise the
      entries' resources come back in order, one per entry. */
  lemma PatientVitalsOutcome(reply: SearchReply)
    ensures reply.SearchResponse? && !reply.ok ==>
      GetPatientVitals(reply) == Fail(Error("Failed to fetch vitals: " + DecimalString(reply.status) + " " + reply.statusText))
    ensures GetPatientVitals(reply).Ok? <==> reply.SearchResponse? && reply.ok && reply.body.Some?
    ensures reply.SearchResponse? && reply.ok && reply.body.Some? && reply.body.value.entry.None? ==>
      GetPatientVitals(reply) == Ok([])
    ensures reply.SearchResponse? && reply.ok && reply.body.Some? && reply.body.value.entry.Some? ==>
      var entries := reply.body.value.entry.value;
      var r := GetPatientVitals(reply).value;
      |r| == |entries| && forall i :: 0 <= i < |entries| ==> r[i] == entries[i].resource
  {
  }
}
