/** The server-side Firestore triggers of functions/index.js: the workout
    validator, the per-user write rate limit with its audit log, and the
    account-suspension alert. Documents are maps from field names to
    JavaScript values; the server clock, the request's IP address and the
    size of the audit query are parameters or derived from the modelled
    audit log. */
module CloudFunctions {
  import opened Common

  /** The values a Firestore document field can hold, as JavaScript sees
      them. `ServerTimestamp` is the `FieldValue.serverTimestamp()` sentinel. */
  datatype JsValue =
    | JNumber(x: real)
    | JNaN
    | JString(s: string)
    | JBool(b: bool)
    | JNull
    | JArray(items: seq<JsValue>)
    | JObject(fields: map<string, JsValue>)
    | ServerTimestamp

  type Doc = map<string, JsValue>

  /** JavaScript truthiness. */
  predicate Truthy(v: JsValue)
  {
    match v
    case JNumber(x) => x != 0.0
    case JNaN => false
    case JString(s) => s != ""
    case JBool(b) => b
    case JNull => false
    case _ => true
  }

  // ---------------------------------------------------------------------
  // validateWorkoutData

  const REQUIRED_FIELDS: seq<string> := ["id", "date", "durationSeconds", "exercises", "totalVolume"]

  datatype Rejection = MissingField(field: string) | InvalidDuration | InvalidVolume

  /** What the trigger does: nothing for a deletion, nothing (returning
      null) for a rejected document, or an update of the written document.
      `OwnWrite` (nothing, for the trigger's own update) is only produced by
      the corrected validator. */
  datatype Validation = AllowDeletion | Rejected(why: Rejection) | Update(fields: Doc) | OwnWrite

  /** The fields the validator writes back. */
  const VALIDATED_FIELDS: Doc := map["validatedAt" := ServerTimestamp, "serverValidated" := JBool(true)]

  /** `typeof v !== 'number' || v < 0` fails; NaN is a number and is not
      below zero. */
  predicate NonNegativeNumber(v: JsValue)
  {
    (v.JNumber? && v.x >= 0.0) || v.JNaN?
  }

  /** The first required field the document lacks. */
  function FirstMissing(fields: seq<string>, data: Doc): (r: Option<string>)
    ensures r.None? <==> forall i :: 0 <= i < |fields| ==> fields[i] in data
    ensures r.Some? ==> exists i :: (0 <= i < |fields| && fields[i] == r.value && r.value !in data
                                     && forall j :: 0 <= j < i ==> fields[j] in data)
  {
    if fields == [] then None
    else if fields[0] !in data then Some(fields[0])
    else
      var r := FirstMissing(fields[1..], data);
      if r.Some? then
        var i :| 0 <= i < |fields[1..]| && fields[1..][i] == r.value && r.value !in data
          && forall j :: 0 <= j < i ==> fields[1..][j] in data;
        assert fields[i + 1] == r.value;
        r
      else r
  }

  /** The validator's decision for the document after the write (`None`
      for a deletion). */
  function Validate(after: Option<Doc>): (v: Validation)
    ensures after.None? <==> v == AllowDeletion
    ensures v != OwnWrite
    ensures v.Update? ==> v.fields == VALIDATED_FIELDS
  {
    if after.None? then AllowDeletion
    else
      var data := after.value;
      match FirstMissing(REQUIRED_FIELDS, data)
      case Some(f) => Rejected(MissingField(f))
      case None =>
        assert REQUIRED_FIELDS[2] == "durationSeconds" && REQUIRED_FIELDS[4] == "totalVolume";
        if !NonNegativeNumber(data["durationSeconds"]) then Rejected(InvalidDuration)
        else if !NonNegativeNumber(data["totalVolume"]) then Rejected(InvalidVolume)
        else Update(VALIDATED_FIELDS)
  }

  /** A document is accepted exactly when it has every required field and
      a non-negative duration and volume; an accepted one is marked as
      validated by the server. */
  lemma ValidateAccepts(data: Doc)
    ensures Validate(Some(data)).Update? <==>
      (forall f :: f in REQUIRED_FIELDS ==> f in data)
      && NonNegativeNumber(data["durationSeconds"]) && NonNegativeNumber(data["totalVolume"])
    ensures Validate(Some(data)).Update? ==> Validate(Some(data)).fields["serverValidated"] == JBool(true)
  {
    var m := FirstMissing(REQUIRED_FIELDS, data);
    if m.None? {
      assert forall f :: f in REQUIRED_FIELDS ==> f in data by {
        forall f | f in REQUIRED_FIELDS ensures f in data {
          var i :| 0 <= i < |REQUIRED_FIELDS| && REQUIRED_FIELDS[i] == f;
        }
      }
    }
  }

  /** A document that lacks a required field is rejected, naming the first
      one missing, and is left without an update. */
  lemma ValidateRejectsMissing(data: Doc, f: string)
    requires f in REQUIRED_FIELDS && f !in data
    ensures Validate(Some(data)).Rejected? && Validate(Some(data)).why.MissingField?
    ensures Validate(Some(data)).why.field in REQUIRED_FIELDS && Validate(Some(data)).why.field !in data
  {
    var i :| 0 <= i < |REQUIRED_FIELDS| && REQUIRED_FIELDS[i] == f;
  }

  /** The trigger as written: the loop over the required fields returns at
      the first missing one, then the two range checks. */
  method ValidateWorkoutData(after: Option<Doc>) returns (v: Validation)
    ensures v == Validate(after)
  {
    if after.None? {
      return AllowDeletion;
    }
    var data := after.value;
    for i := 0 to |REQUIRED_FIELDS|
      invariant FirstMissing(REQUIRED_FIELDS, data) == FirstMissing(REQUIRED_FIELDS[i..], data)
    {
      assert REQUIRED_FIELDS[i..][1..] == REQUIRED_FIELDS[i + 1..];
      if REQUIRED_FIELDS[i] !in data {
        return Rejected(MissingField(REQUIRED_FIELDS[i]));
      }
    }
    assert REQUIRED_FIELDS[2] == "durationSeconds" && REQUIRED_FIELDS[4] == "totalVolume";
    if !NonNegativeNumber(data["durationSeconds"]) {
      return Rejected(InvalidDuration);
    }
    if !NonNegativeNumber(data["totalVolume"]) {
      return Rejected(InvalidVolume);
    }
    return Update(VALIDATED_FIELDS);
  }

  /** The validator's own update is a write to the same document, so it
      fires the trigger again, and the updated document is accepted again:
      each run asks for another run. */
  lemma ValidateRetriggers(data: Doc)
    requires Validate(Some(data)).Update?
    ensures Validate(Some(data + VALIDATED_FIELDS)).Update?
  {
    ValidateAccepts(data);
    ValidateAccepts(data + VALIDATED_FIELDS);
  }

  /** The fields a client write is judged on: everything but the two the
      validator writes. */
  function ClientFields(d: Doc): Doc
  {
    d - {"validatedAt", "serverValidated"}
  }

  /** The validator as evidently intended: a write that changes no client
      field (its own update) is left alone; every other write is judged as
      before. */
  function ValidateWrite(before: Option<Doc>, after: Option<Doc>): (v: Validation)
    ensures before.Some? && after.Some? && ClientFields(after.value) == ClientFields(before.value) ==> v == OwnWrite
    ensures !(before.Some? && after.Some? && ClientFields(after.value) == ClientFields(before.value)) ==> v == Validate(after)
  {
    if before.Some? && after.Some? && ClientFields(after.value) == ClientFields(before.value) then
      OwnWrite
    else Validate(after)
  }

  /** With the intended check the chain stops: the write the validator
      makes after accepting a client document triggers no further update. */
  lemma ValidateWriteStops(before: Option<Doc>, data: Doc)
    requires ValidateWrite(before, Some(data)).Update?
    ensures !ValidateWrite(Some(data), Some(data + VALIDATED_FIELDS)).Update?
  {
    assert ClientFields(data + VALIDATED_FIELDS) == ClientFields(data);
  }

  // ---------------------------------------------------------------------
  // checkRateLimit and the audit log

  const WINDOW_MS: int := 60 * 1000
  const MAX_WRITES: nat := 100

  datatype AuditRecord = AuditRecord(action: string, collection: string, documentId: string, timestamp: int, ipAddress: string)

  datatype RateDecision = Skipped | Exhausted | Logged

  /** The messages of the `HttpsError` thrown on an exhausted limit. */
  const EXHAUSTED_CODE: string := "resource-exhausted"
  const EXHAUSTED_TEXT: string := "Rate limit exceeded. Too many requests."

  /** `change.after.data()?.serverValidated` */
  predicate ServerValidated(after: Option<Doc>)
  {
    after.Some? && "serverValidated" in after.value && Truthy(after.value["serverValidated"])
  }

  /** The audit records strictly newer than the window start. */
  function CountSince(records: seq<AuditRecord>, windowStart: int): (c: nat)
    ensures c <= |records|
  {
    if records == [] then 0
    else CountSince(records[..|records| - 1], windowStart) + (if records[|records| - 1].timestamp > windowStart then 1 else 0)
  }

  lemma CountSinceAppend(records: seq<AuditRecord>, r: AuditRecord, windowStart: int)
    ensures CountSince(records + [r], windowStart) == CountSince(records, windowStart) + (if r.timestamp > windowStart then 1 else 0)
  {
    assert (records + [r])[..|records + [r]| - 1] == records;
  }

  /** The decision of `checkRateLimit` given the user's audit records; the
      collection written to plays no part in it. */
  function RateCheck(records: seq<AuditRecord>, after: Option<Doc>, now: int): RateDecision
  {
    if after.None? || ServerValidated(after) then Skipped
    else if CountSince(records, now - WINDOW_MS) > MAX_WRITES then Exhausted
    else Logged
  }

  /** The per-user `audit` collections. */
  class AuditLog {
    var audit: map<string, seq<AuditRecord>>

    constructor (initial: map<string, seq<AuditRecord>>)
      ensures audit == initial
    {
      audit := initial;
    }

    function Records(userId: string): seq<AuditRecord>
      reads this
    {
      if userId in audit then audit[userId] else []
    }

    /** `checkRateLimit` for a write by `userId` to `collection/documentId`.
        `now` is the function's clock and `serverTime` the value the
        server timestamp resolves to; `ip` is `rawRequest?.ip`. */
    method CheckRateLimit(userId: string, collection: string, documentId: string, after: Option<Doc>,
                          now: int, serverTime: int, ip: Option<string>) returns (d: RateDecision)
      modifies this`audit
      ensures d == RateCheck(old(Records(userId)), after, now)
      ensures after.None? || ServerValidated(after) <==> d == Skipped
      ensures d == Exhausted <==> d != Skipped && CountSince(old(Records(userId)), now - WINDOW_MS) > MAX_WRITES
      ensures d != Logged ==> audit == old(audit)
      ensures d == Logged ==>
        audit == old(audit)[userId := old(Records(userId)) + [AuditRecord("write", collection, documentId, serverTime,
                                          if ip.Some? && ip.value != "" then ip.value else "unknown")]]
    {
      if after.None? || ServerValidated(after) {
        return Skipped;
      }
      var windowStart := now - WINDOW_MS;
      var recent := CountSince(Records(userId), windowStart);
      if recent > MAX_WRITES {
        return Exhausted;
      }
      var address := if ip.Some? && ip.value != "" then ip.value else "unknown";
      audit := audit[userId := Records(userId) + [AuditRecord("write", collection, documentId, serverTime, address)]];
      return Logged;
    }
  }

  /** A logged write adds one record to the window it was checked against
      when its server time falls in that window, so a single run that
      passed the check leaves at most 101 records there. The audit write
      itself triggers further runs (see `Cascade`). */
  lemma LoggedWindowBound(records: seq<AuditRecord>, r: AuditRecord, windowStart: int)
    requires CountSince(records, windowStart) <= MAX_WRITES
    ensures CountSince(records + [r], windowStart) <= MAX_WRITES + 1
    ensures r.timestamp > windowStart ==> CountSince(records + [r], windowStart) == CountSince(records, windowStart) + 1
  {
    CountSinceAppend(records, r, windowStart);
  }

  /** The validator's own update carries `serverValidated: true`, so the
      rate limit never counts it. */
  lemma ValidatedUpdateSkipsRateLimit(data: Doc)
    requires Validate(Some(data)).Update?
    ensures ServerValidated(Some(data + Validate(Some(data)).fields))
  {
  }

  /** The subcollection the audit records go to. */
  const AUDIT_COLLECTION: string := "audit"

  /** The document `add` writes to `users/{userId}/audit`: the timestamp
      field holds the server timestamp, and there is no `serverValidated`
      field. */
  function AuditDoc(r: AuditRecord): Doc
  {
    map["action" := JString(r.action), "collection" := JString(r.collection),
        "documentId" := JString(r.documentId), "timestamp" := ServerTimestamp,
        "ipAddress" := JString(r.ipAddress)]
  }

  /** The audit document lies under `users/{userId}/{collection}/{documentId}`
      with collection "audit", so it fires `checkRateLimit` again, and that
      run is not skipped. */
  lemma AuditWriteNotSkipped(records: seq<AuditRecord>, r: AuditRecord, now: int)
    ensures !ServerValidated(Some(AuditDoc(r)))
    ensures RateCheck(records, Some(AuditDoc(r)), now) != Skipped
  {
    assert "serverValidated" !in AuditDoc(r);
  }

  /** `checkRateLimit` as evidently intended: a write to the audit
      collection is the function's own and is skipped. */
  function RateCheckFixed(collection: string, records: seq<AuditRecord>, after: Option<Doc>, now: int): (d: RateDecision)
    ensures collection == AUDIT_COLLECTION ==> d == Skipped
    ensures collection != AUDIT_COLLECTION ==> d == RateCheck(records, after, now)
  {
    if collection == AUDIT_COLLECTION then Skipped else RateCheck(records, after, now)
  }

  /** The user's audit records after a write to `collection/documentId`
      and the runs of `checkRateLimit` it sets off. A run that logs adds an
      audit document, itself a write under `users/{userId}`, whose generated
      id is the next of `autoIds`; the chain is followed for `|autoIds|`
      runs. The clock is held at `now`, every record is stamped
      `serverTime`, and the ip is 'unknown' (a Firestore trigger has no
      request). `fixed` selects the corrected check. */
  function Cascade(fixed: bool, records: seq<AuditRecord>, collection: string, documentId: string,
                   after: Option<Doc>, now: int, serverTime: int, autoIds: seq<string>): seq<AuditRecord>
    decreases |autoIds|
  {
    if autoIds == [] then records
    else
      var d := if fixed then RateCheckFixed(collection, records, after, now) else RateCheck(records, after, now);
      if d != Logged then records
      else
        var r := AuditRecord("write", collection, documentId, serverTime, "unknown");
        Cascade(fixed, records + [r], AUDIT_COLLECTION, autoIds[0], Some(AuditDoc(r)), now, serverTime, autoIds[1..])
  }

  /** As written, every audit record is a write that the rate limit logs
      again: while the window has room, following n runs of the chain adds
      n records, all inside the window. */
  lemma {:induction false} CascadeAsWrittenGrows(records: seq<AuditRecord>, collection: string, documentId: string,
                                                 after: Option<Doc>, now: int, serverTime: int, autoIds: seq<string>)
    requires after.Some? && !ServerValidated(after)
    requires serverTime > now - WINDOW_MS
    requires CountSince(records, now - WINDOW_MS) + |autoIds| <= MAX_WRITES + 1
    ensures |Cascade(false, records, collection, documentId, after, now, serverTime, autoIds)| == |records| + |autoIds|
    ensures CountSince(Cascade(false, records, collection, documentId, after, now, serverTime, autoIds), now - WINDOW_MS)
            == CountSince(records, now - WINDOW_MS) + |autoIds|
    decreases |autoIds|
  {
    if autoIds != [] {
      var r := AuditRecord("write", collection, documentId, serverTime, "unknown");
      CountSinceAppend(records, r, now - WINDOW_MS);
      AuditWriteNotSkipped(records + [r], r, now);
      CascadeAsWrittenGrows(records + [r], AUDIT_COLLECTION, autoIds[0], Some(AuditDoc(r)), now, serverTime, autoIds[1..]);
    }
  }

  /** With the corrected check the chain stops after its first run: a
      client write adds at most one audit record, however long the chain
      is followed, and the records already there are kept. */
  lemma CascadeFixedStops(records: seq<AuditRecord>, collection: string, documentId: string,
                          after: Option<Doc>, now: int, serverTime: int, autoIds: seq<string>)
    ensures var out := Cascade(true, records, collection, documentId, after, now, serverTime, autoIds);
      |records| <= |out| <= |records| + 1 && out[..|records|] == records
  {
    var out := Cascade(true, records, collection, documentId, after, now, serverTime, autoIds);
    if autoIds != [] && RateCheckFixed(collection, records, after, now) == Logged {
      var r := AuditRecord("write", collection, documentId, serverTime, "unknown");
      var rest := autoIds[1..];
      assert out == Cascade(true, records + [r], AUDIT_COLLECTION, autoIds[0], Some(AuditDoc(r)), now, serverTime, rest);
      assert out == records + [r] by {
        if rest != [] {
          assert RateCheckFixed(AUDIT_COLLECTION, records + [r], Some(AuditDoc(r)), now) == Skipped;
        }
      }
      assert out[..|records|] == records;
    }
  }

  // ---------------------------------------------------------------------
  // securityAlert

  /** `doc?.accountStatus === 'suspended'` */
  predicate Suspended(d: Option<Doc>)
  {
    d.Some? && "accountStatus" in d.value && d.value["accountStatus"] == JString("suspended")
  }

  /** The alert condition of `securityAlert`. */
  function SecurityAlert(before: Option<Doc>, after: Option<Doc>): (fires: bool)
    ensures fires ==> Suspended(after) && !Suspended(before)
    ensures !Suspended(before) && Suspended(after) ==> fires
  {
    !Suspended(before) && Suspended(after)
  }

  /** The alert fires on the transition into suspension only: the next
      update of a suspended account cannot raise it again. */
  lemma NoRepeatedAlert(a: Option<Doc>, b: Option<Doc>, c: Option<Doc>)
    requires SecurityAlert(a, b)
    ensures !SecurityAlert(b, c)
  {
  }

  /** The alerts along a run of updates. */
  function AlertCount(states: seq<Option<Doc>>): nat
  {
    if |states| < 2 then 0
    else AlertCount(states[..|states| - 1]) + (if SecurityAlert(states[|states| - 2], states[|states| - 1]) then 1 else 0)
  }

  /** Entries into suspension along a run. */
  function SuspensionCount(states: seq<Option<Doc>>): nat
  {
    if states == [] then 0
    else SuspensionCount(states[..|states| - 1]) + (if Suspended(states[|states| - 1]) then 1 else 0)
  }

  /** Along any run of updates the alerts never outnumber the states in
      which the account is suspended. */
  lemma {:induction false} AlertsBounded(states: seq<Option<Doc>>)
    ensures AlertCount(states) <= SuspensionCount(states)
  {
    if |states| >= 2 {
      var init := states[..|states| - 1];
      AlertsBounded(init);
      assert init[..|init| - 1] == states[..|states| - 2];
      assert init[|init| - 1] == states[|states| - 2];
    } else if |states| == 1 {
      assert AlertCount(states) == 0;
    }
  }
}
