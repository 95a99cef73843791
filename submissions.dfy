/**
 * The in-memory submission controllers (founder pitches and seeker
 * applications): submit, upload a video, fetch one by id and list with a
 * status filter and pagination. Both controllers have the same structure; the
 * kind fixes the id prefix, the price and the messages.
 */
module Submissions {
  import opened Wrappers
  import opened Text
  import opened Kinds
  import Paging

  /** A value stored in a record: form fields are text, the clock gives times. */
  datatype Value = VStr(s: string) | VNull | VTime(ms: int)

  /** A stored submission, keyed by field name. */
  type Record = map<string, Value>

  datatype SubmitResponse = SubmitResponse(applicationId: string, orderId: string, amount: nat, message: string)

  /** An error answer: HTTP status and message. */
  datatype Failure = Failure(statusCode: nat, message: string)

  const PendingPayment: string := "pending_payment"
  const NoVideoMessage: string := "No video file provided"

  function IdPrefix(kind: Kind): string {
    match kind
    case Founder => "INC-FND-"
    case Seeker => "INC-SKR-"
  }

  /** The amount the response asks to be paid, in rupees. */
  function Price(kind: Kind): (p: nat)
    ensures p == if kind == Founder then 999 else 499
  {
    match kind
    case Founder => 999
    case Seeker => 499
  }

  function SubmitMessage(kind: Kind): string {
    match kind
    case Founder => "Pitch submitted successfully. Please complete payment."
    case Seeker => "Application submitted successfully. Please complete payment."
  }

  function NotFoundMessage(kind: Kind): string {
    match kind
    case Founder => "Pitch not found"
    case Seeker => "Application not found"
  }

  /** `INC-FND-<year>-<n padded to 4>` or `INC-SKR-<year>-<n padded to 4>`. */
  function ApplicationId(kind: Kind, year: nat, n: nat): (id: string)
    ensures StartsWith(id, IdPrefix(kind))
  {
    IdPrefix(kind) + NatToString(year) + "-" + PadStart(NatToString(n), 4, '0')
  }

  /** The serial part of an application id: the digits after the year. */
  function Serial(kind: Kind, year: nat, id: string): string
    requires |IdPrefix(kind) + NatToString(year) + "-"| <= |id|
  {
    id[|IdPrefix(kind) + NatToString(year) + "-"|..]
  }

  /**
   * The serial of an id reads back as the sequence number it was made from, has
   * at least four digits, and exactly four while the number stays below 10000.
   */
  lemma ApplicationIdSerial(kind: Kind, year: nat, n: nat)
    ensures var id := ApplicationId(kind, year, n);
      && |IdPrefix(kind) + NatToString(year) + "-"| <= |id|
      && AllDigits(Serial(kind, year, id))
      && DecimalValue(Serial(kind, year, id)) == n
      && |Serial(kind, year, id)| >= 4
      && (n < 10000 ==> |Serial(kind, year, id)| == 4)
  {
    var head := IdPrefix(kind) + NatToString(year) + "-";
    var tail := PadStart(NatToString(n), 4, '0');
    assert ApplicationId(kind, year, n) == head + tail;
    assert Serial(kind, year, head + tail) == tail;
    ZeroPaddedNumberRoundTrip(n, 4);
    if n < 10000 {
      NatToStringShort(n);
    }
  }

  /** The fifth character of an id names the kind. */
  lemma ApplicationIdKindLetter(kind: Kind, year: nat, n: nat)
    ensures var id := ApplicationId(kind, year, n);
      |id| > 4 && id[4] == (if kind == Founder then 'F' else 'S')
  {
    var p := IdPrefix(kind);
    var id := ApplicationId(kind, year, n);
    assert id[..|p|] == p;
    assert id[4] == id[..|p|][4];
  }

  /** Two submissions of one kind in one year get distinct ids; the two kinds never share one. */
  lemma ApplicationIdInjective(k1: Kind, y1: nat, n1: nat, k2: Kind, y2: nat, n2: nat)
    requires ApplicationId(k1, y1, n1) == ApplicationId(k2, y2, n2)
    ensures k1 == k2
    ensures y1 == y2 ==> n1 == n2
  {
    ApplicationIdKindLetter(k1, y1, n1);
    ApplicationIdKindLetter(k2, y2, n2);
    if y1 == y2 {
      ApplicationIdSerial(k1, y1, n1);
      ApplicationIdSerial(k2, y2, n2);
    }
  }

  /** The record stored for a submission: `{id, applicationId, ...body, videoUrl, status, createdAt, updatedAt}`. */
  function NewRecord(uuid: string, applicationId: string, body: map<string, string>,
                     storedFile: Option<string>, now: int): (r: Record)
    ensures "id" in r && r["id"] == VStr(if "id" in body then body["id"] else uuid)
    ensures "applicationId" in r
      && r["applicationId"] == VStr(if "applicationId" in body then body["applicationId"] else applicationId)
    ensures "status" in r && r["status"] == VStr(PendingPayment)
    ensures "videoUrl" in r && r["videoUrl"] == (if storedFile.Some? then VStr("/uploads/" + storedFile.value) else VNull)
    ensures "createdAt" in r && r["createdAt"] == VTime(now)
    ensures "updatedAt" in r && r["updatedAt"] == VTime(now)
    ensures forall k :: k in body && k !in FixedFields ==> k in r && r[k] == VStr(body[k])
    ensures r.Keys == body.Keys + {"id", "applicationId"} + FixedFields
  {
    map["id" := VStr(uuid), "applicationId" := VStr(applicationId)]
      + (map k | k in body :: VStr(body[k]))
      + map["videoUrl" := (if storedFile.Some? then VStr("/uploads/" + storedFile.value) else VNull),
            "status" := VStr(PendingPayment), "createdAt" := VTime(now), "updatedAt" := VTime(now)]
  }

  /** The fields a submission sets after the form body, which the body cannot override. */
  const FixedFields: set<string> := {"videoUrl", "status", "createdAt", "updatedAt"}

  /** `uploadVideo`: the public path of the stored file, or 400 when no file came. */
  function UploadVideo(storedFile: Option<string>): (r: Result<string, Failure>)
    ensures r.Err? <==> storedFile.None?
    ensures r.Err? ==> r.error == Failure(400, NoVideoMessage)
    ensures r.Ok? ==> r.value == "/uploads/" + storedFile.value
  {
    match storedFile
    case None => Err(Failure(400, NoVideoMessage))
    case Some(f) => Ok("/uploads/" + f)
  }

  /** A submission with a file records the same path `uploadVideo` answers with. */
  lemma SubmittedVideoUrlMatchesUpload(uuid: string, applicationId: string, body: map<string, string>,
                                       storedFile: Option<string>, now: int)
    ensures var r := NewRecord(uuid, applicationId, body, storedFile, now);
      match UploadVideo(storedFile)
      case Ok(url) => r["videoUrl"] == VStr(url)
      case Err(_) => r["videoUrl"] == VNull
  {
  }

  /** `a.id === id || a.applicationId === id` */
  predicate AnswersTo(r: Record, id: string) {
    ("id" in r && r["id"] == VStr(id)) || ("applicationId" in r && r["applicationId"] == VStr(id))
  }

  /** `find`: the first record answering to `id`. */
  function Find(records: seq<Record>, id: string): (r: Option<nat>)
    ensures r.Some? ==> r.value < |records| && AnswersTo(records[r.value], id)
    ensures r.Some? ==> forall j :: 0 <= j < r.value ==> !AnswersTo(records[j], id)
    ensures r.None? ==> forall j :: 0 <= j < |records| ==> !AnswersTo(records[j], id)
  {
    if records == [] then None
    else if AnswersTo(records[0], id) then Some(0)
    else match Find(records[1..], id)
      case None => None
      case Some(i) => Some(i + 1)
  }

  /** `if (status)` then keep the records whose status is `status`. */
  function FilterStatus(records: seq<Record>, status: Option<string>): (r: seq<Record>)
    ensures |r| <= |records|
    ensures status.None? || status.value == "" ==> r == records
    ensures status.Some? && status.value != "" ==>
      && (forall x :: x in r ==> "status" in x && x["status"] == VStr(status.value))
      && (forall x :: x in records && "status" in x && x["status"] == VStr(status.value) ==> x in r)
      && (forall x :: x in r ==> x in records)
  {
    if status.None? || status.value == "" then records
    else if records == [] then []
    else
      var rest := FilterStatus(records[1..], status);
      if "status" in records[0] && records[0]["status"] == VStr(status.value)
      then [records[0]] + rest
      else rest
  }

  /** Whether the status filter keeps one record. */
  predicate Kept(x: Record, status: Option<string>) {
    status.None? || status.value == "" || ("status" in x && x["status"] == VStr(status.value))
  }

  /**
   * The filter keeps records in order and once each: it works record by record,
   * and filtering a concatenation filters each part.
   */
  lemma {:induction false} FilterStatusSplits(a: seq<Record>, b: seq<Record>, status: Option<string>)
    ensures FilterStatus(a + b, status) == FilterStatus(a, status) + FilterStatus(b, status)
    ensures forall x :: FilterStatus([x], status) == if Kept(x, status) then [x] else []
  {
    if status.Some? && status.value != "" {
      if a == [] {
        assert a + b == b;
      } else {
        assert (a + b)[0] == a[0] && (a + b)[1..] == a[1..] + b;
        FilterStatusSplits(a[1..], b, status);
      }
      forall x ensures FilterStatus([x], status) == if Kept(x, status) then [x] else [] {
        assert [x][1..] == [];
      }
    }
  }

  /** Every stored record is still awaiting payment: the body cannot override the status. */
  predicate AllPending(records: seq<Record>) {
    forall i :: 0 <= i < |records| ==> "status" in records[i] && records[i]["status"] == VStr(PendingPayment)
  }

  /**
   * Since every record is pending payment, a status filter keeps every record
   * when it asks for `pending_payment` and none when it asks for anything else.
   */
  lemma {:induction false} FilterOfPending(records: seq<Record>, status: string)
    requires AllPending(records) && status != ""
    ensures FilterStatus(records, Some(status)) == if status == PendingPayment then records else []
  {
    if records != [] {
      assert AllPending(records[1..]) by {
        forall i | 0 <= i < |records[1..]|
          ensures "status" in records[1..][i] && records[1..][i]["status"] == VStr(PendingPayment)
        {
          assert records[1..][i] == records[i + 1];
        }
      }
      FilterOfPending(records[1..], status);
      assert records == [records[0]] + records[1..];
    }
  }

  lemma PendingAppend(records: seq<Record>, r: Record)
    requires AllPending(records) && "status" in r && r["status"] == VStr(PendingPayment)
    ensures AllPending(records + [r])
  {
    assert forall i :: 0 <= i < |records| ==> (records + [r])[i] == records[i];
  }

  /** The in-memory store of one controller. */
  class Store {
    const kind: Kind
    var records: seq<Record>

    predicate Valid()
      reads this
    {
      AllPending(records)
    }

    constructor (kind: Kind)
      ensures this.kind == kind && records == [] && Valid()
    {
      this.kind := kind;
      records := [];
    }

    /**
     * `submitApplication` / `submitPitch`: number the submission after the ones
     * stored, store the record and answer with the id and the price.
     */
    method Submit(body: map<string, string>, storedFile: Option<string>,
                  uuid: string, orderUuid: string, year: nat, now: int)
      returns (resp: SubmitResponse)
      requires Valid()
      modifies this
      ensures Valid()
      ensures resp.applicationId == ApplicationId(kind, year, |old(records)| + 1)
      ensures records == old(records) + [NewRecord(uuid, resp.applicationId, body, storedFile, now)]
      ensures resp.orderId == "order_" + orderUuid
      ensures resp.amount == Price(kind) && resp.message == SubmitMessage(kind)
    {
      var applicationId := ApplicationId(kind, year, |records| + 1);
      var record := NewRecord(uuid, applicationId, body, storedFile, now);
      PendingAppend(records, record);
      records := records + [record];
      resp := SubmitResponse(applicationId, "order_" + orderUuid, Price(kind), SubmitMessage(kind));
    }

    /** `getApplicationById` / `getPitchById`: the first record answering to `id`, or 404. */
    function GetById(id: string): (r: Result<Record, Failure>)
      reads this
      ensures r.Ok? <==> exists j :: 0 <= j < |records| && AnswersTo(records[j], id)
      ensures r.Ok? ==> AnswersTo(r.value, id) && r.value in records
      ensures r.Ok? ==> Find(records, id).Some? && r.value == records[Find(records, id).value]
      ensures r.Err? ==> r.error == Failure(404, NotFoundMessage(kind))
    {
      match Find(records, id)
      case None => Err(Failure(404, NotFoundMessage(kind)))
      case Some(i) => Ok(records[i])
    }

    /**
     * `getAllApplications` / `getAllPitches`: page 1 and 10 per page unless the
     * query gives them.
     */
    function GetAll(status: Option<string>, page: Option<int>, limit: Option<int>): (r: Paging.Listing<Record>)
      reads this
      ensures r.total == |FilterStatus(records, status)| && r.page == page.GetOr(1)
      ensures r.data == Paging.PageOf(FilterStatus(records, status), page.GetOr(1), limit.GetOr(10))
      ensures r.totalPages == Paging.TotalPages(|FilterStatus(records, status)|, limit.GetOr(10))
      ensures page.None? && limit.None? ==> |r.data| <= 10
    {
      Paging.Paginate(FilterStatus(records, status), page.GetOr(1), limit.GetOr(10))
    }
  }

  /**
   * A record appended to the store is what a lookup of one of its ids finds, as
   * long as no earlier record already answers to that id.
   */
  lemma {:induction false} FoundAfterAppend(records: seq<Record>, rec: Record, id: string)
    requires AnswersTo(rec, id)
    requires forall j :: 0 <= j < |records| ==> !AnswersTo(records[j], id)
    ensures Find(records + [rec], id) == Some(|records|)
  {
    if records != [] {
      assert (records + [rec])[1..] == records[1..] + [rec];
      assert !AnswersTo(records[0], id);
      FoundAfterAppend(records[1..], rec, id);
    }
  }

  /** A fresh submission answers to the id it was given unless the form body overrode it. */
  lemma NewRecordAnswersToId(uuid: string, applicationId: string, body: map<string, string>,
                             storedFile: Option<string>, now: int)
    requires "applicationId" !in body
    ensures AnswersTo(NewRecord(uuid, applicationId, body, storedFile, now), applicationId)
  {
  }
}
