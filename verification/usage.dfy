/**
  The usage report (`get_usage`): one POST per registered dataset, people
  first and companies second, each in registry order.  A request that fails
  in any way is reported and skipped, so the report itself never fails.

  The k-th POST of a section is answered by the k-th reply given for that
  section.
*/
module Usage {
  import opened Results
  import opened PyJson
  import opened Exceptions
  import opened Registry

  const DateFormat: string := "yyyy-MM-dd"

  /** How the usage endpoint names the API of an entity kind. */
  function ApiName(e: Entity): string {
    match e
    case Person => "people"
    case Company => "companies"
  }

  /** The JSON body POSTed to ask for the usage of one dataset over a date range. */
  function UsageRequest(e: Entity, name: string, initialDate: string, finalDate: string): Json {
    JObj(map[
      "InitialReferenceDate" := JStr(initialDate),
      "FinalReferenceDate" := JStr(finalDate),
      "DateFormat" := JStr(DateFormat),
      "Api" := JStr(ApiName(e)),
      "Datasets" := JStr(name)])
  }

  /** Two requests of one report are equal only when they ask about the same API and dataset. */
  lemma RequestIdentifiesEntry(e: Entity, name: string, e': Entity, name': string, initialDate: string, finalDate: string)
    requires UsageRequest(e, name, initialDate, finalDate) == UsageRequest(e', name', initialDate, finalDate)
    ensures e == e' && name == name'
  {
    assert UsageRequest(e, name, initialDate, finalDate).fields["Api"] == JStr(ApiName(e));
    assert UsageRequest(e', name', initialDate, finalDate).fields["Datasets"] == JStr(name');
  }

  /**
    What the transport yields for one POST: a failure before any status
    arrived, or a status code with the decoded body (None when the body is
    not JSON).
  */
  datatype Reply = PostFailed(text: string) | Reply(statusCode: int, body: Option<Json>)

  /** One line of the report; the five counters are passed through as the service sent them. */
  datatype UsageRecord = UsageRecord(
    apiType: string,
    endPoint: string,
    successfulRequests: Json,
    requestsWithError: Json,
    queriesCharged: Json,
    queriesNotCharged: Json,
    estimatedPrice: Json)

  const UsageDataKey: string := "UsageData"
  const SuccessfulKey: string := "TotalSuccessfulRequests"
  const WithErrorKey: string := "TotalRequestsWithError"
  const ChargedKey: string := "TotalQueriesCharged"
  const NotChargedKey: string := "TotalQueriesNotCharged"
  const PriceKey: string := "TotalEstimatedPrice"

  const ServerErrorStatus: int := 500
  const OkStatus: int := 200

  /** `response.json()`. */
  function Decoded(body: Option<Json>): (r: Result<Json, Raised>)
    ensures r.Success? <==> body.Some?
    ensures r.Success? ==> r.value == body.value
  {
    match body
    case Some(j) => Success(j)
    case None => Failure(Foreign(TransportFault("Expecting value: line 1 column 1 (char 0)")))
  }

  /** `response.json()["UsageData"][key]`. */
  function UsageField(body: Option<Json>, key: string): Result<Json, Raised> {
    var j :- Decoded(body);
    var data :- Lift(Subscript(j, UsageDataKey));
    Lift(Subscript(data, key))
  }

  /** The text of the error raised for a non-200 reply. */
  function MessageText(message: Json): string {
    match message
    case JStr(s) => s
    case _ => ""
  }

  /** A body that carries every counter the report copies. */
  predicate HasUsageData(j: Json) {
    && j.JObj?
    && UsageDataKey in j.fields
    && j.fields[UsageDataKey].JObj?
    && var counters := j.fields[UsageDataKey].fields;
    && SuccessfulKey in counters && WithErrorKey in counters && ChargedKey in counters
    && NotChargedKey in counters && PriceKey in counters
  }

  /** The counters object of a body that has one. */
  function Counters(j: Json): map<string, Json>
    requires HasUsageData(j)
  {
    j.fields[UsageDataKey].fields
  }

  /**
    One iteration of either loop of `get_usage`: the record for dataset
    `name`, or what was raised while building it.
  */
  function Query(e: Entity, name: string, reply: Reply): (r: Result<UsageRecord, Raised>)
    ensures r.Success? <==>
      reply.Reply? && reply.statusCode == OkStatus && reply.body.Some? && HasUsageData(reply.body.value)
    ensures r.Success? ==>
      var counters := Counters(reply.body.value);
      && r.value.apiType == ApiName(e)
      && r.value.endPoint == name
      && r.value.successfulRequests == counters[SuccessfulKey]
      && r.value.requestsWithError == counters[WithErrorKey]
      && r.value.queriesCharged == counters[ChargedKey]
      && r.value.queriesNotCharged == counters[NotChargedKey]
      && r.value.estimatedPrice == counters[PriceKey]
    ensures reply.Reply? && reply.statusCode == ServerErrorStatus ==> r.Failure? && r.error.Foreign?
    ensures reply.Reply? && reply.statusCode != ServerErrorStatus && reply.statusCode != OkStatus
        && reply.body.Some? && reply.body.value.JObj? && "Status" in reply.body.value.fields
        && reply.body.value.fields["Status"].JObj? && "Message" in reply.body.value.fields["Status"].fields
      ==> r == Failure(Api(NewError(Base, MessageText(reply.body.value.fields["Status"].fields["Message"]))))
  {
    match reply
    case PostFailed(text) => Failure(Foreign(TransportFault(text)))
    case Reply(code, body) =>
      if code == ServerErrorStatus then
        Failure(Foreign(TransportFault("500 Server Error")))
      else if code != OkStatus then
        var j :- Decoded(body);
        var status :- Lift(Subscript(j, "Status"));
        var message :- Lift(Subscript(status, "Message"));
        Failure(Api(NewError(Base, MessageText(message))))
      else
        var successful :- UsageField(body, SuccessfulKey);
        var withError :- UsageField(body, WithErrorKey);
        var charged :- UsageField(body, ChargedKey);
        var notCharged :- UsageField(body, NotChargedKey);
        var price :- UsageField(body, PriceKey);
        Success(UsageRecord(ApiName(e), name, successful, withError, charged, notCharged, price))
  }

  /** The outcome of every query of one loop, by position. */
  function Queries(e: Entity, names: seq<string>, replies: seq<Reply>): (qs: seq<Result<UsageRecord, Raised>>)
    requires |replies| == |names|
    ensures |qs| == |names|
    ensures forall k :: 0 <= k < |names| ==> qs[k] == Query(e, names[k], replies[k])
  {
    seq(|names|, k requires 0 <= k < |names| => Query(e, names[k], replies[k]))
  }

  /** The records of the successful outcomes from position k on, in order. */
  function RecordsFrom(qs: seq<Result<UsageRecord, Raised>>, k: nat): (r: seq<UsageRecord>)
    requires k <= |qs|
    ensures |r| <= |qs| - k
    decreases |qs| - k
  {
    if k == |qs| then []
    else if qs[k].Success? then [qs[k].value] + RecordsFrom(qs, k + 1)
    else RecordsFrom(qs, k + 1)
  }

  /** Strictly increasing positions. */
  predicate Increasing(ks: seq<nat>) {
    forall s, t :: 0 <= s < t < |ks| ==> ks[s] < ks[t]
  }

  /** The positions from k on whose outcome is a record, in increasing order. */
  function KeptFrom(qs: seq<Result<UsageRecord, Raised>>, k: nat): (ks: seq<nat>)
    requires k <= |qs|
    ensures Increasing(ks)
    ensures forall t :: 0 <= t < |ks| ==> k <= ks[t] < |qs| && qs[ks[t]].Success?
    ensures forall i :: k <= i < |qs| && qs[i].Success? ==> i in ks
    decreases |qs| - k
  {
    if k == |qs| then []
    else if qs[k].Success? then [k] + KeptFrom(qs, k + 1)
    else KeptFrom(qs, k + 1)
  }

  /**
    The records are exactly the successful outcomes, in the order of their
    positions: record t is the outcome at the t-th kept position.
  */
  lemma {:induction false} RecordsAtKept(qs: seq<Result<UsageRecord, Raised>>, k: nat)
    requires k <= |qs|
    ensures var ks := KeptFrom(qs, k);
      && |RecordsFrom(qs, k)| == |ks|
      && forall t :: 0 <= t < |ks| ==> RecordsFrom(qs, k)[t] == qs[ks[t]].value
    decreases |qs| - k
  {
    if k < |qs| {
      RecordsAtKept(qs, k + 1);
    }
  }

  /** The records of a loop carry its API name and one of its dataset names. */
  lemma RecordEntries(e: Entity, names: seq<string>, replies: seq<Reply>)
    requires |replies| == |names|
    ensures forall t :: 0 <= t < |RecordsFrom(Queries(e, names, replies), 0)| ==>
      && RecordsFrom(Queries(e, names, replies), 0)[t].apiType == ApiName(e)
      && RecordsFrom(Queries(e, names, replies), 0)[t].endPoint in names
  {
    var qs := Queries(e, names, replies);
    var ks := KeptFrom(qs, 0);
    RecordsAtKept(qs, 0);
    forall t | 0 <= t < |RecordsFrom(qs, 0)|
      ensures RecordsFrom(qs, 0)[t].apiType == ApiName(e) && RecordsFrom(qs, 0)[t].endPoint in names
    {
      assert RecordsFrom(qs, 0)[t] == Query(e, names[ks[t]], replies[ks[t]]).value;
    }
  }

  /**
    One loop of `get_usage`: a record per dataset whose query succeeded, in
    registry order; so no more records than datasets, each under the loop's
    API and about one of its datasets.
  */
  function Section(e: Entity, names: seq<string>, replies: seq<Reply>): (r: seq<UsageRecord>)
    requires |replies| == |names|
    ensures |r| <= |names|
    ensures forall t :: 0 <= t < |r| ==> r[t].apiType == ApiName(e) && r[t].endPoint in names
  {
    RecordEntries(e, names, replies);
    RecordsFrom(Queries(e, names, replies), 0)
  }

  /** Over a registry without repeats, no dataset gets two records. */
  lemma SectionEndpointsDistinct(e: Entity, names: seq<string>, replies: seq<Reply>)
    requires |replies| == |names| && Distinct(names)
    ensures var r := Section(e, names, replies);
      forall s, t :: 0 <= s < t < |r| ==> r[s].endPoint != r[t].endPoint
  {
    var r := Section(e, names, replies);
    var qs := Queries(e, names, replies);
    var ks := KeptFrom(qs, 0);
    RecordsAtKept(qs, 0);
    forall s, t | 0 <= s < t < |r|
      ensures r[s].endPoint != r[t].endPoint
    {
      assert r[s].endPoint == names[ks[s]] && r[t].endPoint == names[ks[t]];
    }
  }

  /**
    Over a registry without repeats, the dataset at position i has a record
    exactly when its query succeeded: a failed request contributes nothing.
  */
  lemma SectionRecordIff(e: Entity, names: seq<string>, replies: seq<Reply>, i: nat)
    requires |replies| == |names| && Distinct(names) && i < |names|
    ensures (exists t :: 0 <= t < |Section(e, names, replies)| && Section(e, names, replies)[t].endPoint == names[i])
        <==> Query(e, names[i], replies[i]).Success?
  {
    var r := Section(e, names, replies);
    var qs := Queries(e, names, replies);
    var ks := KeptFrom(qs, 0);
    RecordsAtKept(qs, 0);
    if qs[i].Success? {
      var t :| 0 <= t < |ks| && ks[t] == i;
      assert r[t].endPoint == names[i];
    } else {
      forall t | 0 <= t < |r|
        ensures r[t].endPoint != names[i]
      {
        assert r[t].endPoint == names[ks[t]] && ks[t] != i;
      }
    }
  }

  /**
    A report over a people registry and a companies registry; the first
    `|cpfNames|` replies answer the people loop.
  */
  function Report(cpfNames: seq<string>, cnpjNames: seq<string>, replies: seq<Reply>): (r: seq<UsageRecord>)
    requires |replies| == |cpfNames| + |cnpjNames|
    ensures |r| <= |cpfNames| + |cnpjNames|
    ensures forall s, t :: 0 <= s < t < |r| && r[t].apiType == ApiName(Person) ==> r[s].apiType == ApiName(Person)
    ensures forall t :: 0 <= t < |r| ==>
      || (r[t].apiType == ApiName(Person) && r[t].endPoint in cpfNames)
      || (r[t].apiType == ApiName(Company) && r[t].endPoint in cnpjNames)
  {
    Section(Person, cpfNames, replies[..|cpfNames|]) + Section(Company, cnpjNames, replies[|cpfNames|..])
  }

  /** Within a report built from duplicate-free registries, no (API, dataset) pair occurs twice. */
  lemma ReportPairsDistinct(cpfNames: seq<string>, cnpjNames: seq<string>, replies: seq<Reply>)
    requires |replies| == |cpfNames| + |cnpjNames|
    requires Distinct(cpfNames) && Distinct(cnpjNames)
    ensures var r := Report(cpfNames, cnpjNames, replies);
      forall s, t :: 0 <= s < t < |r| ==> (r[s].apiType, r[s].endPoint) != (r[t].apiType, r[t].endPoint)
  {
    var people := Section(Person, cpfNames, replies[..|cpfNames|]);
    var companies := Section(Company, cnpjNames, replies[|cpfNames|..]);
    var r := Report(cpfNames, cnpjNames, replies);
    assert r == people + companies;
    SectionEndpointsDistinct(Person, cpfNames, replies[..|cpfNames|]);
    SectionEndpointsDistinct(Company, cnpjNames, replies[|cpfNames|..]);
    forall s, t | 0 <= s < t < |r|
      ensures (r[s].apiType, r[s].endPoint) != (r[t].apiType, r[t].endPoint)
    {
      if t < |people| {
        assert r[s] == people[s] && r[t] == people[t];
      } else if s >= |people| {
        assert r[s] == companies[s - |people|] && r[t] == companies[t - |people|];
      } else {
        assert r[s].apiType == ApiName(Person) && r[t].apiType == ApiName(Company);
      }
    }
  }

  /** The person dataset at position i has a record in the report exactly when its query succeeded. */
  lemma ReportPersonRecordIff(cpfNames: seq<string>, cnpjNames: seq<string>, replies: seq<Reply>, i: nat)
    requires |replies| == |cpfNames| + |cnpjNames|
    requires Distinct(cpfNames) && i < |cpfNames|
    ensures (exists t :: 0 <= t < |Report(cpfNames, cnpjNames, replies)|
                    && Report(cpfNames, cnpjNames, replies)[t].apiType == ApiName(Person)
                    && Report(cpfNames, cnpjNames, replies)[t].endPoint == cpfNames[i])
       <==> Query(Person, cpfNames[i], replies[i]).Success?
  {
    var people := Section(Person, cpfNames, replies[..|cpfNames|]);
    var companies := Section(Company, cnpjNames, replies[|cpfNames|..]);
    var r := Report(cpfNames, cnpjNames, replies);
    assert r == people + companies;
    SectionRecordIff(Person, cpfNames, replies[..|cpfNames|], i);
    assert replies[..|cpfNames|][i] == replies[i];
    if exists t :: 0 <= t < |r| && r[t].apiType == ApiName(Person) && r[t].endPoint == cpfNames[i] {
      var t :| 0 <= t < |r| && r[t].apiType == ApiName(Person) && r[t].endPoint == cpfNames[i];
      assert people[t].endPoint == cpfNames[i];
    }
    if Query(Person, cpfNames[i], replies[i]).Success? {
      var t :| 0 <= t < |people| && people[t].endPoint == cpfNames[i];
      assert r[t] == people[t];
    }
  }

  /** The company dataset at position i has a record in the report exactly when its query succeeded. */
  lemma ReportCompanyRecordIff(cpfNames: seq<string>, cnpjNames: seq<string>, replies: seq<Reply>, i: nat)
    requires |replies| == |cpfNames| + |cnpjNames|
    requires Distinct(cnpjNames) && i < |cnpjNames|
    ensures (exists t :: 0 <= t < |Report(cpfNames, cnpjNames, replies)|
                    && Report(cpfNames, cnpjNames, replies)[t].apiType == ApiName(Company)
                    && Report(cpfNames, cnpjNames, replies)[t].endPoint == cnpjNames[i])
       <==> Query(Company, cnpjNames[i], replies[|cpfNames| + i]).Success?
  {
    var people := Section(Person, cpfNames, replies[..|cpfNames|]);
    var companies := Section(Company, cnpjNames, replies[|cpfNames|..]);
    var r := Report(cpfNames, cnpjNames, replies);
    assert r == people + companies;
    SectionRecordIff(Company, cnpjNames, replies[|cpfNames|..], i);
    assert replies[|cpfNames|..][i] == replies[|cpfNames| + i];
    if exists t :: 0 <= t < |r| && r[t].apiType == ApiName(Company) && r[t].endPoint == cnpjNames[i] {
      assert forall u :: 0 <= u < |people| ==> r[u].apiType == ApiName(Person);
      var t :| 0 <= t < |r| && r[t].apiType == ApiName(Company) && r[t].endPoint == cnpjNames[i];
      assert companies[t - |people|].endPoint == cnpjNames[i];
    }
    if Query(Company, cnpjNames[i], replies[|cpfNames| + i]).Success? {
      var t :| 0 <= t < |companies| && companies[t].endPoint == cnpjNames[i];
      assert r[|people| + t] == companies[t];
    }
  }

  /** `get_usage`: the people loop over the CPF registry, then the companies loop over the CNPJ registry. */
  function GetUsage(replies: seq<Reply>): (r: seq<UsageRecord>)
    requires |replies| == |CpfDatabases| + |CnpjDatabases|
    ensures |r| <= |CpfDatabases| + |CnpjDatabases|
    ensures forall s, t :: 0 <= s < t < |r| && r[t].apiType == ApiName(Person) ==> r[s].apiType == ApiName(Person)
    ensures forall t :: 0 <= t < |r| ==>
      || (r[t].apiType == ApiName(Person) && Admits(Person, r[t].endPoint))
      || (r[t].apiType == ApiName(Company) && Admits(Company, r[t].endPoint))
    ensures forall s, t :: 0 <= s < t < |r| ==> (r[s].apiType, r[s].endPoint) != (r[t].apiType, r[t].endPoint)
  {
    RegistriesDistinct();
    ReportPairsDistinct(CpfDatabases, CnpjDatabases, replies);
    Report(CpfDatabases, CnpjDatabases, replies)
  }

  /**
    No registered dataset gets two records, and each has one exactly when
    its usage query succeeded.
  */
  lemma UsageRecords(replies: seq<Reply>)
    requires |replies| == |CpfDatabases| + |CnpjDatabases|
    ensures var r := GetUsage(replies);
      forall s, t :: 0 <= s < t < |r| ==> (r[s].apiType, r[s].endPoint) != (r[t].apiType, r[t].endPoint)
    ensures forall i :: 0 <= i < |CpfDatabases| ==>
      ((exists t :: 0 <= t < |GetUsage(replies)| && GetUsage(replies)[t].apiType == ApiName(Person)
                    && GetUsage(replies)[t].endPoint == CpfDatabases[i])
       <==> Query(Person, CpfDatabases[i], replies[i]).Success?)
    ensures forall i :: 0 <= i < |CnpjDatabases| ==>
      ((exists t :: 0 <= t < |GetUsage(replies)| && GetUsage(replies)[t].apiType == ApiName(Company)
                    && GetUsage(replies)[t].endPoint == CnpjDatabases[i])
       <==> Query(Company, CnpjDatabases[i], replies[|CpfDatabases| + i]).Success?)
  {
    RegistriesDistinct();
    assert GetUsage(replies) == Report(CpfDatabases, CnpjDatabases, replies);
    ReportPairsDistinct(CpfDatabases, CnpjDatabases, replies);
    forall i | 0 <= i < |CpfDatabases|
      ensures (exists t :: 0 <= t < |GetUsage(replies)| && GetUsage(replies)[t].apiType == ApiName(Person)
                           && GetUsage(replies)[t].endPoint == CpfDatabases[i])
          <==> Query(Person, CpfDatabases[i], replies[i]).Success?
    {
      ReportPersonRecordIff(CpfDatabases, CnpjDatabases, replies, i);
    }
    forall i | 0 <= i < |CnpjDatabases|
      ensures (exists t :: 0 <= t < |GetUsage(replies)| && GetUsage(replies)[t].apiType == ApiName(Company)
                           && GetUsage(replies)[t].endPoint == CnpjDatabases[i])
          <==> Query(Company, CnpjDatabases[i], replies[|CpfDatabases| + i]).Success?
    {
      ReportCompanyRecordIff(CpfDatabases, CnpjDatabases, replies, i);
    }
  }

  /** One loop of `get_usage`, appending a record per successful query. */
  method UsageLoop(e: Entity, names: seq<string>, replies: seq<Reply>) returns (records: seq<UsageRecord>)
    requires |replies| == |names|
    ensures records == Section(e, names, replies)
  {
    records := [];
    var k := 0;
    while k < |names|
      invariant k <= |names|
      invariant records + RecordsFrom(Queries(e, names, replies), k) == Section(e, names, replies)
    {
      var q := Query(e, names[k], replies[k]);
      if q.Success? {
        records := records + [q.value];
      }
      k := k + 1;
    }
  }

  /** `get_usage` as the two loops of the source. */
  method GetUsageReport(replies: seq<Reply>) returns (results: seq<UsageRecord>)
    requires |replies| == |CpfDatabases| + |CnpjDatabases|
    ensures results == GetUsage(replies)
  {
    var people := UsageLoop(Person, CpfDatabases, replies[..|CpfDatabases|]);
    var companies := UsageLoop(Company, CnpjDatabases, replies[|CpfDatabases|..]);
    results := people + companies;
  }
}
