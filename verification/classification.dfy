/**
  Classification of a nonzero dataset status code into the exception kind
  the client raises for it.  The ranges are inclusive.
*/
module Classification {
  import opened PyJson
  import opened Exceptions

  /** Codes reporting a problem with the input data. */
  predicate InvalidInputCode(c: int) { -202 <= c <= -100 }

  /** Codes reporting a login problem. */
  predicate LoginCode(c: int) { -1002 <= c <= -1000 }

  /** Codes reporting an internal problem in the provider's APIs or services. */
  predicate InternalCode(c: int) { -2999 <= c <= -2000 }

  /** Codes reporting a problem with on-demand queries. */
  predicate OnDemandCode(c: int) { -1999 <= c <= -1200 }

  /** Codes reporting a problem in the monitoring API or asynchronous calls. */
  predicate MonitoringCode(c: int) { c <= -3000 }

  predicate NamedCode(c: int) {
    InvalidInputCode(c) || LoginCode(c) || InternalCode(c) || OnDemandCode(c) || MonitoringCode(c)
  }

  /** The codes each kind is responsible for; kinds the classifier never produces own none. */
  predicate Owns(k: Kind, c: int) {
    match k
    case InvalidInput => InvalidInputCode(c)
    case LoginProblem => LoginCode(c)
    case ProblemApi => InternalCode(c)
    case OnDemandQueries => OnDemandCode(c)
    case MonitoringApi => MonitoringCode(c)
    case UnmappedError => c != 0 && !NamedCode(c)
    case _ => false
  }

  /**
    The kind raised for a nonzero code, checked in the source's order.  Because
    the ranges are disjoint and, together with "unmapped", cover every nonzero
    code, exactly one kind owns each code and the order does not matter.
  */
  function CodeKind(c: int): (k: Kind)
    requires c != 0
    ensures Owns(k, c)
    ensures forall other: Kind :: Owns(other, c) ==> other == k
  {
    if InvalidInputCode(c) then InvalidInput
    else if LoginCode(c) then LoginProblem
    else if InternalCode(c) then ProblemApi
    else if OnDemandCode(c) then OnDemandQueries
    else if MonitoringCode(c) then MonitoringApi
    else UnmappedError
  }

  /** Success (code 0) is owned by no error kind. */
  lemma ZeroIsNoError(k: Kind)
    ensures !Owns(k, 0)
  {
  }

  /** The message each classified kind is raised with. */
  function KindMessage(k: Kind): string {
    match k
    case InvalidInput => "error related to input data"
    case LoginProblem => "error related to login problem"
    case ProblemApi => "error related to internal problems in APIs or services"
    case OnDemandQueries => "error related to on-demand queries"
    case MonitoringApi => "error related to problems in the Monitoring API or Asynchronous Calls"
    case _ => "unmapped error"
  }

  const StatusField: string := "bigdata_status"

  /**
    The error raised for a nonzero code: its payload holds the dataset's
    status object and the looked-up identifier under `idKey`.
  */
  function ClassifiedError(c: int, status: Json, idKey: string, id: string): (e: ApiError)
    requires c != 0
    requires idKey != StatusField
    ensures Owns(e.kind, c)
    ensures e.payload.JObj? && e.payload.fields.Keys == {StatusField, idKey}
    ensures e.payload.fields[StatusField] == status && e.payload.fields[idKey] == JStr(id)
  {
    var k := CodeKind(c);
    ApiError(k, KindMessage(k), JObj(map[StatusField := status, idKey := JStr(id)]))
  }
}
