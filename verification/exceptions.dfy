/**
  The client's exception hierarchy.  Every kind is a subclass of the base
  `BigDataCorpAPIException`; an error carries a message and a payload, and
  renders as "<class name>: <message>".
*/
module Exceptions {
  import opened Results
  import opened PyJson

  /** One constructor per exception class. */
  datatype Kind =
    | Base                  // BigDataCorpAPIException itself
    | InvalidDocument
    | InvalidDatabase
    | MinorDocument
    | MaxRetry
    | LoginProblem
    | ProblemApi
    | OnDemandQueries
    | MonitoringApi
    | UnmappedError
    | InvalidInput
    | EmptyEnrichedProcess

  /** The part of a class name between the shared prefix and suffix. */
  function Stem(k: Kind): string {
    match k
    case Base => ""
    case InvalidDocument => "InvalidDocument"
    case InvalidDatabase => "InvalidDatabase"
    case MinorDocument => "MinorDocument"
    case MaxRetry => "MaxRetry"
    case LoginProblem => "LoginProblem"
    case ProblemApi => "ProblemAPI"
    case OnDemandQueries => "OnDemandQueries"
    case MonitoringApi => "MonitoringAPI"
    case UnmappedError => "UnmappedError"
    case InvalidInput => "InvalidInput"
    case EmptyEnrichedProcess => "EmptyEnrichedProcess"
  }

  const ClassPrefix: string := "BigDataCorpAPI"
  const ClassSuffix: string := "Exception"

  /** The Python class name, e.g. "BigDataCorpAPIMaxRetryException". */
  function ClassName(k: Kind): string {
    ClassPrefix + Stem(k) + ClassSuffix
  }

  /** The kind with the given stem, if any. */
  function KindOfStem(stem: string): (r: Option<Kind>)
    ensures r.Some? ==> Stem(r.value) == stem
  {
    if stem == Stem(Base) then Some(Base)
    else if stem == Stem(InvalidDocument) then Some(InvalidDocument)
    else if stem == Stem(InvalidDatabase) then Some(InvalidDatabase)
    else if stem == Stem(MinorDocument) then Some(MinorDocument)
    else if stem == Stem(MaxRetry) then Some(MaxRetry)
    else if stem == Stem(LoginProblem) then Some(LoginProblem)
    else if stem == Stem(ProblemApi) then Some(ProblemApi)
    else if stem == Stem(OnDemandQueries) then Some(OnDemandQueries)
    else if stem == Stem(MonitoringApi) then Some(MonitoringApi)
    else if stem == Stem(UnmappedError) then Some(UnmappedError)
    else if stem == Stem(InvalidInput) then Some(InvalidInput)
    else if stem == Stem(EmptyEnrichedProcess) then Some(EmptyEnrichedProcess)
    else None
  }

  /** The kind whose class has the given name, if any. */
  function KindNamed(name: string): (r: Option<Kind>)
    ensures r.Some? ==> ClassName(r.value) == name
  {
    var lo, hi := |ClassPrefix|, |name| - |ClassSuffix|;
    if lo <= hi && name[..lo] == ClassPrefix && name[hi..] == ClassSuffix then
      assert name == ClassPrefix + name[lo..hi] + ClassSuffix;
      KindOfStem(name[lo..hi])
    else None
  }

  /** Python's `isinstance`: every kind is itself and a `BigDataCorpAPIException`. */
  predicate IsA(k: Kind, ancestor: Kind) {
    ancestor == Base || ancestor == k
  }

  /** An instance of one of the exception classes. */
  datatype ApiError = ApiError(kind: Kind, message: string, payload: Json)

  /** The constructor called without a payload: the payload defaults to `{}`. */
  function NewError(kind: Kind, message: string): ApiError {
    ApiError(kind, message, EmptyObject)
  }

  /** What a `raise` inside one request attempt carries. */
  datatype Raised = Api(error: ApiError) | Foreign(fault: Fault)

  /** A fault raised by a Python built-in, as seen by an `except` clause. */
  function Lift<T>(r: Result<T, Fault>): Result<T, Raised> {
    match r
    case Success(v) => Success(v)
    case Failure(f) => Failure(Foreign(f))
  }

  /** `repr(e)`, which is also `str(e)`. */
  function Repr(e: ApiError): string {
    ClassName(e.kind) + ": " + e.message
  }

  function Str(e: ApiError): string {
    Repr(e)
  }

  /** Index of the first ':' in `s`, or `|s|` when there is none. */
  function FirstColon(s: string): (r: nat)
    ensures r <= |s|
    ensures r < |s| ==> s[r] == ':'
    ensures forall i :: 0 <= i < r ==> s[i] != ':'
  {
    if |s| == 0 || s[0] == ':' then 0 else 1 + FirstColon(s[1..])
  }

  /** Reads a class name and a message back from a rendered error. */
  function ParseRepr(text: string): Option<(Kind, string)> {
    var c := FirstColon(text);
    if c + 2 <= |text| && text[c..c + 2] == ": " then
      match KindNamed(text[..c])
      case Some(k) => Some((k, text[c + 2..]))
      case None => None
    else None
  }

  predicate NoColon(s: string) {
    forall i :: 0 <= i < |s| ==> s[i] != ':'
  }

  lemma {:induction false} NoColonConcat(a: string, b: string)
    requires NoColon(a) && NoColon(b)
    ensures NoColon(a + b)
  {
    forall i | 0 <= i < |a + b|
      ensures (a + b)[i] != ':'
    {
      if i < |a| {
        assert (a + b)[i] == a[i];
      } else {
        assert (a + b)[i] == b[i - |a|];
      }
    }
  }

  lemma StemHasNoColon(k: Kind)
    ensures NoColon(Stem(k))
  {
  }

  lemma ClassNamesHaveNoColon(k: Kind)
    ensures NoColon(ClassName(k))
  {
    StemHasNoColon(k);
    assert NoColon(ClassPrefix);
    assert NoColon(ClassSuffix);
    NoColonConcat(ClassPrefix, Stem(k));
    NoColonConcat(ClassPrefix + Stem(k), ClassSuffix);
  }

  lemma KindOfStemInvertsStem(k: Kind)
    ensures KindOfStem(Stem(k)) == Some(k)
  {
  }

  lemma KindNamedInvertsClassName(k: Kind)
    ensures KindNamed(ClassName(k)) == Some(k)
  {
    var name := ClassName(k);
    var lo, hi := |ClassPrefix|, |name| - |ClassSuffix|;
    assert name[..lo] == ClassPrefix;
    assert name[hi..] == ClassSuffix;
    assert name[lo..hi] == Stem(k);
    KindOfStemInvertsStem(k);
  }

  /** The string form is the repr, and both give back the class and the message. */
  lemma {:induction false} StrRoundTrip(e: ApiError)
    ensures Str(e) == Repr(e)
    ensures ParseRepr(Str(e)) == Some((e.kind, e.message))
  {
    var name := ClassName(e.kind);
    var text := Repr(e);
    ClassNamesHaveNoColon(e.kind);
    KindNamedInvertsClassName(e.kind);
    assert text[|name|] == ':';
    var c := FirstColon(text);
    assert c == |name|;
    assert text[..c] == name;
    assert text[c..c + 2] == ": ";
    assert text[c + 2..] == e.message;
  }

  /** Distinct errors never render alike unless kind and message coincide. */
  lemma ReprDeterminesKindAndMessage(a: ApiError, b: ApiError)
    requires Repr(a) == Repr(b)
    ensures a.kind == b.kind && a.message == b.message
  {
    StrRoundTrip(a);
    StrRoundTrip(b);
  }

  const PayloadField: string := "payload"
  const TypeField: string := "type"
  const MessageField: string := "message"

  /** `e.to_dict()`. */
  function ToDict(e: ApiError): (r: Json)
    ensures r.JObj? && r.fields.Keys == {PayloadField, TypeField, MessageField}
    ensures r.fields[PayloadField] == e.payload
    ensures r.fields[TypeField] == JStr(ClassName(e.kind))
    ensures r.fields[MessageField] == JStr(e.message)
  {
    JObj(map[PayloadField := e.payload, TypeField := JStr(ClassName(e.kind)), MessageField := JStr(e.message)])
  }

  /** Rebuilds an error from its dictionary form. */
  function FromDict(j: Json): (r: Option<ApiError>)
    ensures r.Some? ==> ToDict(r.value) == j
  {
    if j.JObj? && j.fields.Keys == {PayloadField, TypeField, MessageField}
       && j.fields[TypeField].JStr? && j.fields[MessageField].JStr?
    then
      match KindNamed(j.fields[TypeField].s)
      case Some(k) => Some(ApiError(k, j.fields[MessageField].s, j.fields[PayloadField]))
      case None => None
    else None
  }

  /** `to_dict` loses nothing: kind, message and payload come back unchanged. */
  lemma DictRoundTrip(e: ApiError)
    ensures FromDict(ToDict(e)) == Some(e)
  {
    KindNamedInvertsClassName(e.kind);
  }

  /** An error built without a payload reports `{}` as its payload. */
  lemma DefaultPayload(k: Kind, message: string)
    ensures ToDict(NewError(k, message)).fields[PayloadField] == JObj(map[])
    ensures ParseRepr(Repr(NewError(k, message))) == Some((k, message))
  {
    StrRoundTrip(NewError(k, message));
  }

  /**
    The hierarchy is flat under the base class: every kind is a subclass of
    it, and it is a subclass of no other kind.  That one base-class `except`
    clause really catches every raised error is `Lookup.HandlerDispatch`.
  */
  lemma EveryKindIsBase(k: Kind)
    ensures IsA(k, Base)
    ensures k != Base ==> !IsA(Base, k)
  {
  }
}
