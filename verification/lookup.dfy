/**
  Single-dataset lookup: the membership gate, the inspection of one response
  and the bounded five-attempt loop around it.

  The HTTP transport is abstracted as a script of attempt outcomes, one per
  POST: a failure reported by the transport (connection error, non-2xx
  status, undecodable body) or a decoded JSON body.
*/
module Lookup {
  import opened Results
  import opened PyJson
  import opened Exceptions
  import opened Registry
  import opened Classification

  /** The number of POSTs one lookup may issue. */
  const MaxAttempts: nat := 5

  const StatusKey: string := "Status"
  const BirthValidationKey: string := "date_of_birth_validation"
  const LoginKey: string := "login"
  const CodeKey: string := "Code"

  /** The login code meaning that the user's subscription has expired. */
  const ExpiredLoginCode: int := -101

  /** What the transport yields for one POST. */
  datatype Outcome = TransportFailure(text: string) | Response(body: Json)

  /** The outcome of a lookup and the number of POSTs it issued. */
  datatype Fetched = Fetched(result: Result<Json, ApiError>, attempts: nat)

  /** The payload key under which classified errors report the identifier. */
  function IdKey(e: Entity): string {
    match e
    case Person => "cpf"
    case Company => "cnpj"
  }

  /** The query expression that selects one document. */
  function Query(id: string): string {
    "doc{" + id + "}"
  }

  /** Reads the identifier back out of a query expression. */
  function QueryId(q: string): (r: Option<string>)
    ensures r.Some? ==> Query(r.value) == q
  {
    if |q| >= 5 && q[..4] == "doc{" && q[|q| - 1] == '}' then
      assert q == "doc{" + q[4..|q| - 1] + "}";
      Some(q[4..|q| - 1])
    else None
  }

  /** The JSON body POSTed on every attempt of a lookup. */
  function LookupBody(id: string, name: string): Json {
    JObj(map["Datasets" := JStr(name), "q" := JStr(Query(id)), "Limit" := JInt(1)])
  }

  /** The body asks for one record of the named dataset and the identifier can be read back from it. */
  lemma LookupBodyCarriesRequest(id: string, name: string)
    ensures LookupBody(id, name).fields["Datasets"] == JStr(name)
    ensures LookupBody(id, name).fields["Limit"] == JInt(1)
    ensures QueryId(LookupBody(id, name).fields["q"].s) == Some(id)
  {
    var q := Query(id);
    assert q[..4] == "doc{";
    assert q[4..|q| - 1] == id;
  }

  /** The error raised before any request when the dataset is not in the registry. */
  function ConfigError(e: Entity, name: string): (err: ApiError)
    ensures err.kind == Base && err.payload == EmptyObject
    ensures var head := "dataset [" + name + "]";
      |head| <= |err.message| && err.message[..|head|] == head
    ensures var registry := Join(", ", Datasets(e));
      |registry| <= |err.message| && err.message[|err.message| - |registry|..] == registry
  {
    var head := "dataset [" + name + "]";
    var middle := " not avaiable on bigboost for " + Label(e) + ", avaiable datasets:\n";
    var registry := Join(", ", Datasets(e));
    assert (head + middle + registry)[..|head|] == head;
    assert (head + middle + registry)[|head + middle|..] == registry;
    NewError(Base, head + middle + registry)
  }

  function MinorError(validation: Json): ApiError {
    ApiError(MinorDocument, "this cpf belongs to a minor", validation)
  }

  function ExpiredLoginError(): ApiError {
    NewError(LoginProblem, "BigBoost user has expired")
  }

  /** The error raised when every attempt failed; `log` holds one text per attempt. */
  function MaxRetryError(log: seq<string>): (err: ApiError)
    ensures err.kind == MaxRetry
    ensures err.payload.JObj? && err.payload.fields.Keys == {"errors"}
    ensures var errors := err.payload.fields["errors"];
      && errors.JArr? && |errors.items| == |log|
      && forall k :: 0 <= k < |log| ==> errors.items[k] == JStr(log[k])
    ensures |log| == 1 ==> err.message == "Untreated error on API with max 5 retries:" + log[0] + "\n"
  {
    ApiError(MaxRetry,
      "Untreated error on API with max 5 retries:" + Join("\n", log) + "\n",
      JObj(map["errors" := JArr(Strings(log))]))
  }

  /**
    The message of the max-retry error the loop raises after its five
    attempts: the fixed prefix, then each logged text followed by a newline.
  */
  lemma MaxRetryFiveMessage(log: seq<string>)
    requires |log| == MaxAttempts
    ensures MaxRetryError(log).message
      == "Untreated error on API with max 5 retries:"
         + (log[0] + "\n" + (log[1] + "\n" + (log[2] + "\n" + (log[3] + "\n" + log[4]))))
         + "\n"
  {
    assert log[1..][1..] == log[2..];
    assert log[2..][1..] == log[3..];
    assert log[3..][1..] == log[4..];
    assert Join("\n", log[4..]) == log[4];
    assert Join("\n", log[3..]) == log[3] + "\n" + log[4];
    assert Join("\n", log[2..]) == log[2] + "\n" + (log[3] + "\n" + log[4]);
    assert Join("\n", log[1..]) == log[1] + "\n" + (log[2] + "\n" + (log[3] + "\n" + log[4]));
  }

  /** The minor-document check, made only for person lookups. */
  function BirthValidationCheck(statusData: Json): Result<(), Raised> {
    var entry :- Lift(DictGet(statusData, BirthValidationKey));
    match entry
    case None => Success(())
    case Some(validation) =>
      var first :- Lift(First(validation));
      Failure(Api(MinorError(first)))
  }

  /** The expired-login check: only code -101 aborts; any other login code passes. */
  function LoginCheck(statusData: Json): Result<(), Raised> {
    var entry :- Lift(DictGet(statusData, LoginKey));
    match entry
    case None => Success(())
    case Some(login) =>
      var first :- Lift(First(login));
      var code :- Lift(Subscript(first, CodeKey));
      if PyEquals(code, ExpiredLoginCode) then Failure(Api(ExpiredLoginError())) else Success(())
  }

  /** The requested dataset's status: code 0 returns the body, a number is classified. */
  function DatasetCheck(e: Entity, id: string, name: string, body: Json, statusData: Json): Result<Json, Raised> {
    var entries :- Lift(Subscript(statusData, name));
    var status :- Lift(First(entries));
    var code :- Lift(Subscript(status, CodeKey));
    if PyEquals(code, 0) then Success(body)
    else match AsInt(code)
      case None => Failure(Foreign(NotOrderable(TypeName(code))))
      case Some(n) => Failure(Api(ClassifiedError(n, status, IdKey(e), id)))
  }

  /**
    The checks before the dataset entry neither abort nor fail: the body has
    a `Status` object; for a person there is no birth-validation entry; a
    login entry, if any, has a readable `Code` other than -101.
  */
  predicate PassesEarlyChecks(e: Entity, body: Json) {
    && Subscript(body, StatusKey).Success?
    && var statusData := Subscript(body, StatusKey).value;
    && (e == Company || DictGet(statusData, BirthValidationKey) == Success(None))
    && DictGet(statusData, LoginKey).Success?
    && match DictGet(statusData, LoginKey).value
       case None => true
       case Some(login) =>
         && First(login).Success?
         && Subscript(First(login).value, CodeKey).Success?
         && !PyEquals(Subscript(First(login).value, CodeKey).value, ExpiredLoginCode)
  }

  /**
    The body of one attempt after the transport returned a decoded body.  It
    returns the body, unchanged, exactly when the early checks pass and the
    requested dataset's code equals 0.
  */
  function Inspect(e: Entity, id: string, name: string, body: Json): (r: Result<Json, Raised>)
    ensures r.Success? <==>
      PassesEarlyChecks(e, body) && DatasetCode(body, name).Success? && PyEquals(DatasetCode(body, name).value, 0)
    ensures r.Success? ==> r.value == body
  {
    var statusData :- Lift(Subscript(body, StatusKey));
    var minor :- if e == Person then BirthValidationCheck(statusData) else Success(());
    var login :- LoginCheck(statusData);
    DatasetCheck(e, id, name, body, statusData)
  }

  /** One attempt: what it returns or raises. */
  function Step(e: Entity, id: string, name: string, outcome: Outcome): (r: Result<Json, Raised>)
    ensures r.Success? ==> outcome.Response? && r.value == outcome.body
    ensures outcome.TransportFailure? ==> r == Failure(Foreign(TransportFault(outcome.text)))
  {
    match outcome
    case TransportFailure(text) => Failure(Foreign(TransportFault(text)))
    case Response(body) => Inspect(e, id, name, body)
  }

  /** An attempt whose exception is logged and retried. */
  predicate Retried(e: Entity, id: string, name: string, outcome: Outcome) {
    var s := Step(e, id, name, outcome);
    s.Failure? && s.error.Foreign?
  }

  /** The text an attempt that is retried adds to the error log. */
  function RetryText(e: Entity, id: string, name: string, outcome: Outcome): string
    requires Retried(e, id, name, outcome)
  {
    FaultText(Step(e, id, name, outcome).error.fault)
  }

  /** What a lookup returns when an attempt is not retried. */
  function Decided(s: Result<Json, Raised>): Result<Json, ApiError>
    requires !(s.Failure? && s.error.Foreign?)
  {
    match s
    case Success(body) => Success(body)
    case Failure(raised) => Failure(raised.error)
  }

  /** The attempt loop from attempt `i` on, with the texts of the failed attempts so far. */
  function Attempts(e: Entity, id: string, name: string, script: seq<Outcome>, i: nat, log: seq<string>): (r: Fetched)
    requires i <= MaxAttempts <= |script|
    requires |log| == i
    ensures i < r.attempts <= MaxAttempts || r.attempts == i == MaxAttempts
    ensures r.result.Failure? && r.result.error.kind == MaxRetry ==> r.attempts == MaxAttempts
    decreases MaxAttempts - i
  {
    if i == MaxAttempts then
      Fetched(Failure(MaxRetryError(log)), i)
    else
      var s := Step(e, id, name, script[i]);
      if s.Failure? && s.error.Foreign? then
        Attempts(e, id, name, script, i + 1, log + [FaultText(s.error.fault)])
      else
        Fetched(Decided(s), i + 1)
  }

  /**
    `get_cpf_dataset` (Person) and `get_cnpj_dataset` (Company): the gate,
    then at most five attempts.
  */
  function Fetch(e: Entity, id: string, name: string, script: seq<Outcome>): (r: Fetched)
    requires |script| >= MaxAttempts
    ensures r.attempts == 0 <==> !Admits(e, name)
    ensures !Admits(e, name) ==> r.result == Failure(ConfigError(e, name))
    ensures r.attempts <= MaxAttempts
  {
    if !Admits(e, name) then Fetched(Failure(ConfigError(e, name)), 0)
    else Attempts(e, id, name, script, 0, [])
  }

  // ----- The `except` clauses of one attempt -----

  /** An `except` clause: a class to catch, or `except Exception`. */
  datatype Handler = Catch(kind: Kind) | CatchAll

  predicate Catches(h: Handler, r: Raised) {
    match h
    case CatchAll => true
    case Catch(k) => r.Api? && IsA(r.error.kind, k)
  }

  /** The clause Python runs: the first that matches, or `|hs|` when none does. */
  function FirstHandler(hs: seq<Handler>, r: Raised): (i: nat)
    ensures i <= |hs|
    ensures i < |hs| ==> Catches(hs[i], r)
    ensures forall j :: 0 <= j < i ==> !Catches(hs[j], r)
  {
    if |hs| == 0 then 0
    else if Catches(hs[0], r) then 0
    else 1 + FirstHandler(hs[1..], r)
  }

  /** The clauses of a person attempt: the base class, login, minor, then anything. */
  const PersonHandlers: seq<Handler> := [Catch(Base), Catch(LoginProblem), Catch(MinorDocument), CatchAll]

  /** The clauses of a company attempt: the base class, then anything. */
  const CompanyHandlers: seq<Handler> := [Catch(Base), CatchAll]

  /**
    Every API error is re-raised by the base-class clause and every other
    exception is logged by the catch-all; the login and minor clauses are
    never reached.  This is why `Attempts` only distinguishes `Api` from
    `Foreign`.
  */
  lemma HandlerDispatch(r: Raised)
    ensures FirstHandler(PersonHandlers, r) == if r.Api? then 0 else 3
    ensures FirstHandler(CompanyHandlers, r) == if r.Api? then 0 else 1
  {
    if !r.Api? {
      assert FirstHandler([CatchAll], r) == 0;
      assert PersonHandlers[1..][1..][1..] == [CatchAll];
      assert FirstHandler([Catch(MinorDocument), CatchAll], r) == 1;
      assert PersonHandlers[1..][1..] == [Catch(MinorDocument), CatchAll];
      assert FirstHandler([Catch(LoginProblem), Catch(MinorDocument), CatchAll], r) == 2;
      assert PersonHandlers[1..] == [Catch(LoginProblem), Catch(MinorDocument), CatchAll];
      assert CompanyHandlers[1..] == [CatchAll];
    }
  }

  // ----- What one attempt can produce -----

  /** The status object of the requested dataset in a body. */
  function DatasetStatus(body: Json, name: string): Result<Json, Fault> {
    var statusData :- Subscript(body, StatusKey);
    var entries :- Subscript(statusData, name);
    First(entries)
  }

  /** The `Code` of the requested dataset in a body. */
  function DatasetCode(body: Json, name: string): Result<Json, Fault> {
    var status :- DatasetStatus(body, name);
    Subscript(status, CodeKey)
  }

  /**
    An attempt returns the body only when the dataset's code equals 0, and
    raises an API error only as a minor-document error (person lookups),
    the expired-login error, or the classification of a nonzero code whose
    payload holds the dataset's status object and the identifier.
  */
  lemma InspectOutcomes(e: Entity, id: string, name: string, body: Json)
    ensures Inspect(e, id, name, body).Success? ==>
      && Inspect(e, id, name, body).value == body
      && DatasetCode(body, name).Success?
      && PyEquals(DatasetCode(body, name).value, 0)
    ensures Inspect(e, id, name, body).Failure? && Inspect(e, id, name, body).error.Api? ==>
      var err := Inspect(e, id, name, body).error.error;
      || (e == Person && err.kind == MinorDocument && err.message == "this cpf belongs to a minor")
      || err == ExpiredLoginError()
      || (&& DatasetCode(body, name).Success?
          && AsInt(DatasetCode(body, name).value).Some?
          && AsInt(DatasetCode(body, name).value).value != 0
          && err == ClassifiedError(AsInt(DatasetCode(body, name).value).value,
                                    DatasetStatus(body, name).value, IdKey(e), id))
  {
  }

  /**
    When the early checks pass, a nonzero numeric code is classified and
    raised at once, with the dataset's status object and the identifier as
    payload.
  */
  lemma InspectClassifies(e: Entity, id: string, name: string, body: Json, n: int)
    requires PassesEarlyChecks(e, body)
    requires DatasetCode(body, name).Success? && AsInt(DatasetCode(body, name).value) == Some(n) && n != 0
    ensures DatasetStatus(body, name).Success?
    ensures Inspect(e, id, name, body) == Failure(Api(ClassifiedError(n, DatasetStatus(body, name).value, IdKey(e), id)))
  {
  }

  /** A failed POST is logged and retried. */
  lemma TransportFailureRetried(e: Entity, id: string, name: string, text: string)
    ensures Retried(e, id, name, TransportFailure(text))
    ensures RetryText(e, id, name, TransportFailure(text)) == text
  {
  }

  /** A body without a `Status` entry makes the attempt fail with a logged, retried fault. */
  lemma MissingStatusRetried(e: Entity, id: string, name: string, body: Json)
    requires !(body.JObj? && StatusKey in body.fields)
    ensures Retried(e, id, name, Response(body))
  {
  }

  /** When the early checks pass but `Status` has no entry for the dataset, the attempt is retried. */
  lemma MissingDatasetRetried(e: Entity, id: string, name: string, body: Json)
    requires PassesEarlyChecks(e, body)
    requires name !in Subscript(body, StatusKey).value.fields
    ensures Retried(e, id, name, Response(body))
  {
  }

  /** A code that is not a number cannot be ordered against the ranges: the attempt is retried. */
  lemma NonNumericCodeRetried(e: Entity, id: string, name: string, body: Json)
    requires PassesEarlyChecks(e, body)
    requires DatasetCode(body, name).Success? && AsInt(DatasetCode(body, name).value).None?
    ensures Retried(e, id, name, Response(body))
  {
  }

  /** A company attempt never raises the minor-document error. */
  lemma CompanyNeverMinor(id: string, name: string, outcome: Outcome)
    ensures var s := Step(Company, id, name, outcome);
      s.Failure? && s.error.Api? ==> s.error.error.kind != MinorDocument
  {
    if outcome.Response? {
      InspectOutcomes(Company, id, name, outcome.body);
    }
  }

  /** The status envelope of `body` with the entry `key` removed. */
  function WithoutStatusEntry(body: Json, key: string): Json
    requires body.JObj? && StatusKey in body.fields && body.fields[StatusKey].JObj?
  {
    JObj(body.fields[StatusKey := JObj(body.fields[StatusKey].fields - {key})])
  }

  /** A birth-validation entry with a first element aborts a person lookup, whatever else the body holds. */
  lemma MinorCheckedFirst(id: string, name: string, body: Json, validation: Json)
    requires Subscript(body, StatusKey).Success?
    requires var statusData := Subscript(body, StatusKey).value;
      && DictGet(statusData, BirthValidationKey).Success?
      && DictGet(statusData, BirthValidationKey).value.Some?
      && First(DictGet(statusData, BirthValidationKey).value.value) == Success(validation)
    ensures Inspect(Person, id, name, body) == Failure(Api(MinorError(validation)))
  {
  }

  /** Without a minor-document abort, a login entry with code -101 aborts before the dataset is read. */
  lemma ExpiredLoginCheckedSecond(e: Entity, id: string, name: string, body: Json, login: Json)
    requires Subscript(body, StatusKey).Success?
    requires var statusData := Subscript(body, StatusKey).value;
      && (e == Company || DictGet(statusData, BirthValidationKey) == Success(None))
      && DictGet(statusData, LoginKey) == Success(Some(login))
      && First(login).Success?
      && Subscript(First(login).value, CodeKey).Success?
      && PyEquals(Subscript(First(login).value, CodeKey).value, ExpiredLoginCode)
    ensures Inspect(e, id, name, body) == Failure(Api(ExpiredLoginError()))
  {
  }

  /** Two attempt results that return a body alike or raise the same exception. */
  predicate SameVerdict(a: Result<Json, Raised>, b: Result<Json, Raised>) {
    (a.Success? && b.Success?) || (a.Failure? && a == b)
  }

  /**
    A login entry with any other code changes nothing: the attempt raises
    what it would raise without the entry, and returns the body when it would.
  */
  lemma OtherLoginCodeFallsThrough(e: Entity, id: string, name: string, body: Json, login: Json)
    requires body.JObj? && StatusKey in body.fields && body.fields[StatusKey].JObj?
    requires name != LoginKey
    requires var statusData := body.fields[StatusKey];
      && DictGet(statusData, LoginKey) == Success(Some(login))
      && First(login).Success?
      && Subscript(First(login).value, CodeKey).Success?
      && !PyEquals(Subscript(First(login).value, CodeKey).value, ExpiredLoginCode)
    ensures SameVerdict(Inspect(e, id, name, body), Inspect(e, id, name, WithoutStatusEntry(body, LoginKey)))
  {
    var statusData := body.fields[StatusKey];
    var body' := WithoutStatusEntry(body, LoginKey);
    var statusData' := body'.fields[StatusKey];
    assert Subscript(body', StatusKey) == Success(statusData');
    assert DictGet(statusData', BirthValidationKey) == DictGet(statusData, BirthValidationKey);
    assert DictGet(statusData', LoginKey) == Success(None);
    assert Subscript(statusData', name) == Subscript(statusData, name);
  }

  /** A company lookup does not look at the birth-validation entry: removing it changes no verdict. */
  lemma CompanyIgnoresBirthValidation(id: string, name: string, body: Json)
    requires body.JObj? && StatusKey in body.fields && body.fields[StatusKey].JObj?
    requires name != BirthValidationKey
    ensures SameVerdict(Inspect(Company, id, name, body),
                        Inspect(Company, id, name, WithoutStatusEntry(body, BirthValidationKey)))
  {
    var statusData := body.fields[StatusKey];
    var body' := WithoutStatusEntry(body, BirthValidationKey);
    var statusData' := body'.fields[StatusKey];
    assert Subscript(body', StatusKey) == Success(statusData');
    assert DictGet(statusData', LoginKey) == DictGet(statusData, LoginKey);
    assert Subscript(statusData', name) == Subscript(statusData, name);
  }

  // ----- The attempt loop -----

  /** The log texts of attempts `i` to 4 when all of them are retried. */
  function RetryLog(e: Entity, id: string, name: string, script: seq<Outcome>, i: nat): (log: seq<string>)
    requires i <= MaxAttempts <= |script|
    requires forall k :: i <= k < MaxAttempts ==> Retried(e, id, name, script[k])
    ensures |log| == MaxAttempts - i
    ensures forall k :: 0 <= k < |log| ==> log[k] == RetryText(e, id, name, script[i + k])
    decreases MaxAttempts - i
  {
    if i == MaxAttempts then []
    else [RetryText(e, id, name, script[i])] + RetryLog(e, id, name, script, i + 1)
  }

  lemma {:induction false} AttemptsDecidedAt(e: Entity, id: string, name: string, script: seq<Outcome>,
                                              i: nat, log: seq<string>, j: nat)
    requires i <= j < MaxAttempts <= |script| && |log| == i
    requires forall k :: i <= k < j ==> Retried(e, id, name, script[k])
    requires !Retried(e, id, name, script[j])
    ensures Attempts(e, id, name, script, i, log) == Fetched(Decided(Step(e, id, name, script[j])), j + 1)
    decreases j - i
  {
    if i < j {
      AttemptsDecidedAt(e, id, name, script, i + 1, log + [RetryText(e, id, name, script[i])], j);
    }
  }

  lemma {:induction false} AttemptsExhausted(e: Entity, id: string, name: string, script: seq<Outcome>,
                                              i: nat, log: seq<string>)
    requires i <= MaxAttempts <= |script| && |log| == i
    requires forall k :: i <= k < MaxAttempts ==> Retried(e, id, name, script[k])
    ensures Attempts(e, id, name, script, i, log)
         == Fetched(Failure(MaxRetryError(log + RetryLog(e, id, name, script, i))), MaxAttempts)
    decreases MaxAttempts - i
  {
    if i == MaxAttempts {
      assert log + [] == log;
    } else {
      var text := RetryText(e, id, name, script[i]);
      assert Attempts(e, id, name, script, i, log) == Attempts(e, id, name, script, i + 1, log + [text]);
      AttemptsExhausted(e, id, name, script, i + 1, log + [text]);
      assert RetryLog(e, id, name, script, i) == [text] + RetryLog(e, id, name, script, i + 1);
      assert log + [text] + RetryLog(e, id, name, script, i + 1) == log + RetryLog(e, id, name, script, i);
    }
  }

  /**
    The first attempt that is not retried decides the lookup: its body or its
    error is the result, and no later attempt is made.
  */
  lemma FetchDecidedAt(e: Entity, id: string, name: string, script: seq<Outcome>, j: nat)
    requires MaxAttempts <= |script| && Admits(e, name) && j < MaxAttempts
    requires forall k :: 0 <= k < j ==> Retried(e, id, name, script[k])
    requires !Retried(e, id, name, script[j])
    ensures Fetch(e, id, name, script) == Fetched(Decided(Step(e, id, name, script[j])), j + 1)
  {
    AttemptsDecidedAt(e, id, name, script, 0, [], j);
  }

  /** A first attempt that returns a body ends the lookup with that body after one POST. */
  lemma FirstAttemptSuccess(e: Entity, id: string, name: string, script: seq<Outcome>)
    requires MaxAttempts <= |script| && Admits(e, name)
    requires Step(e, id, name, script[0]).Success?
    ensures Fetch(e, id, name, script) == Fetched(Success(Step(e, id, name, script[0]).value), 1)
    ensures script[0].Response? && Fetch(e, id, name, script).result.value == script[0].body
  {
    FetchDecidedAt(e, id, name, script, 0);
    if script[0].Response? {
      InspectOutcomes(e, id, name, script[0].body);
    }
  }

  /**
    A first response whose early checks pass and whose dataset code is a
    number decides the lookup after one POST: code 0 returns the body, any
    other code raises its classified error without a retry.
  */
  lemma FirstResponseDecides(e: Entity, id: string, name: string, script: seq<Outcome>, n: int)
    requires MaxAttempts <= |script| && Admits(e, name)
    requires script[0].Response? && PassesEarlyChecks(e, script[0].body)
    requires DatasetCode(script[0].body, name).Success? && AsInt(DatasetCode(script[0].body, name).value) == Some(n)
    ensures n == 0 ==> Fetch(e, id, name, script) == Fetched(Success(script[0].body), 1)
    ensures n != 0 ==>
      Fetch(e, id, name, script)
        == Fetched(Failure(ClassifiedError(n, DatasetStatus(script[0].body, name).value, IdKey(e), id)), 1)
  {
    var body := script[0].body;
    if n != 0 {
      InspectClassifies(e, id, name, body, n);
    }
    FetchDecidedAt(e, id, name, script, 0);
  }

  /**
    Five retried attempts give the max-retry error; its `errors` payload lists
    the five logged texts in attempt order.
  */
  lemma FetchExhausted(e: Entity, id: string, name: string, script: seq<Outcome>)
    requires MaxAttempts <= |script| && Admits(e, name)
    requires forall k :: 0 <= k < MaxAttempts ==> Retried(e, id, name, script[k])
    ensures var log := RetryLog(e, id, name, script, 0);
      && |log| == MaxAttempts
      && (forall k :: 0 <= k < MaxAttempts ==> log[k] == RetryText(e, id, name, script[k]))
      && Fetch(e, id, name, script) == Fetched(Failure(MaxRetryError(log)), MaxAttempts)
      && MaxRetryError(log).payload == JObj(map["errors" := JArr(Strings(log))])
  {
    AttemptsExhausted(e, id, name, script, 0, []);
    assert [] + RetryLog(e, id, name, script, 0) == RetryLog(e, id, name, script, 0);
  }

  /** An API error is raised at the attempt that detects it and never as a max-retry error. */
  lemma StepNeverMaxRetry(e: Entity, id: string, name: string, outcome: Outcome)
    ensures var s := Step(e, id, name, outcome);
      s.Failure? && s.error.Api? ==> s.error.error.kind != MaxRetry && s.error.error.kind != Base
  {
    if outcome.Response? {
      InspectOutcomes(e, id, name, outcome.body);
    }
  }

  lemma {:induction false} AttemptsMaxRetryIff(e: Entity, id: string, name: string, script: seq<Outcome>,
                                                i: nat, log: seq<string>)
    requires i <= MaxAttempts <= |script| && |log| == i
    ensures var r := Attempts(e, id, name, script, i, log);
      (r.result.Failure? && r.result.error.kind == MaxRetry)
        <==> forall k :: i <= k < MaxAttempts ==> Retried(e, id, name, script[k])
    decreases MaxAttempts - i
  {
    if i < MaxAttempts {
      var s := Step(e, id, name, script[i]);
      if s.Failure? && s.error.Foreign? {
        AttemptsMaxRetryIff(e, id, name, script, i + 1, log + [FaultText(s.error.fault)]);
      } else {
        StepNeverMaxRetry(e, id, name, script[i]);
      }
    }
  }

  /** The lookup ends in the max-retry error exactly when all five attempts were retried. */
  lemma MaxRetryOnlyWhenAllRetried(e: Entity, id: string, name: string, script: seq<Outcome>)
    requires MaxAttempts <= |script| && Admits(e, name)
    ensures (Fetch(e, id, name, script).result.Failure? && Fetch(e, id, name, script).result.error.kind == MaxRetry)
        <==> forall k :: 0 <= k < MaxAttempts ==> Retried(e, id, name, script[k])
  {
    AttemptsMaxRetryIff(e, id, name, script, 0, []);
  }

  lemma {:induction false} AttemptsReadOnlyTheirOutcomes(e: Entity, id: string, name: string,
                                                         s1: seq<Outcome>, s2: seq<Outcome>, i: nat, log: seq<string>)
    requires i <= MaxAttempts <= |s1| && MaxAttempts <= |s2| && |log| == i
    requires forall k :: i <= k < Attempts(e, id, name, s1, i, log).attempts ==> s1[k] == s2[k]
    ensures Attempts(e, id, name, s1, i, log) == Attempts(e, id, name, s2, i, log)
    decreases MaxAttempts - i
  {
    if i < MaxAttempts {
      assert s1[i] == s2[i];
      var s := Step(e, id, name, s1[i]);
      if s.Failure? && s.error.Foreign? {
        AttemptsReadOnlyTheirOutcomes(e, id, name, s1, s2, i + 1, log + [FaultText(s.error.fault)]);
      }
    }
  }

  /** Outcomes after the last attempt a lookup made cannot change its result. */
  lemma FetchReadsOnlyItsAttempts(e: Entity, id: string, name: string, s1: seq<Outcome>, s2: seq<Outcome>)
    requires MaxAttempts <= |s1| && MaxAttempts <= |s2|
    requires forall k :: 0 <= k < Fetch(e, id, name, s1).attempts ==> s1[k] == s2[k]
    ensures Fetch(e, id, name, s1) == Fetch(e, id, name, s2)
  {
    if Admits(e, name) {
      AttemptsReadOnlyTheirOutcomes(e, id, name, s1, s2, 0, []);
    }
  }

  /** The lookup as the source writes it: a gate, then a `for` loop over five attempts. */
  method GetDataset(e: Entity, id: string, name: string, script: seq<Outcome>)
    returns (result: Result<Json, ApiError>, attempts: nat)
    requires |script| >= MaxAttempts
    ensures Fetched(result, attempts) == Fetch(e, id, name, script)
  {
    if !Admits(e, name) {
      return Failure(ConfigError(e, name)), 0;
    }
    var log: seq<string> := [];
    var i := 0;
    while i < MaxAttempts
      invariant 0 <= i <= MaxAttempts && |log| == i
      invariant Attempts(e, id, name, script, i, log) == Attempts(e, id, name, script, 0, [])
    {
      var s := Step(e, id, name, script[i]);
      match s {
        case Success(body) =>
          return Success(body), i + 1;
        case Failure(Api(err)) =>
          return Failure(err), i + 1;
        case Failure(Foreign(fault)) =>
          log := log + [FaultText(fault)];
      }
      i := i + 1;
    }
    return Failure(MaxRetryError(log)), MaxAttempts;
  }
}
