/**
  Multi-dataset lookups (`get_cpf_datasets`, `get_cnpj_datasets`): one
  single-dataset lookup per requested name, in list order, collected into a
  map keyed by name; the first failing lookup aborts the batch.  The k-th
  lookup is answered by the k-th transport script.
*/
module Batch {
  import opened Results
  import opened PyJson
  import opened Exceptions
  import opened Registry
  import opened Lookup
  import opened CompanyId

  /** One transport script per requested name, each long enough for a full lookup. */
  predicate ScriptsFit(names: seq<string>, scripts: seq<seq<Outcome>>) {
    |scripts| == |names| && forall k :: 0 <= k < |scripts| ==> |scripts[k]| >= MaxAttempts
  }

  /** No later position requests the same name as position k. */
  predicate LastRequest(names: seq<string>, k: nat)
    requires k < |names|
  {
    forall k' :: k < k' < |names| ==> names[k'] != names[k]
  }

  /**
    The loop from position k on, with the map built so far; `lookup(j)` is
    the result of the single-dataset lookup issued for position j, and it is
    consulted only for positions the loop reaches.
  */
  function Collect(names: seq<string>, lookup: nat -> Result<Json, ApiError>, k: nat,
                   acc: map<string, Json>): Result<map<string, Json>, ApiError>
    requires k <= |names|
    decreases |names| - k
  {
    if k == |names| then Success(acc)
    else
      match lookup(k)
      case Failure(err) => Failure(err)
      case Success(body) => Collect(names, lookup, k + 1, acc[names[k] := body])
  }

  /** The single-dataset lookups of a batch, by position. */
  function Lookups(e: Entity, id: string, names: seq<string>, scripts: seq<seq<Outcome>>): nat -> Result<Json, ApiError>
    requires ScriptsFit(names, scripts)
  {
    // Positions past the end are never consulted by `Collect`.
    (j: nat) => if j < |names| then Fetch(e, id, names[j], scripts[j]).result else Failure(ConfigError(e, ""))
  }

  /** The result of the lookup for the k-th requested name. */
  function ResultAt(e: Entity, id: string, names: seq<string>, scripts: seq<seq<Outcome>>, k: nat): Result<Json, ApiError>
    requires ScriptsFit(names, scripts) && k < |names|
  {
    Fetch(e, id, names[k], scripts[k]).result
  }

  /**
    The batch for entity e: it succeeds exactly when every lookup succeeds,
    and then its keys are exactly the requested names.
  */
  function GetDatasets(e: Entity, id: string, names: seq<string>, scripts: seq<seq<Outcome>>): (r: Result<map<string, Json>, ApiError>)
    requires ScriptsFit(names, scripts)
    ensures r.Success? <==> forall j :: 0 <= j < |names| ==> ResultAt(e, id, names, scripts, j).Success?
    ensures r.Success? ==> r.value.Keys == (set j | 0 <= j < |names| :: names[j])
  {
    var lookup := Lookups(e, id, names, scripts);
    assert forall j :: 0 <= j < |names| ==> lookup(j) == ResultAt(e, id, names, scripts, j);
    CollectSucceedsIff(names, lookup, 0, map[]);
    var batch := Collect(names, lookup, 0, map[]);
    if batch.Success? then (CollectKeys(names, lookup, 0, map[]); batch) else batch
  }

  /** `get_cpf_datasets`: every lookup is for a person with the CPF as given. */
  function GetCpfDatasets(cpf: string, names: seq<string>, scripts: seq<seq<Outcome>>): (r: Result<map<string, Json>, ApiError>)
    requires ScriptsFit(names, scripts)
    ensures r.Success? <==> forall j :: 0 <= j < |names| ==> ResultAt(Person, cpf, names, scripts, j).Success?
    ensures r.Success? ==> r.value.Keys == (set j | 0 <= j < |names| :: names[j])
  {
    GetDatasets(Person, cpf, names, scripts)
  }

  /**
    `get_cnpj_datasets`: the identifier is normalised once, before the first
    lookup, and every lookup is for a company with the normalised CNPJ.
  */
  function GetCnpjDatasets(cnpj: string, names: seq<string>, scripts: seq<seq<Outcome>>): (r: Result<map<string, Json>, ApiError>)
    requires ScriptsFit(names, scripts)
    ensures r.Success? <==> forall j :: 0 <= j < |names| ==> ResultAt(Company, Normalize(cnpj), names, scripts, j).Success?
    ensures r.Success? ==> r.value.Keys == (set j | 0 <= j < |names| :: names[j])
  {
    GetDatasets(Company, Normalize(cnpj), names, scripts)
  }

  lemma {:induction false} CollectSucceedsIff(names: seq<string>, lookup: nat -> Result<Json, ApiError>,
                                              k: nat, acc: map<string, Json>)
    requires k <= |names|
    ensures Collect(names, lookup, k, acc).Success? <==> forall j :: k <= j < |names| ==> lookup(j).Success?
    decreases |names| - k
  {
    if k < |names| && lookup(k).Success? {
      CollectSucceedsIff(names, lookup, k + 1, acc[names[k] := lookup(k).value]);
    }
  }

  lemma {:induction false} CollectKeys(names: seq<string>, lookup: nat -> Result<Json, ApiError>,
                                       k: nat, acc: map<string, Json>)
    requires k <= |names|
    requires Collect(names, lookup, k, acc).Success?
    ensures Collect(names, lookup, k, acc).value.Keys == acc.Keys + (set j | k <= j < |names| :: names[j])
    decreases |names| - k
  {
    if k < |names| {
      CollectKeys(names, lookup, k + 1, acc[names[k] := lookup(k).value]);
      assert (set j | k <= j < |names| :: names[j]) == {names[k]} + (set j | k + 1 <= j < |names| :: names[j]);
    }
  }

  lemma {:induction false} CollectKeepsUnrequested(names: seq<string>, lookup: nat -> Result<Json, ApiError>,
                                                   k: nat, acc: map<string, Json>, x: string)
    requires k <= |names|
    requires Collect(names, lookup, k, acc).Success?
    requires x in acc && forall j :: k <= j < |names| ==> names[j] != x
    ensures x in Collect(names, lookup, k, acc).value
    ensures Collect(names, lookup, k, acc).value[x] == acc[x]
    decreases |names| - k
  {
    if k < |names| {
      CollectKeepsUnrequested(names, lookup, k + 1, acc[names[k] := lookup(k).value], x);
    }
  }

  lemma {:induction false} CollectValues(names: seq<string>, lookup: nat -> Result<Json, ApiError>,
                                         k: nat, acc: map<string, Json>, j: nat)
    requires k <= j < |names|
    requires Collect(names, lookup, k, acc).Success?
    requires LastRequest(names, j)
    ensures lookup(j).Success? && names[j] in Collect(names, lookup, k, acc).value
    ensures Collect(names, lookup, k, acc).value[names[j]] == lookup(j).value
    decreases |names| - k
  {
    CollectSucceedsIff(names, lookup, k, acc);
    var acc' := acc[names[k] := lookup(k).value];
    if k < j {
      CollectValues(names, lookup, k + 1, acc', j);
    } else {
      CollectKeepsUnrequested(names, lookup, k + 1, acc', names[j]);
    }
  }

  lemma {:induction false} CollectFailsAt(names: seq<string>, lookup: nat -> Result<Json, ApiError>,
                                          k: nat, acc: map<string, Json>, j: nat)
    requires k <= j < |names|
    requires forall i :: k <= i < j ==> lookup(i).Success?
    requires lookup(j).Failure?
    ensures Collect(names, lookup, k, acc) == Failure(lookup(j).error)
    decreases j - k
  {
    if k < j {
      CollectFailsAt(names, lookup, k + 1, acc[names[k] := lookup(k).value], j);
    }
  }

  /**
    A batch succeeds exactly when every lookup succeeds; its map has one key
    per requested name, mapped to that name's lookup body (the last one when
    a name is requested twice).
  */
  lemma BatchSuccess(e: Entity, id: string, names: seq<string>, scripts: seq<seq<Outcome>>)
    requires ScriptsFit(names, scripts)
    ensures GetDatasets(e, id, names, scripts).Success?
        <==> forall j :: 0 <= j < |names| ==> ResultAt(e, id, names, scripts, j).Success?
    ensures GetDatasets(e, id, names, scripts).Success? ==>
      var m := GetDatasets(e, id, names, scripts).value;
      && m.Keys == (set j | 0 <= j < |names| :: names[j])
      && forall j :: 0 <= j < |names| && LastRequest(names, j) ==> m[names[j]] == ResultAt(e, id, names, scripts, j).value
  {
    var lookup := Lookups(e, id, names, scripts);
    assert forall j :: 0 <= j < |names| ==> lookup(j) == ResultAt(e, id, names, scripts, j);
    CollectSucceedsIff(names, lookup, 0, map[]);
    if GetDatasets(e, id, names, scripts).Success? {
      CollectKeys(names, lookup, 0, map[]);
      forall j | 0 <= j < |names| && LastRequest(names, j)
        ensures GetDatasets(e, id, names, scripts).value[names[j]] == ResultAt(e, id, names, scripts, j).value
      {
        CollectValues(names, lookup, 0, map[], j);
      }
    }
  }

  /** The first failing lookup's error is the batch's error, unchanged; no map is returned. */
  lemma BatchFailsAtFirstFailure(e: Entity, id: string, names: seq<string>, scripts: seq<seq<Outcome>>, j: nat)
    requires ScriptsFit(names, scripts) && j < |names|
    requires forall i :: 0 <= i < j ==> ResultAt(e, id, names, scripts, i).Success?
    requires ResultAt(e, id, names, scripts, j).Failure?
    ensures GetDatasets(e, id, names, scripts) == Failure(ResultAt(e, id, names, scripts, j).error)
  {
    var lookup := Lookups(e, id, names, scripts);
    assert forall i :: 0 <= i < |names| ==> lookup(i) == ResultAt(e, id, names, scripts, i);
    CollectFailsAt(names, lookup, 0, map[], j);
  }

  /** The loop of `get_cpf_datasets` / `get_cnpj_datasets` over single-dataset lookups. */
  method GetDatasetsLoop(e: Entity, id: string, names: seq<string>, scripts: seq<seq<Outcome>>)
    returns (r: Result<map<string, Json>, ApiError>)
    requires ScriptsFit(names, scripts)
    ensures r == GetDatasets(e, id, names, scripts)
  {
    var responses: map<string, Json> := map[];
    var k := 0;
    while k < |names|
      invariant k <= |names|
      invariant Collect(names, Lookups(e, id, names, scripts), k, responses) == GetDatasets(e, id, names, scripts)
    {
      var result, attempts := GetDataset(e, id, names[k], scripts[k]);
      if result.Failure? {
        return Failure(result.error);
      }
      responses := responses[names[k] := result.value];
      k := k + 1;
    }
    return Success(responses);
  }

  /** Punctuation in the CNPJ does not matter to a company batch. */
  lemma CnpjBatchIgnoresPunctuation(cnpj: string, names: seq<string>, scripts: seq<seq<Outcome>>)
    requires ScriptsFit(names, scripts)
    ensures GetCnpjDatasets(cnpj, names, scripts) == GetCnpjDatasets(Normalize(cnpj), names, scripts)
    ensures cnpj == "12.345.678/0001-99" ==>
      GetCnpjDatasets(cnpj, names, scripts) == GetDatasets(Company, "12345678000199", names, scripts)
  {
    NormalizeFixedPoints(cnpj);
    if cnpj == "12.345.678/0001-99" {
      NormalizeExample(cnpj);
    }
  }
}
