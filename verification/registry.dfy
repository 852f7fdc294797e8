/**
  The two fixed dataset registries of the client (people and companies) and
  the membership gate that runs before any request is sent.
*/
module Registry {

  /** The kind of entity a lookup is about: a person (CPF) or a company (CNPJ). */
  datatype Entity = Person | Company

  /** No name occurs twice in `s`. */
  predicate Distinct(s: seq<string>) {
    forall i, j :: 0 <= i < j < |s| ==> s[i] != s[j]
  }

  /** No name of `a` occurs in `b`. */
  predicate Apart(a: seq<string>, b: seq<string>) {
    forall i, j :: 0 <= i < |a| && 0 <= j < |b| ==> a[i] != b[j]
  }

  // Each registry is written as a concatenation of short displays; together
  // they list the source's names in the source's order.

  const CpfPart1: seq<string> := [
    "government_debtors",
    "election_candidate_data",
    "circles_college_class",
    "circles_coworkers",
    "circles_household",
    "circles_relatives",
    "circles_lawsuit_parties",
    "circles_partners",
    "circles_neighbors",
    "circles_building",
    "basic_data",
    "occupation_data"]

  const CpfPart2: seq<string> := [
    "electoral_donors",
    "related_people_emails",
    "addresses_extended",
    "related_people_addresses",
    "media_profile_and_exposure",
    "company_group_employed",
    "company_group_family_ownership",
    "company_group_sued",
    "company_group_ownership",
    "historical_basic_data",
    "financial_data",
    "demographic_data"]

  const CpfPart3: seq<string> := [
    "licenses_and_authorizations",
    "life_stages",
    "collections",
    "electoral_providers",
    "indebtedness_question",
    "processes",
    "first_level_relatives_lawsuit_data",
    "business_relationships",
    "related_people",
    "phones_extended",
    "related_people_phones",
    "vehicles"]

  const CnpjPart1: seq<string> := [
    "partner_murabei_credit_score_company",
    "government_debtors",
    "syndicate_agreements",
    "investment_fund_data",
    "electoral_donors",
    "owners_electoral_donors",
    "company_evolution",
    "activity_indicators",
    "interests_and_behaviors",
    "licenses_and_authorizations",
    "financial_market",
    "electoral_providers"]

  const CnpjPart2: seq<string> := [
    "industrial_property",
    "employees_industrial_property",
    "owners_industrial_property",
    "domains",
    "domains_extended",
    "emails_extended",
    "related_people_emails",
    "addresses_extended",
    "related_people_addresses",
    "phones_extended",
    "related_people_phones",
    "basic_data"]

  const CnpjPart3: seq<string> := [
    "history_basic_data",
    "media_profile_and_exposure",
    "kyc_dtec_flex_news",
    "kyc",
    "economic_group_kyc",
    "employees_kyc",
    "owners_kyc",
    "online_ads",
    "marketplace_data",
    "apps_networks_and_platforms",
    "collections",
    "owners_lawsuits"]

  const CnpjPart4: seq<string> := [
    "processes",
    "reputations_and_reviews",
    "social_conscience",
    "awards_and_certifications",
    "circles_employees",
    "circles_legal_representatives",
    "circles_first_level_owners",
    "economic_group_full_extended",
    "economic_group_first_level_extended",
    "economic_group_second_level_extended",
    "economic_group_third_level_extended",
    "company_group_household_activity"]

  const CnpjPart5: seq<string> := [
    "company_group_rfcontact",
    "company_group_household",
    "company_group_tradename",
    "company_group_tradename_city",
    "company_group_building",
    "company_group_documentroot",
    "company_group_officialname",
    "company_group_legal_representative",
    "company_group_owners",
    "company_group_household_owners_surname",
    "relationships",
    "economic_group_relationships"]

  /** The datasets a person lookup may ask for. */
  const CpfDatabases: seq<string> := CpfPart1 + CpfPart2 + CpfPart3

  /** The datasets a company lookup may ask for. */
  const CnpjDatabases: seq<string> := CnpjPart1 + CnpjPart2 + CnpjPart3 + CnpjPart4 + CnpjPart5

  /** The registry that gates lookups of an entity kind. */
  function Datasets(e: Entity): seq<string> {
    match e
    case Person => CpfDatabases
    case Company => CnpjDatabases
  }

  /** The registry as handed to callers; its names are exactly the ones the gate admits. */
  function ListDatasets(e: Entity): (r: seq<string>)
    ensures forall name :: name in r <==> Admits(e, name)
    ensures Distinct(r)
  {
    RegistriesDistinct();
    Datasets(e)
  }

  /** The gate checked before any request for `name` is issued. */
  predicate Admits(e: Entity, name: string) {
    name in Datasets(e)
  }

  /** How the registry is named in configuration-error messages. */
  function Label(e: Entity): string {
    match e
    case Person => "CPF"
    case Company => "CNPJ"
  }

  lemma {:induction false} DistinctConcat(a: seq<string>, b: seq<string>)
    requires Distinct(a) && Distinct(b) && Apart(a, b)
    ensures Distinct(a + b)
  {
    var s := a + b;
    forall i, j | 0 <= i < j < |s|
      ensures s[i] != s[j]
    {
      if j < |a| {
        assert s[i] == a[i] && s[j] == a[j];
      } else if i < |a| {
        assert s[i] == a[i] && s[j] == b[j - |a|];
      } else {
        assert s[i] == b[i - |a|] && s[j] == b[j - |a|];
      }
    }
  }

  lemma {:induction false} ApartConcat(a: seq<string>, b: seq<string>, c: seq<string>)
    requires Apart(a, c) && Apart(b, c)
    ensures Apart(a + b, c)
  {
    var s := a + b;
    forall i, j | 0 <= i < |s| && 0 <= j < |c|
      ensures s[i] != c[j]
    {
      if i < |a| {
        assert s[i] == a[i];
      } else {
        assert s[i] == b[i - |a|];
      }
    }
  }

  // One fact per lemma keeps each comparison of literal names small.

  lemma CpfPart1Distinct()
    ensures Distinct(CpfPart1)
  {
  }

  lemma CpfPart2Distinct()
    ensures Distinct(CpfPart2)
  {
  }

  lemma CpfPart3Distinct()
    ensures Distinct(CpfPart3)
  {
  }

  lemma CpfPart1Apart2()
    ensures Apart(CpfPart1, CpfPart2)
  {
  }

  lemma CpfPart1Apart3()
    ensures Apart(CpfPart1, CpfPart3)
  {
  }

  lemma CpfPart2Apart3()
    ensures Apart(CpfPart2, CpfPart3)
  {
  }

  lemma CnpjPart1Distinct()
    ensures Distinct(CnpjPart1)
  {
  }

  lemma CnpjPart2Distinct()
    ensures Distinct(CnpjPart2)
  {
  }

  lemma CnpjPart3Distinct()
    ensures Distinct(CnpjPart3)
  {
  }

  lemma CnpjPart4Distinct()
    ensures Distinct(CnpjPart4)
  {
  }

  lemma CnpjPart5Distinct()
    ensures Distinct(CnpjPart5)
  {
  }

  lemma CnpjPart1Apart2()
    ensures Apart(CnpjPart1, CnpjPart2)
  {
  }

  lemma CnpjPart1Apart3()
    ensures Apart(CnpjPart1, CnpjPart3)
  {
  }

  lemma CnpjPart1Apart4()
    ensures Apart(CnpjPart1, CnpjPart4)
  {
  }

  lemma CnpjPart1Apart5()
    ensures Apart(CnpjPart1, CnpjPart5)
  {
  }

  lemma CnpjPart2Apart3()
    ensures Apart(CnpjPart2, CnpjPart3)
  {
  }

  lemma CnpjPart2Apart4()
    ensures Apart(CnpjPart2, CnpjPart4)
  {
  }

  lemma CnpjPart2Apart5()
    ensures Apart(CnpjPart2, CnpjPart5)
  {
  }

  lemma CnpjPart3Apart4()
    ensures Apart(CnpjPart3, CnpjPart4)
  {
  }

  lemma CnpjPart3Apart5()
    ensures Apart(CnpjPart3, CnpjPart5)
  {
  }

  lemma CnpjPart4Apart5()
    ensures Apart(CnpjPart4, CnpjPart5)
  {
  }

  /** Neither registry lists a dataset twice. */
  lemma RegistriesDistinct()
    ensures Distinct(CpfDatabases)
    ensures Distinct(CnpjDatabases)
  {
    CpfPart1Distinct();
    CpfPart2Distinct();
    CpfPart3Distinct();
    CpfPart1Apart2();
    CpfPart1Apart3();
    CpfPart2Apart3();
    DistinctConcat(CpfPart1, CpfPart2);
    ApartConcat(CpfPart1, CpfPart2, CpfPart3);
    DistinctConcat(CpfPart1 + CpfPart2, CpfPart3);
    CnpjPart1Distinct();
    CnpjPart2Distinct();
    CnpjPart3Distinct();
    CnpjPart4Distinct();
    CnpjPart5Distinct();
    CnpjPart1Apart2();
    CnpjPart1Apart3();
    CnpjPart1Apart4();
    CnpjPart1Apart5();
    CnpjPart2Apart3();
    CnpjPart2Apart4();
    CnpjPart2Apart5();
    CnpjPart3Apart4();
    CnpjPart3Apart5();
    CnpjPart4Apart5();
    DistinctConcat(CnpjPart1, CnpjPart2);
    ApartConcat(CnpjPart1, CnpjPart2, CnpjPart3);
    DistinctConcat(CnpjPart1 + CnpjPart2, CnpjPart3);
    ApartConcat(CnpjPart1, CnpjPart2, CnpjPart4);
    ApartConcat(CnpjPart1 + CnpjPart2, CnpjPart3, CnpjPart4);
    DistinctConcat(CnpjPart1 + CnpjPart2 + CnpjPart3, CnpjPart4);
    ApartConcat(CnpjPart1, CnpjPart2, CnpjPart5);
    ApartConcat(CnpjPart1 + CnpjPart2, CnpjPart3, CnpjPart5);
    ApartConcat(CnpjPart1 + CnpjPart2 + CnpjPart3, CnpjPart4, CnpjPart5);
    DistinctConcat(CnpjPart1 + CnpjPart2 + CnpjPart3 + CnpjPart4, CnpjPart5);
  }
}
