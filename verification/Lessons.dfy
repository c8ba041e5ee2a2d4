/** What is learned from which fact of a job: each of the five dimensions, and what is hidden, in terms of the
    snapshots. */
module Lessons {
  import opened Prelude
  import opened Signals
  import opened Learning
  import StableSort

  /** The weights of the rows that count, hiding ones aside, added up. */
  function Weighing(rows: seq<Row>, counts: Row -> bool): real {
    if rows == [] then 0.0
    else
      var r := rows[|rows| - 1];
      Weighing(rows[..|rows| - 1], counts)
      + (if r.kind != HideCompany && r.kind != HideRole && counts(r) then r.weight else 0.0)
  }

  lemma {:induction false} SumIs<K>(rows: seq<Row>, keysOf: Row -> seq<K>, key: K, counts: Row -> bool)
    requires forall r :: key in keysOf(r) <==> counts(r)
    ensures KeyWeight(rows, keysOf, key) == Weighing(rows, counts)
    decreases |rows|
  {
    if rows != [] {
      SumIs(rows[..|rows| - 1], keysOf, key, counts);
    }
  }

  /** A place weighs what the signals on jobs in that very place weigh. */
  lemma PlacesLearned(rows: seq<Row>, place: string)
    requires place != ""
    ensures WeightAt(LearnedFrom(rows).locations, place)
         == Weighing(rows, (r: Row) => r.facts.location == Some(place))
  {
    AggregateIsSum(rows, LocationKeys, place, None);
    SumIs(rows, LocationKeys, place, (r: Row) => r.facts.location == Some(place));
  }

  lemma ModesLearned(rows: seq<Row>, mode: string)
    requires mode != ""
    ensures WeightAt(LearnedFrom(rows).modes, mode) == Weighing(rows, (r: Row) => r.facts.mode == Some(mode))
  {
    AggregateIsSum(rows, ModeKeys, mode, None);
    SumIs(rows, ModeKeys, mode, (r: Row) => r.facts.mode == Some(mode));
  }

  lemma CompaniesLearned(rows: seq<Row>, company: seq<string>)
    requires company != []
    ensures WeightAt(LearnedFrom(rows).companies, company)
         == Weighing(rows, (r: Row) => r.facts.companyKey == company)
  {
    AggregateIsSum(rows, CompanyKeys, company, None);
    SumIs(rows, CompanyKeys, company, (r: Row) => r.facts.companyKey == company);
  }

  lemma SkillsLearned(rows: seq<Row>, skill: string)
    requires DistinctKeys(rows, SkillKeys)
    ensures WeightAt(LearnedFrom(rows).skills, skill) == Weighing(rows, (r: Row) => skill in r.facts.skills)
  {
    AggregateIsSum(rows, SkillKeys, skill, None);
    SumIs(rows, SkillKeys, skill, (r: Row) => skill in r.facts.skills);
  }

  /** A role that is kept weighs what the signals on jobs of that very role weigh. */
  lemma RolesLearned(rows: seq<Row>, role: Affinity<string>)
    requires role in LearnedFrom(rows).roles
    ensures role.key != "" && role.weight == Weighing(rows, (r: Row) => r.facts.roleKey == role.key)
  {
    RolesHaveNames(rows, role);
    var roles := Fold(rows, RoleKeys);
    AggregateIsSum(rows, RoleKeys, role.key, None);
    SumIs(rows, RoleKeys, role.key, (r: Row) => r.facts.roleKey == role.key);
    TopRolesAreRoles(roles);
    assert role in multiset(TopRoles(roles));
    OnlyOne(roles, role);
  }

  lemma OnlyOne(roles: seq<Affinity<string>>, role: Affinity<string>)
    requires OnePerKey(roles) && role in roles
    ensures WeightAt(roles, role.key) == role.weight
  {
    var i :| 0 <= i < |roles| && roles[i] == role;
    var found := Find(roles, role.key);
    assert found == Some(i);
  }

  /** At most twenty roles are kept. */
  lemma TwentyRoles(rows: seq<Row>)
    ensures |LearnedFrom(rows).roles| == if |Fold(rows, RoleKeys)| <= 20 then |Fold(rows, RoleKeys)| else 20
  {
    StableSort.SortIsStable(Fold(rows, RoleKeys), ByMagnitude);
    assert |multiset(StableSort.Sort(Fold(rows, RoleKeys), ByMagnitude))| == |multiset(Fold(rows, RoleKeys))|;
  }

  /** No role without a name is learned. */
  lemma RolesHaveNames(rows: seq<Row>, role: Affinity<string>)
    requires role in LearnedFrom(rows).roles
    ensures role.key != ""
  {
    var roles := Fold(rows, RoleKeys);
    TopRolesAreRoles(roles);
    assert role in multiset(TopRoles(roles));
    AggregateIsSum(rows, RoleKeys, "", None);
    NoUnnamed(rows);
  }

  lemma {:induction false} NoUnnamed(rows: seq<Row>)
    ensures KeyCount(rows, RoleKeys, "", None) == 0
    decreases |rows|
  {
    if rows != [] {
      NoUnnamed(rows[..|rows| - 1]);
    }
  }

  /** Hidden are exactly the companies of hidden-company signals and the roles of hidden-role signals. */
  lemma HiddenLearned(rows: seq<Row>, company: seq<string>, role: string)
    ensures IsHidden(LearnedFrom(rows).hiddenCompanies, company) <==>
            exists r :: r in rows && r.kind == HideCompany && r.facts.companyKey == company
    ensures IsHidden(LearnedFrom(rows).hiddenRoles, role) <==>
            exists r :: r in rows && r.kind == HideRole && r.facts.roleKey == role
  {
    var companyOf := (r: Row) => r.facts.companyKey;
    var roleOf := (r: Row) => r.facts.roleKey;
    HiddenIff(rows, HideCompany, companyOf, company);
    HiddenIff(rows, HideRole, roleOf, role);
    RowIndex(rows, HideCompany, companyOf, company);
    RowIndex(rows, HideRole, roleOf, role);
  }

  lemma RowIndex<K>(rows: seq<Row>, kind: Kind, keyOf: Row -> K, key: K)
    ensures SomeRowHides(rows, kind, keyOf, key) <==> exists r :: r in rows && r.kind == kind && keyOf(r) == key
  {
    if SomeRowHides(rows, kind, keyOf, key) {
      var i :| 0 <= i < |rows| && rows[i].kind == kind && keyOf(rows[i]) == key;
      assert rows[i] in rows;
    }
    if r :| r in rows && r.kind == kind && keyOf(r) == key {
      var i :| 0 <= i < |rows| && rows[i] == r;
      assert keyOf(rows[i]) == key;
    }
  }
}
