/** What a user's signals add up to. Dictionaries are lists in insertion order, one entry per key. */
module Learning {
  import opened Prelude
  import opened Signals
  import StableSort

  datatype Affinity<K> = Affinity(key: K, weight: real, count: nat, byKind: map<Kind, nat>)

  datatype Hidden<K> = Hidden(key: K, signal: nat)

  datatype Learned = Learned(
    roles: seq<Affinity<string>>,
    skills: seq<Affinity<string>>,
    companies: seq<Affinity<seq<string>>>,
    locations: seq<Affinity<string>>,
    modes: seq<Affinity<string>>,
    hiddenCompanies: seq<Hidden<seq<string>>>,
    hiddenRoles: seq<Hidden<string>>,
    signals: nat)

  const MAX_ROLE_KEYS := 20

  predicate Hides(kind: Kind) {
    kind == HideCompany || kind == HideRole
  }

  function Tally(counts: map<Kind, nat>, kind: Kind): nat {
    if kind in counts then counts[kind] else 0
  }

  function Find<K(==)>(bucket: seq<Affinity<K>>, key: K): (r: Option<nat>)
    ensures r.Some? ==> r.value < |bucket| && bucket[r.value].key == key
                        && forall i :: 0 <= i < r.value ==> bucket[i].key != key
    ensures r.None? ==> forall i :: 0 <= i < |bucket| ==> bucket[i].key != key
  {
    FirstIndex(bucket, (a: Affinity<K>) => a.key == key)
  }

  function Added<K>(a: Affinity<K>, kind: Kind, weight: real): Affinity<K> {
    Affinity(a.key, a.weight + weight, a.count + 1, a.byKind[kind := Tally(a.byKind, kind) + 1])
  }

  function Bump<K(==)>(bucket: seq<Affinity<K>>, key: K, kind: Kind, weight: real): seq<Affinity<K>> {
    match Find(bucket, key)
    case Some(i) => bucket[i := Added(bucket[i], kind, weight)]
    case None => bucket + [Added(Affinity(key, 0.0, 0, map[]), kind, weight)]
  }

  function BumpAll<K(==)>(bucket: seq<Affinity<K>>, keys: seq<K>, kind: Kind, weight: real): seq<Affinity<K>> {
    if keys == [] then bucket
    else Bump(BumpAll(bucket, keys[..|keys| - 1], kind, weight), keys[|keys| - 1], kind, weight)
  }

  /** The keys one row counts towards, in each of the five dimensions. */
  function RoleKeys(r: Row): seq<string> {
    if r.facts.roleKey == "" then [] else [r.facts.roleKey]
  }

  function CompanyKeys(r: Row): seq<seq<string>> {
    if r.facts.companyKey == [] then [] else [r.facts.companyKey]
  }

  function Present(value: Option<string>): seq<string> {
    if value.None? || value.value == "" then [] else [value.value]
  }

  function LocationKeys(r: Row): seq<string> {
    Present(r.facts.location)
  }

  function ModeKeys(r: Row): seq<string> {
    Present(r.facts.mode)
  }

  function SkillKeys(r: Row): seq<string> {
    r.facts.skills
  }

  function Fold<K(==)>(rows: seq<Row>, keysOf: Row -> seq<K>): seq<Affinity<K>> {
    if rows == [] then []
    else
      var before := Fold(rows[..|rows| - 1], keysOf);
      var r := rows[|rows| - 1];
      if Hides(r.kind) then before else BumpAll(before, keysOf(r), r.kind, r.weight)
  }

  predicate IsHidden<K(==)>(hidden: seq<Hidden<K>>, key: K) {
    exists i | 0 <= i < |hidden| :: hidden[i].key == key
  }

  /** The first signal that hides a key is the one remembered. */
  function Hide<K(==)>(hidden: seq<Hidden<K>>, key: K, signal: nat): seq<Hidden<K>> {
    if IsHidden(hidden, key) then hidden else hidden + [Hidden(key, signal)]
  }

  function HiddenBy<K(==)>(rows: seq<Row>, kind: Kind, keyOf: Row -> K): seq<Hidden<K>> {
    if rows == [] then []
    else
      var before := HiddenBy(rows[..|rows| - 1], kind, keyOf);
      var r := rows[|rows| - 1];
      if r.kind == kind then Hide(before, keyOf(r), r.id) else before
  }

  predicate SomeRowHides<K(==)>(rows: seq<Row>, kind: Kind, keyOf: Row -> K, key: K) {
    exists i | 0 <= i < |rows| :: rows[i].kind == kind && keyOf(rows[i]) == key
  }

  lemma HideEffect<K>(hidden: seq<Hidden<K>>, key: K, signal: nat, k: K)
    ensures IsHidden(Hide(hidden, key, signal), k) <==> IsHidden(hidden, k) || k == key
  {
    var after := Hide(hidden, key, signal);
    if IsHidden(hidden, k) {
      var i :| 0 <= i < |hidden| && hidden[i].key == k;
      assert after[i].key == k;
    }
    if !IsHidden(hidden, key) {
      assert after[|hidden|].key == key;
    }
  }

  /** A key is hidden exactly when some hiding signal names it. */
  lemma {:induction false} HiddenIff<K>(rows: seq<Row>, kind: Kind, keyOf: Row -> K, key: K)
    ensures IsHidden(HiddenBy(rows, kind, keyOf), key) <==> SomeRowHides(rows, kind, keyOf, key)
    decreases |rows|
  {
    if rows != [] {
      var n := |rows| - 1;
      HiddenIff(rows[..n], kind, keyOf, key);
      HideEffect(HiddenBy(rows[..n], kind, keyOf), keyOf(rows[n]), rows[n].id, key);
      if SomeRowHides(rows, kind, keyOf, key) {
        var i :| 0 <= i < |rows| && rows[i].kind == kind && keyOf(rows[i]) == key;
        if i < n { assert rows[..n][i] == rows[i]; }
      }
      if SomeRowHides(rows[..n], kind, keyOf, key) {
        var i :| 0 <= i < n && rows[..n][i].kind == kind && keyOf(rows[..n][i]) == key;
        assert rows[i] == rows[..n][i];
      }
    }
  }

  function ByMagnitude(a: Affinity<string>): StableSort.Key {
    (Abs(a.weight), 0.0)
  }

  function TopRoles(roles: seq<Affinity<string>>): seq<Affinity<string>> {
    Take(StableSort.Sort(roles, ByMagnitude), MAX_ROLE_KEYS)
  }

  function LearnedFrom(rows: seq<Row>): Learned {
    Learned(
      TopRoles(Fold(rows, RoleKeys)), Fold(rows, SkillKeys), Fold(rows, CompanyKeys), Fold(rows, LocationKeys),
      Fold(rows, ModeKeys),
      HiddenBy(rows, HideCompany, (r: Row) => r.facts.companyKey),
      HiddenBy(rows, HideRole, (r: Row) => r.facts.roleKey),
      |rows|)
  }

  // ----- the sums a reader would write down -----

  function KeyWeight<K(==)>(rows: seq<Row>, keysOf: Row -> seq<K>, key: K): real {
    if rows == [] then 0.0
    else
      var r := rows[|rows| - 1];
      KeyWeight(rows[..|rows| - 1], keysOf, key) + (if !Hides(r.kind) && key in keysOf(r) then r.weight else 0.0)
  }

  /** How many rows of the given kind, or of any kind, count towards the key. */
  function KeyCount<K(==)>(rows: seq<Row>, keysOf: Row -> seq<K>, key: K, kind: Option<Kind>): nat {
    if rows == [] then 0
    else
      var r := rows[|rows| - 1];
      KeyCount(rows[..|rows| - 1], keysOf, key, kind)
      + (if !Hides(r.kind) && key in keysOf(r) && (kind.None? || kind.value == r.kind) then 1 else 0)
  }

  function WeightAt<K(==)>(bucket: seq<Affinity<K>>, key: K): real {
    var i := Find(bucket, key);
    if i.Some? then bucket[i.value].weight else 0.0
  }

  function CountAt<K(==)>(bucket: seq<Affinity<K>>, key: K, kind: Option<Kind>): nat {
    var i := Find(bucket, key);
    if i.None? then 0
    else if kind.None? then bucket[i.value].count
    else Tally(bucket[i.value].byKind, kind.value)
  }

  ghost predicate Distinct<K>(keys: seq<K>) {
    forall i, k :: 0 <= i < k < |keys| ==> keys[i] != keys[k]
  }

  ghost predicate OnePerKey<K>(bucket: seq<Affinity<K>>) {
    forall i, k :: 0 <= i < k < |bucket| ==> bucket[i].key != bucket[k].key
  }

  lemma FindUnique<K>(bucket: seq<Affinity<K>>, i: nat)
    requires OnePerKey(bucket) && i < |bucket|
    ensures Find(bucket, bucket[i].key) == Some(i)
  {
  }

  /** A bump finds its key where it was, or puts it at the end; it moves nothing else. */
  lemma BumpFinds<K>(bucket: seq<Affinity<K>>, key: K, kind: Kind, weight: real, k: K)
    requires OnePerKey(bucket)
    ensures OnePerKey(Bump(bucket, key, kind, weight))
    ensures Find(Bump(bucket, key, kind, weight), k) ==
            if Find(bucket, k).Some? then Find(bucket, k) else if k == key then Some(|bucket|) else None
  {
    var after := Bump(bucket, key, kind, weight);
    var i := Find(bucket, k);
    if i.Some? {
      assert after[i.value].key == k;
      FindUnique(after, i.value);
    } else if k == key {
      assert after[|bucket|].key == key;
      FindUnique(after, |bucket|);
    }
  }

  lemma BumpEffect<K>(bucket: seq<Affinity<K>>, key: K, kind: Kind, weight: real, k: K, of: Option<Kind>)
    requires OnePerKey(bucket)
    ensures OnePerKey(Bump(bucket, key, kind, weight))
    ensures WeightAt(Bump(bucket, key, kind, weight), k) == WeightAt(bucket, k) + (if k == key then weight else 0.0)
    ensures CountAt(Bump(bucket, key, kind, weight), k, of)
         == CountAt(bucket, k, of) + (if k == key && (of.None? || of.value == kind) then 1 else 0)
    ensures Find(Bump(bucket, key, kind, weight), k).Some? <==> k == key || Find(bucket, k).Some?
  {
    BumpFinds(bucket, key, kind, weight, k);
  }

  lemma {:induction false} BumpAllEffect<K>(
    bucket: seq<Affinity<K>>, keys: seq<K>, kind: Kind, weight: real, k: K, of: Option<Kind>)
    requires OnePerKey(bucket) && Distinct(keys)
    ensures OnePerKey(BumpAll(bucket, keys, kind, weight))
    ensures WeightAt(BumpAll(bucket, keys, kind, weight), k)
         == WeightAt(bucket, k) + (if k in keys then weight else 0.0)
    ensures CountAt(BumpAll(bucket, keys, kind, weight), k, of)
         == CountAt(bucket, k, of) + (if k in keys && (of.None? || of.value == kind) then 1 else 0)
    ensures Find(BumpAll(bucket, keys, kind, weight), k).Some? <==> k in keys || Find(bucket, k).Some?
    decreases |keys|
  {
    if keys != [] {
      var n := |keys| - 1;
      assert keys == keys[..n] + [keys[n]];
      BumpAllEffect(bucket, keys[..n], kind, weight, k, of);
      BumpEffect(BumpAll(bucket, keys[..n], kind, weight), keys[n], kind, weight, k, of);
    }
  }

  ghost predicate DistinctKeys<K(!new)>(rows: seq<Row>, keysOf: Row -> seq<K>) {
    forall i :: 0 <= i < |rows| ==> Distinct(keysOf(rows[i]))
  }

  /** Aggregation is summation: every key holds the exact weight and counts of the rows that mention it, and a key is
      present exactly when some row does. */
  lemma {:induction false} AggregateIsSum<K(!new)>(rows: seq<Row>, keysOf: Row -> seq<K>, k: K, of: Option<Kind>)
    requires DistinctKeys(rows, keysOf)
    ensures OnePerKey(Fold(rows, keysOf))
    ensures WeightAt(Fold(rows, keysOf), k) == KeyWeight(rows, keysOf, k)
    ensures CountAt(Fold(rows, keysOf), k, of) == KeyCount(rows, keysOf, k, of)
    ensures Find(Fold(rows, keysOf), k).Some? <==> KeyCount(rows, keysOf, k, None) > 0
    decreases |rows|
  {
    if rows != [] {
      var n := |rows| - 1;
      AggregateIsSum(rows[..n], keysOf, k, of);
      if !Hides(rows[n].kind) {
        BumpAllEffect(Fold(rows[..n], keysOf), keysOf(rows[n]), rows[n].kind, rows[n].weight, k, of);
      }
    }
  }

  // ----- conservation -----

  function Total<K>(bucket: seq<Affinity<K>>): real {
    if bucket == [] then 0.0 else Total(bucket[..|bucket| - 1]) + bucket[|bucket| - 1].weight
  }

  function Times(n: nat, weight: real): real {
    if n == 0 then 0.0 else Times(n - 1, weight) + weight
  }

  /** The weights of all rows that count, once per key they mention. */
  function TotalWeight<K>(rows: seq<Row>, keysOf: Row -> seq<K>): real {
    if rows == [] then 0.0
    else
      var r := rows[|rows| - 1];
      TotalWeight(rows[..|rows| - 1], keysOf) + (if Hides(r.kind) then 0.0 else Times(|keysOf(r)|, r.weight))
  }

  lemma {:induction false} TotalUpdate<K>(bucket: seq<Affinity<K>>, i: nat, a: Affinity<K>)
    requires i < |bucket|
    ensures Total(bucket[i := a]) == Total(bucket) + a.weight - bucket[i].weight
    decreases |bucket|
  {
    var n := |bucket| - 1;
    if i < n {
      assert bucket[i := a][..n] == bucket[..n][i := a];
      TotalUpdate(bucket[..n], i, a);
    } else {
      assert bucket[i := a][..n] == bucket[..n];
    }
  }

  lemma BumpTotal<K>(bucket: seq<Affinity<K>>, key: K, kind: Kind, weight: real)
    ensures Total(Bump(bucket, key, kind, weight)) == Total(bucket) + weight
  {
    match Find(bucket, key) {
      case Some(i) => TotalUpdate(bucket, i, Added(bucket[i], kind, weight));
      case None => assert Bump(bucket, key, kind, weight)[..|bucket|] == bucket;
    }
  }

  lemma {:induction false} BumpAllTotal<K>(bucket: seq<Affinity<K>>, keys: seq<K>, kind: Kind, weight: real)
    ensures Total(BumpAll(bucket, keys, kind, weight)) == Total(bucket) + Times(|keys|, weight)
    decreases |keys|
  {
    if keys != [] {
      var n := |keys| - 1;
      BumpAllTotal(bucket, keys[..n], kind, weight);
      BumpTotal(BumpAll(bucket, keys[..n], kind, weight), keys[n], kind, weight);
    }
  }

  /** No weight is lost or invented: a dimension's weights sum to the weights of all its rows. */
  lemma {:induction false} WeightIsConserved<K>(rows: seq<Row>, keysOf: Row -> seq<K>)
    ensures Total(Fold(rows, keysOf)) == TotalWeight(rows, keysOf)
    decreases |rows|
  {
    if rows != [] {
      var n := |rows| - 1;
      WeightIsConserved(rows[..n], keysOf);
      if !Hides(rows[n].kind) {
        BumpAllTotal(Fold(rows[..n], keysOf), keysOf(rows[n]), rows[n].kind, rows[n].weight);
      }
    }
  }

  function KindSum(counts: map<Kind, nat>): nat {
    Tally(counts, Like) + Tally(counts, Save) + Tally(counts, Apply) + Tally(counts, Dislike)
    + Tally(counts, NotRelevant) + Tally(counts, HideCompany) + Tally(counts, HideRole)
  }

  ghost predicate KindsCounted<K>(bucket: seq<Affinity<K>>) {
    forall i :: 0 <= i < |bucket| ==> KindSum(bucket[i].byKind) == bucket[i].count
  }

  lemma AddedKinds<K>(a: Affinity<K>, kind: Kind, weight: real)
    requires KindSum(a.byKind) == a.count
    ensures KindSum(Added(a, kind, weight).byKind) == Added(a, kind, weight).count
  {
    var after := Added(a, kind, weight).byKind;
    assert forall k :: Tally(after, k) == Tally(a.byKind, k) + (if k == kind then 1 else 0);
  }

  lemma BumpKinds<K>(bucket: seq<Affinity<K>>, key: K, kind: Kind, weight: real)
    requires KindsCounted(bucket)
    ensures KindsCounted(Bump(bucket, key, kind, weight))
  {
    var i := Find(bucket, key);
    AddedKinds(if i.Some? then bucket[i.value] else Affinity(key, 0.0, 0, map[]), kind, weight);
  }

  lemma {:induction false} BumpAllKinds<K>(bucket: seq<Affinity<K>>, keys: seq<K>, kind: Kind, weight: real)
    requires KindsCounted(bucket)
    ensures KindsCounted(BumpAll(bucket, keys, kind, weight))
    decreases |keys|
  {
    if keys != [] {
      var n := |keys| - 1;
      BumpAllKinds(bucket, keys[..n], kind, weight);
      BumpKinds(BumpAll(bucket, keys[..n], kind, weight), keys[n], kind, weight);
    }
  }

  /** The counts by kind of an affinity sum to its count. */
  lemma {:induction false} KindsSumToCount<K>(rows: seq<Row>, keysOf: Row -> seq<K>)
    ensures KindsCounted(Fold(rows, keysOf))
    decreases |rows|
  {
    if rows != [] {
      var n := |rows| - 1;
      KindsSumToCount(rows[..n], keysOf);
      BumpAllKinds(Fold(rows[..n], keysOf), keysOf(rows[n]), rows[n].kind, rows[n].weight);
    }
  }

  // ----- the order of the rows -----

  lemma {:induction false} KeyWeightRemove<K>(rows: seq<Row>, i: nat, keysOf: Row -> seq<K>, key: K)
    requires i < |rows|
    ensures KeyWeight(rows, keysOf, key) == KeyWeight(rows[..i] + rows[i + 1..], keysOf, key)
         + (if !Hides(rows[i].kind) && key in keysOf(rows[i]) then rows[i].weight else 0.0)
    decreases |rows|
  {
    var n := |rows| - 1;
    if i < n {
      KeyWeightRemove(rows[..n], i, keysOf, key);
      assert (rows[..i] + rows[i + 1..])[..n - 1] == rows[..n][..i] + rows[..n][i + 1..];
    } else {
      assert rows[..i] + rows[i + 1..] == rows[..n];
    }
  }

  /** Where the last row of `a` stands in a rearrangement, and what is left without it. */
  lemma FindLast(a: seq<Row>, b: seq<Row>) returns (i: nat)
    requires multiset(a) == multiset(b) && a != []
    ensures i < |b| && b[i] == a[|a| - 1]
    ensures multiset(b[..i] + b[i + 1..]) == multiset(a[..|a| - 1])
  {
    var n := |a| - 1;
    assert a == a[..n] + [a[n]];
    assert a[n] in multiset(b);
    i :| 0 <= i < |b| && b[i] == a[n];
    assert b == b[..i] + [b[i]] + b[i + 1..];
    assert multiset(b[..i] + b[i + 1..]) == multiset(b) - multiset{b[i]};
    assert multiset(a[..n]) == multiset(a) - multiset{a[n]};
  }

  lemma {:induction false} KeyWeightIgnoresOrder<K>(a: seq<Row>, b: seq<Row>, keysOf: Row -> seq<K>, key: K)
    requires multiset(a) == multiset(b)
    ensures KeyWeight(a, keysOf, key) == KeyWeight(b, keysOf, key)
    decreases |a|
  {
    if a == [] {
      assert |multiset(b)| == 0;
    } else {
      var i := FindLast(a, b);
      KeyWeightIgnoresOrder(a[..|a| - 1], b[..i] + b[i + 1..], keysOf, key);
      KeyWeightRemove(b, i, keysOf, key);
    }
  }

  /** Learned weights do not depend on the order the signals came in. */
  lemma WeightsIgnoreOrder<K(!new)>(a: seq<Row>, b: seq<Row>, keysOf: Row -> seq<K>, key: K)
    requires multiset(a) == multiset(b) && DistinctKeys(a, keysOf)
    ensures WeightAt(Fold(a, keysOf), key) == WeightAt(Fold(b, keysOf), key)
  {
    forall i | 0 <= i < |b| ensures Distinct(keysOf(b[i])) {
      assert b[i] in multiset(a);
      assert b[i] in a;
    }
    AggregateIsSum(a, keysOf, key, None);
    AggregateIsSum(b, keysOf, key, None);
    KeyWeightIgnoresOrder(a, b, keysOf, key);
  }

  lemma TakeSplits(roles: seq<Affinity<string>>, sorted: seq<Affinity<string>>, n: nat)
    requires multiset(sorted) == multiset(roles) && n <= |sorted|
    ensures |sorted| == |roles|
    ensures multiset(roles) - multiset(sorted[..n]) == multiset(sorted[n..])
  {
    assert sorted == sorted[..n] + sorted[n..];
    assert |multiset(sorted)| == |multiset(roles)|;
  }

  lemma DroppedIsBehind(roles: seq<Affinity<string>>, left: Affinity<string>)
    requires left in multiset(roles) - multiset(TopRoles(roles))
    ensures var sorted := StableSort.Sort(roles, ByMagnitude);
            |sorted| == |roles| && |TopRoles(roles)| == MAX_ROLE_KEYS < |roles|
            && TopRoles(roles) == sorted[..MAX_ROLE_KEYS] && left in sorted[MAX_ROLE_KEYS..]
  {
    var sorted := StableSort.Sort(roles, ByMagnitude);
    StableSort.SortIsStable(roles, ByMagnitude);
    TakeSplits(roles, sorted, |TopRoles(roles)|);
    assert left in multiset(sorted[|TopRoles(roles)|..]);
  }

  lemma TopRolesAreRoles(roles: seq<Affinity<string>>)
    ensures multiset(TopRoles(roles)) <= multiset(roles)
  {
    var sorted := StableSort.Sort(roles, ByMagnitude);
    StableSort.SortIsStable(roles, ByMagnitude);
    assert sorted == TopRoles(roles) + sorted[|TopRoles(roles)|..];
  }

  /** The roles kept are the strongest: all of them up to twenty, and none weaker than one left out. */
  lemma TopRolesAreStrongest(roles: seq<Affinity<string>>, kept: Affinity<string>, left: Affinity<string>)
    requires kept in TopRoles(roles) && left in multiset(roles) - multiset(TopRoles(roles))
    ensures |TopRoles(roles)| == MAX_ROLE_KEYS < |roles|
    ensures multiset(TopRoles(roles)) <= multiset(roles)
    ensures Abs(kept.weight) >= Abs(left.weight)
  {
    DroppedIsBehind(roles, left);
    TopRolesAreRoles(roles);
    StableSort.SortIsStable(roles, ByMagnitude);
    FirstBeatsRest(StableSort.Sort(roles, ByMagnitude), MAX_ROLE_KEYS, kept, left);
  }

  lemma FirstBeatsRest(sorted: seq<Affinity<string>>, n: nat, kept: Affinity<string>, left: Affinity<string>)
    requires StableSort.Sorted(sorted, ByMagnitude) && n <= |sorted|
    requires kept in sorted[..n] && left in sorted[n..]
    ensures Abs(kept.weight) >= Abs(left.weight)
  {
    var i :| 0 <= i < n && sorted[..n][i] == kept;
    var k :| 0 <= k < |sorted| - n && sorted[n..][k] == left;
    assert sorted[i] == kept && sorted[n + k] == left;
    assert !StableSort.Above(ByMagnitude(left), ByMagnitude(kept));
  }

  /** Up to twenty roles, none is dropped. */
  lemma FewRolesAllKept(roles: seq<Affinity<string>>)
    requires |roles| <= MAX_ROLE_KEYS
    ensures multiset(TopRoles(roles)) == multiset(roles)
  {
    var sorted := StableSort.Sort(roles, ByMagnitude);
    StableSort.SortIsStable(roles, ByMagnitude);
    TakeSplits(roles, sorted, |sorted|);
    assert sorted[..|sorted|] == sorted;
  }

  // ----- the loop -----

  method BumpEach<K(==)>(bucket: seq<Affinity<K>>, keys: seq<K>, kind: Kind, weight: real)
    returns (r: seq<Affinity<K>>)
    ensures r == BumpAll(bucket, keys, kind, weight)
  {
    r := bucket;
    for j := 0 to |keys|
      invariant r == BumpAll(bucket, keys[..j], kind, weight)
    {
      r := Bump(r, keys[j], kind, weight);
      assert keys[..j + 1][..j] == keys[..j];
    }
    assert keys[..|keys|] == keys;
  }

  method Aggregate(rows: seq<Row>) returns (learned: Learned)
    ensures learned == LearnedFrom(rows)
  {
    var roles, skills, companies, locations, modes := [], [], [], [], [];
    var hiddenCompanies, hiddenRoles := [], [];
    var companyOf := (r: Row) => r.facts.companyKey;
    var roleOf := (r: Row) => r.facts.roleKey;
    for i := 0 to |rows|
      invariant roles == Fold(rows[..i], RoleKeys)
      invariant skills == Fold(rows[..i], SkillKeys)
      invariant companies == Fold(rows[..i], CompanyKeys)
      invariant locations == Fold(rows[..i], LocationKeys)
      invariant modes == Fold(rows[..i], ModeKeys)
      invariant hiddenCompanies == HiddenBy(rows[..i], HideCompany, companyOf)
      invariant hiddenRoles == HiddenBy(rows[..i], HideRole, roleOf)
    {
      assert rows[..i + 1][..i] == rows[..i];
      var row := rows[i];
      if row.kind == HideCompany {
        hiddenCompanies := Hide(hiddenCompanies, row.facts.companyKey, row.id);
      } else if row.kind == HideRole {
        hiddenRoles := Hide(hiddenRoles, row.facts.roleKey, row.id);
      } else {
        roles := BumpAll(roles, RoleKeys(row), row.kind, row.weight);
        companies := BumpAll(companies, CompanyKeys(row), row.kind, row.weight);
        locations := BumpAll(locations, LocationKeys(row), row.kind, row.weight);
        modes := BumpAll(modes, ModeKeys(row), row.kind, row.weight);
        skills := BumpEach(skills, row.facts.skills, row.kind, row.weight);
      }
    }
    assert rows[..|rows|] == rows;
    learned := Learned(
      TopRoles(roles), skills, companies, locations, modes, hiddenCompanies, hiddenRoles, |rows|);
  }
}
