/** Where the idempotence of a re-run ends: an item without an external id that was merged by similarity is only
    found again while its match is still among the newest candidates. Here newer postings of the same company push
    the match out, at every window size and for every employer, and running the same batch again stores the item
    as a new Job. Content hashes are those of the content: a hash function that tells these postings apart. */
module RerunLimits {
  import opened Prelude
  import opened JobIdentity
  import opened DuplicateDetection
  import opened JobStore
  import opened Deduplication

  const BOARD := "board"
  const LETTERS := "abcde"

  /** The letters as words of their own: "a b c" for "abc". */
  function Spaced(letters: string): string {
    if |letters| <= 1 then letters else [letters[0], ' '] + Spaced(letters[1..])
  }

  const SHORT := Spaced(LETTERS[..4])
  const LONG := Spaced(LETTERS)

  const FIRST := Posting("engineer", Some("x"), Some(SHORT), Some(0))
  const REWORDED := Posting("engineer", Some("x"), Some(LONG), Some(0))

  /** What a content hash is computed from. */
  datatype Content = Content(title: string, company: seq<string>, location: string, description: string)

  function OrEmpty(value: Option<string>): string {
    if value.Some? then value.value else ""
  }

  function ContentOf(text: Text, posting: Posting, companyName: string): Content {
    Content(posting.title, KeyOf(text, companyName), OrEmpty(posting.location), text.casefold(OrEmpty(posting.description)))
  }

  /** The employer, the text operations, the hash and the settings of one example. */
  datatype World = World(text: Text, hash: Content -> string, name: string, limit: nat) {
    function Shipped(): Config {
      Config(text, DEFAULTS.(maxCandidates := limit))
    }

    function HashOf(posting: Posting): string {
      hash(ContentOf(text, posting, name))
    }

    function Unkeyed(posting: Posting): Item {
      Item(BOARD, None, Some("u"), None, posting, name, HashOf(posting), None)
    }

    function Row(posting: Posting): Job {
      Job(None, 0, None, posting, Some(0), name, HashOf(posting), None, false)
    }
  }

  function Letters(k: nat): string {
    seq(k, _ => 'a')
  }

  /** A posting with a title of its own and nothing else. */
  function Other(k: nat): Posting {
    Posting(Letters(k), None, None, None)
  }

  /** The descriptions are already folded, and the hash tells the first posting, the reworded one and the others apart. */
  ghost predicate Plain(w: World) {
    w.limit > 0 && w.text.casefold(SHORT) == SHORT && w.text.casefold(LONG) == LONG
    && w.HashOf(FIRST) != w.HashOf(REWORDED)
    && (forall k: nat :: k > 0 ==> w.HashOf(Other(k)) != w.HashOf(FIRST) && w.HashOf(Other(k)) != w.HashOf(REWORDED))
    && (forall i: nat, k: nat :: i < k ==> w.HashOf(Other(i)) != w.HashOf(Other(k)))
  }

  ghost predicate Injective(hash: Content -> string) {
    forall a, b :: hash(a) == hash(b) ==> a == b
  }

  /** A hash without collisions tells them apart: the postings really differ in content. */
  lemma CollisionFreeHashIsPlain(w: World)
    requires Injective(w.hash) && w.limit > 0 && w.text.casefold(SHORT) == SHORT && w.text.casefold(LONG) == LONG
    ensures Plain(w)
  {
    SpacedIsNotEmpty(LETTERS);
    SpacedIsNotEmpty(LETTERS[..4]);
    assert |SHORT| == 7 && |LONG| == 9;
    forall k: nat | k > 0 ensures Other(k).title != FIRST.title {
      assert Letters(k)[0] == 'a' && FIRST.title[0] == 'e';
    }
    forall i: nat, k: nat | i < k ensures Other(i).title != Other(k).title {
      assert |Letters(i)| == i && |Letters(k)| == k;
    }
  }

  /** Every row carries the hash of its own content. */
  ghost predicate RowsHashed(w: World, s: Store) {
    forall j :: 0 <= j < |s.jobs| ==>
      s.jobs[j].contentHash == w.hash(ContentOf(w.text, s.jobs[j].posting, s.jobs[j].companyName))
  }

  ghost predicate ItemsHashed(w: World, items: seq<Item>) {
    forall k :: 0 <= k < |items| ==>
      items[k].contentHash == w.hash(ContentOf(w.text, items[k].posting, items[k].companyName))
  }

  /** One company with one posting. */
  function Start(w: World): Store {
    Store([Company(w.name, KeyOf(w.text, w.name), map[])],
          [w.Row(FIRST)],
          [Listing(0, 0, None, "u", None, Some(0), true)])
  }

  /** The reworded posting, then `n` unrelated new ones from the same company. */
  function Batch(w: World, n: nat): (b: seq<Item>)
    ensures |b| == n + 1 && b[0] == w.Unkeyed(REWORDED)
    decreases n
  {
    if n == 0 then [w.Unkeyed(REWORDED)] else Batch(w, n - 1) + [w.Unkeyed(Other(n))]
  }

  lemma {:induction false} BatchIsHashed(w: World, n: nat)
    ensures ItemsHashed(w, Batch(w, n))
    decreases n
  {
    if n > 0 { BatchIsHashed(w, n - 1); }
  }

  // ----- the two descriptions are two thirds alike -----

  function Singles(letters: string): (r: seq<string>)
    ensures |r| == |letters| && forall i :: 0 <= i < |r| ==> r[i] == [letters[i]]
  {
    seq(|letters|, i requires 0 <= i < |letters| => [letters[i]])
  }

  predicate NoBlanks(letters: string) {
    forall i :: 0 <= i < |letters| ==> !Blank(letters[i])
  }

  lemma OneLetter(c: char)
    requires !Blank(c)
    ensures Words([c]) == [[c]]
  {
    assert [c][1..] == "" && "" + [c] == [c];
  }

  lemma LetterAndRest(c: char, rest: string)
    requires !Blank(c)
    ensures Words([c, ' '] + rest) == [[c]] + Words(rest)
  {
    var all := [c, ' '] + rest;
    assert all[1..] == [' '] + rest && all[1..][1..] == rest && "" + [c] == [c];
  }

  lemma {:induction false} SpacedWords(letters: string)
    requires letters != "" && NoBlanks(letters)
    ensures Words(Spaced(letters)) == Singles(letters)
    decreases |letters|
  {
    if |letters| == 1 {
      assert letters == [letters[0]];
      OneLetter(letters[0]);
    } else {
      LetterAndRest(letters[0], Spaced(letters[1..]));
      SpacedWords(letters[1..]);
      assert Singles(letters) == [[letters[0]]] + Singles(letters[1..]);
    }
  }

  lemma FourShingles(text: string, t: seq<string>)
    requires |t| == 4 && Words(text) == t
    ensures Shingles(text) == {t[0..3], t[1..4]}
  {
    assert Take(t, MAX_TOKENS) == t;
    assert ShingleAt(t, 0) == t[0..3] && ShingleAt(t, 1) == t[1..4];
    forall x ensures x in Shingles(text) <==> x in {t[0..3], t[1..4]} {
      if x in Shingles(text) {
        var i: nat :| i <= 1 && x == ShingleAt(t, i);
      }
    }
  }

  lemma FiveShingles(text: string, t: seq<string>)
    requires |t| == 5 && Words(text) == t
    ensures Shingles(text) == {t[0..3], t[1..4], t[2..5]}
  {
    assert Take(t, MAX_TOKENS) == t;
    assert ShingleAt(t, 0) == t[0..3] && ShingleAt(t, 1) == t[1..4] && ShingleAt(t, 2) == t[2..5];
    forall x ensures x in Shingles(text) <==> x in {t[0..3], t[1..4], t[2..5]} {
      if x in Shingles(text) {
        var i: nat :| i <= 2 && x == ShingleAt(t, i);
      }
    }
  }

  lemma TwoOfThree<T>(x: T, y: T, z: T)
    requires x != y && y != z && x != z
    ensures Jaccard({x, y}, {x, y, z}) == 2.0 / 3.0 && Jaccard({x, y, z}, {x, y}) == 2.0 / 3.0
  {
    assert {x, y} * {x, y, z} == {x, y} && {x, y} + {x, y, z} == {x, y, z};
    assert {x, y, z} * {x, y} == {x, y} && {x, y, z} + {x, y} == {x, y, z};
  }

  lemma ShinglesDiffer(letters: string, t: seq<string>)
    requires |letters| == 5 && t == Singles(letters)
    requires letters[0] != letters[1] && letters[1] != letters[2] && letters[0] != letters[2]
    ensures t[0..3] != t[1..4] && t[1..4] != t[2..5] && t[0..3] != t[2..5]
  {
    assert t[0..3][0] == [letters[0]] && t[1..4][0] == [letters[1]] && t[2..5][0] == [letters[2]];
    assert t[0..3][0][0] != t[1..4][0][0] && t[1..4][0][0] != t[2..5][0][0] && t[0..3][0][0] != t[2..5][0][0];
  }

  lemma OneMoreWord(letters: string)
    requires |letters| == 5 && NoBlanks(letters)
    requires letters[0] != letters[1] && letters[1] != letters[2] && letters[0] != letters[2]
    ensures Shingles(Spaced(letters)) != {} && Shingles(Spaced(letters[..4])) != {}
    ensures Jaccard(Shingles(Spaced(letters)), Shingles(Spaced(letters[..4]))) == 2.0 / 3.0
  {
    var t, front := Singles(letters), Singles(letters[..4]);
    SpacedWords(letters);
    SpacedWords(letters[..4]);
    FiveShingles(Spaced(letters), t);
    FourShingles(Spaced(letters[..4]), front);
    assert front[0..3] == t[0..3] && front[1..4] == t[1..4];
    ShinglesDiffer(letters, t);
    TwoOfThree(t[0..3], t[1..4], t[2..5]);
  }

  lemma {:induction false} SpacedIsNotEmpty(letters: string)
    requires letters != ""
    ensures Spaced(letters) != "" && |Spaced(letters)| == 2 * |letters| - 1
    decreases |letters|
  {
    if |letters| > 1 { SpacedIsNotEmpty(letters[1..]); }
  }

  lemma DescriptionsTwoThirdsAlike(w: World)
    requires Plain(w)
    ensures DescriptionSimilarity(w.text, REWORDED.description, FIRST.description) == Some(2.0 / 3.0)
  {
    SpacedIsNotEmpty(LETTERS);
    SpacedIsNotEmpty(LETTERS[..4]);
    OneMoreWord(LETTERS);
  }

  lemma HighScore(s: Settings, sig: Signals)
    requires s.title == 0.45 && s.description == 0.30 && s.location == 0.15 && s.date == 0.10
    requires sig == Signals(1.0, Some(2.0 / 3.0), Some(1.0), Some(1.0))
    ensures Score(s, sig) >= 0.85
  {
    assert WeightedSum(s, sig) == 0.9;
    DivisionOrder(WeightedSum(s, sig), 0.85, s.Total());
  }

  lemma SameLocation(l: string)
    requires l != ""
    ensures LocationSimilarity(Some(l), Some(l)) == Some(1.0)
  {
    assert OccursAt(l, l, 0);
  }

  lemma RewordedScores(w: World)
    requires Plain(w)
    ensures GatedScore(w.text, w.Shipped().settings, REWORDED, FIRST) >= 0.85
  {
    DescriptionsTwoThirdsAlike(w);
    SameLocation("x");
    HighScore(w.Shipped().settings, Compare(w.text, REWORDED, FIRST));
  }

  // ----- postings that say too little -----

  lemma TitleAloneScoresLow(w: World, sig: Signals)
    requires sig.description.None? && sig.location.None? && sig.date.None?
    ensures Score(w.Shipped().settings, sig) <= 0.45
  {
    var s := w.Shipped().settings;
    assert s.Total() == 1.0;
    PartOfWhole(s.title, sig.title);
    DivisionOrder(WeightedSum(s, sig), 0.45, s.Total());
  }

  lemma OthersScoreLow(w: World, a: Posting, b: Posting, k: nat)
    requires a == Other(k) || b == Other(k)
    ensures GatedScore(w.text, w.Shipped().settings, a, b) <= 0.45
  {
    TitleAloneScoresLow(w, Compare(w.text, a, b));
  }

  lemma LowScoresDecide(w: World, item: Posting, existing: seq<Candidate>)
    requires forall k :: 0 <= k < |existing| ==>
               GatedScore(w.text, w.Shipped().settings, item, existing[k].posting) <= 0.45
    ensures Decide(w.text, w.Shipped().settings, item, existing).Distinct?
  {
    LeaderIsFirstMaximum(GatedScores(w.text, w.Shipped().settings, item, existing));
  }

  // ----- the first run -----

  ghost predicate Shape(w: World, s: Store, n: nat) {
    s.companies == Start(w).companies && |s.jobs| == n + 1 && s.jobs[0] == w.Row(FIRST)
    && forall j :: 1 <= j <= n ==> s.jobs[j] == w.Row(Other(j))
  }

  lemma ShapeIsHashed(w: World, s: Store, n: nat)
    requires Shape(w, s, n)
    ensures RowsHashed(w, s)
  {
  }

  lemma StartConsistent(w: World)
    ensures Consistent(w.text, Start(w))
  {
    assert IsPrimaryOf(Start(w), 0, 0);
    assert HasPrimary(Start(w), 0);
  }

  lemma SameCompany(w: World, s: Store, posting: Posting)
    requires s.companies == Start(w).companies
    ensures ResolveCompany(w.text, s, w.Unkeyed(posting)) == (s, 0)
  {
  }

  lemma RewordedMerges(w: World)
    requires Plain(w)
    ensures DecideFor(w.Shipped(), Start(w), w.Unkeyed(REWORDED), 0).Duplicate?
  {
    var s := Start(w);
    assert LiveJobs(s.jobs, 0) == [0];
    var existing := AsCandidates(s, CandidateIds(s, 0, w.limit));
    assert existing == [Candidate(0, FIRST)];
    RewordedScores(w);
    assert GatedScore(w.text, w.Shipped().settings, REWORDED, existing[0].posting) >= 0.85;
    MergesIff(w.text, w.Shipped().settings, REWORDED, existing);
  }

  /** A merge adds no Job and no company. */
  lemma MergedItemAddsNothing(w: World, s: Store, posting: Posting)
    requires s.companies == Start(w).companies && DecideFor(w.Shipped(), s, w.Unkeyed(posting), 0).Duplicate?
    ensures Persist(w.Shipped(), s, w.Unkeyed(posting), 0).0.jobs == s.jobs
    ensures Persist(w.Shipped(), s, w.Unkeyed(posting), 0).0.companies == s.companies
  {
    SameCompany(w, s, posting);
  }

  lemma FirstRunMerges(w: World)
    requires Plain(w)
    ensures Shape(w, Persist(w.Shipped(), Start(w), w.Unkeyed(REWORDED), 0).0, 0)
  {
    RewordedMerges(w);
    MergedItemAddsNothing(w, Start(w), REWORDED);
  }

  lemma OtherIsNew(w: World, s: Store, n: nat)
    requires Plain(w) && Shape(w, s, n)
    ensures FindExisting(s, w.Unkeyed(Other(n + 1))).None?
    ensures DecideFor(w.Shipped(), s, w.Unkeyed(Other(n + 1)), 0).Distinct?
  {
    var existing := AsCandidates(s, CandidateIds(s, 0, w.limit));
    forall k | 0 <= k < |existing|
      ensures GatedScore(w.text, w.Shipped().settings, Other(n + 1), existing[k].posting) <= 0.45
    {
      OthersScoreLow(w, Other(n + 1), existing[k].posting, n + 1);
    }
    LowScoresDecide(w, Other(n + 1), existing);
  }

  lemma NewItemAppends(w: World, s: Store, posting: Posting)
    requires s.companies == Start(w).companies && FindExisting(s, w.Unkeyed(posting)).None?
    requires DecideFor(w.Shipped(), s, w.Unkeyed(posting), 0).Distinct?
    ensures Persist(w.Shipped(), s, w.Unkeyed(posting), 0).0.companies == s.companies
    ensures Persist(w.Shipped(), s, w.Unkeyed(posting), 0).0.jobs == s.jobs + [w.Row(posting)]
  {
    SameCompany(w, s, posting);
  }

  lemma ShapeGrows(w: World, s: Store, t: Store, n: nat)
    requires Shape(w, s, n) && t.companies == s.companies && t.jobs == s.jobs + [w.Row(Other(n + 1))]
    ensures Shape(w, t, n + 1)
  {
  }

  lemma OtherCreates(w: World, s: Store, n: nat)
    requires Plain(w) && Shape(w, s, n)
    ensures Shape(w, Persist(w.Shipped(), s, w.Unkeyed(Other(n + 1)), 0).0, n + 1)
  {
    OtherIsNew(w, s, n);
    NewItemAppends(w, s, Other(n + 1));
    ShapeGrows(w, s, Persist(w.Shipped(), s, w.Unkeyed(Other(n + 1)), 0).0, n);
  }

  lemma OneMore(cfg: Config, sources: map<string, nat>, s: Store, front: seq<Item>, item: Item)
    requires item.sourceName in sources
    ensures PersistAll(cfg, sources, s, front + [item]).0
         == Persist(cfg, PersistAll(cfg, sources, s, front).0, item, sources[item.sourceName]).0
  {
    var batch := front + [item];
    assert batch[..|batch| - 1] == front && batch[|batch| - 1] == item;
  }

  lemma AfterReworded(w: World, sources: map<string, nat>)
    requires Plain(w) && BOARD in sources && sources[BOARD] == 0
    ensures Shape(w, PersistAll(w.Shipped(), sources, Start(w), Batch(w, 0)).0, 0)
  {
    FirstRunMerges(w);
    OneMore(w.Shipped(), sources, Start(w), [], w.Unkeyed(REWORDED));
    assert [] + [w.Unkeyed(REWORDED)] == Batch(w, 0);
  }

  lemma AfterOther(w: World, sources: map<string, nat>, n: nat)
    requires Plain(w) && BOARD in sources && sources[BOARD] == 0
    requires Shape(w, PersistAll(w.Shipped(), sources, Start(w), Batch(w, n)).0, n)
    ensures Shape(w, PersistAll(w.Shipped(), sources, Start(w), Batch(w, n + 1)).0, n + 1)
  {
    OneMore(w.Shipped(), sources, Start(w), Batch(w, n), w.Unkeyed(Other(n + 1)));
    OtherCreates(w, PersistAll(w.Shipped(), sources, Start(w), Batch(w, n)).0, n);
  }

  lemma {:induction false} FirstRunShape(w: World, sources: map<string, nat>, n: nat)
    requires Plain(w) && BOARD in sources && sources[BOARD] == 0
    ensures Shape(w, PersistAll(w.Shipped(), sources, Start(w), Batch(w, n)).0, n)
    decreases n
  {
    if n == 0 {
      AfterReworded(w, sources);
    } else {
      FirstRunShape(w, sources, n - 1);
      AfterOther(w, sources, n - 1);
    }
  }

  // ----- the second run -----

  lemma {:induction false} NewestFirst(jobs: seq<Job>, k: nat)
    requires forall j :: 0 <= j < |jobs| ==> LiveAt(jobs[j], 0)
    requires k < |jobs|
    ensures |LiveJobs(jobs, 0)| == |jobs| && LiveJobs(jobs, 0)[k] == |jobs| - 1 - k
    decreases |jobs|
  {
    var front := jobs[..|jobs| - 1];
    if front != [] {
      NewestFirst(front, if k == 0 then 0 else k - 1);
    }
  }

  lemma OnlyOthersInReach(w: World, t: Store, k: nat)
    requires Shape(w, t, w.limit) && k < |CandidateIds(t, 0, w.limit)|
    ensures var id := CandidateIds(t, 0, w.limit)[k];
            0 < id <= w.limit && t.jobs[id].posting == Other(id)
  {
    NewestFirst(t.jobs, k);
  }

  /** Once `limit` newer postings exist, the original is no longer among the candidates. */
  lemma MatchIsOutOfReach(w: World, t: Store)
    requires Plain(w) && Shape(w, t, w.limit)
    ensures !Known(w.Shipped(), t, w.Unkeyed(REWORDED), 0)
  {
    var existing := AsCandidates(t, CandidateIds(t, 0, w.limit));
    forall k | 0 <= k < |existing|
      ensures GatedScore(w.text, w.Shipped().settings, REWORDED, existing[k].posting) <= 0.45
    {
      OnlyOthersInReach(w, t, k);
      OthersScoreLow(w, REWORDED, existing[k].posting, existing[k].id);
    }
    LowScoresDecide(w, REWORDED, existing);
    assert FindExisting(t, w.Unkeyed(REWORDED)).None?;
  }

  lemma SecondRunCreates(w: World, sources: map<string, nat>)
    requires Plain(w) && BOARD in sources && sources[BOARD] == 0 && Consistent(w.text, Start(w))
    ensures var t := PersistAll(w.Shipped(), sources, Start(w), Batch(w, w.limit)).0;
            PersistAll(w.Shipped(), sources, t, Batch(w, w.limit)).1.created > 0
  {
    FirstRunShape(w, sources, w.limit);
    MatchIsOutOfReach(w, PersistAll(w.Shipped(), sources, Start(w), Batch(w, w.limit)).0);
    RerunCreatesNothingIff(w.Shipped(), sources, Start(w), Batch(w, w.limit));
  }

  /** With the shipped weights, any window of at least one, any employer, any text operations and any hash that tells
      the postings apart, this batch run twice creates a Job the second time; every hash is that of its content. */
  lemma RerunCreatesAgain(w: World, sources: map<string, nat>)
    requires Plain(w) && BOARD in sources && sources[BOARD] == 0
    ensures Consistent(w.text, Start(w)) && RowsHashed(w, Start(w)) && ItemsHashed(w, Batch(w, w.limit))
    ensures var t := PersistAll(w.Shipped(), sources, Start(w), Batch(w, w.limit)).0;
            RowsHashed(w, t) && PersistAll(w.Shipped(), sources, t, Batch(w, w.limit)).1.created > 0
  {
    StartConsistent(w);
    BatchIsHashed(w, w.limit);
    FirstRunShape(w, sources, w.limit);
    ShapeIsHashed(w, PersistAll(w.Shipped(), sources, Start(w), Batch(w, w.limit)).0, w.limit);
    SecondRunCreates(w, sources);
  }

  /** The store it starts from is itself what one first item leaves behind. */
  lemma StartIsOneItem(w: World, sources: map<string, nat>)
    requires BOARD in sources && sources[BOARD] == 0
    ensures PersistAll(w.Shipped(), sources, Store([], [], []), [w.Unkeyed(FIRST)]).0 == Start(w)
  {
    var empty := Store([], [], []);
    OneMore(w.Shipped(), sources, empty, [], w.Unkeyed(FIRST));
    assert [] + [w.Unkeyed(FIRST)] == [w.Unkeyed(FIRST)];
    assert [] + Start(w).companies == Start(w).companies;
    assert ResolveCompany(w.text, empty, w.Unkeyed(FIRST)) == (empty.(companies := Start(w).companies), 0);
    NoCandidatesNoMerge(w.Shipped(), empty.(companies := Start(w).companies), w.Unkeyed(FIRST), 0);
  }
}
