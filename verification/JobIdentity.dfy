/** Similarity signals between two postings, each in [0, 1] or unavailable. */
module JobIdentity {
  import opened Prelude

  type Unit = r: real | 0.0 <= r <= 1.0

  /** The text operations of the host language: a character-sequence ratio, case folding, and the words of a
      company name after Unicode folding. Nothing else is assumed about them. */
  type Ratio = f: (string, string) -> real | forall a, b :: 0.0 <= f(a, b) <= 1.0 witness (a, b) => 0.0
  datatype Text = Text(ratio: Ratio, casefold: string -> string, nameWords: string -> seq<string>)

  /** The fields both a discovered job and a stored job carry into the comparison. Dates are seconds. */
  datatype Posting = Posting(
    title: string, location: Option<string>, description: Option<string>, postedAt: Option<int>)

  /** The separators of `str.split()`: the Unicode white space of the host language. */
  predicate Blank(c: char) {
    var n := c as int;
    9 <= n <= 13 || 28 <= n <= 32 || n == 0x85 || n == 0xA0 || n == 0x1680 || 0x2000 <= n <= 0x200A
    || n == 0x2028 || n == 0x2029 || n == 0x202F || n == 0x205F || n == 0x3000
  }

  /** Whitespace-separated tokens of `text`; `word` is the token being read. */
  function Words(text: string, word: string := ""): seq<string>
    decreases |text|
  {
    if text == "" then
      if word == "" then [] else [word]
    else if Blank(text[0]) then
      (if word == "" then [] else [word]) + Words(text[1..])
    else
      Words(text[1..], word + [text[0]])
  }

  function WordSet(text: string): set<string> {
    set w | w in Words(text)
  }

  function Jaccard<T(==)>(a: set<T>, b: set<T>): (r: Unit)
    requires a != {} || b != {}
    ensures r == 1.0 <==> a == b
    ensures r == 0.0 <==> a !! b
  {
    JaccardBounds(a, b);
    Fraction(|a * b|, |a + b|)
  }

  function Fraction(p: nat, q: nat): (r: Unit)
    requires p <= q && q > 0
    ensures r == 1.0 <==> p == q
    ensures r == 0.0 <==> p == 0
  {
    DivisionOrder(p as real, 0.0, q as real);
    DivisionOrder(p as real, 1.0, q as real);
    p as real / q as real
  }

  lemma JaccardBounds<T>(a: set<T>, b: set<T>)
    requires a != {} || b != {}
    ensures a * b == b * a && a + b == b + a
    ensures 0 <= |a * b| <= |a + b| && |a + b| > 0
    ensures |a * b| == |a + b| <==> a == b
    ensures |a * b| == 0 <==> a !! b
  {
    assert a + b != {};
    assert (a + b) - (a * b) == (a - b) + (b - a);
    assert |(a + b) - (a * b)| == |a + b| - |a * b| by {
      assert ((a + b) - (a * b)) + (a * b) == a + b;
    }
    if a != b {
      assert (a - b) + (b - a) != {};
    }
  }

  /** Best of word-set overlap and character ratio. */
  function TitleSimilarity(text: Text, a: string, b: string): (r: Unit) {
    if a == b then 1.0
    else
      var overlap := if WordSet(a) != {} && WordSet(b) != {} then Jaccard(WordSet(a), WordSet(b)) else 0.0;
      MaxR(overlap, text.ratio(a, b))
  }

  predicate OccursAt(hay: string, needle: string, i: nat) {
    i + |needle| <= |hay| && hay[i..i + |needle|] == needle
  }

  predicate Contains(hay: string, needle: string) {
    exists i: nat | i <= |hay| :: OccursAt(hay, needle, i)
  }

  predicate Absent(value: Option<string>) {
    value.None? || value.value == ""
  }

  function LocationSimilarity(a: Option<string>, b: Option<string>): Option<Unit> {
    if Absent(a) || Absent(b) then None
    else if Contains(a.value, b.value) || Contains(b.value, a.value) then Some(1.0)
    else Some(0.0)
  }

  const SHINGLE := 3
  const MAX_TOKENS := 300

  function ShingleAt(tokens: seq<string>, i: nat): seq<string>
    requires i + SHINGLE <= |tokens|
  {
    tokens[i..i + SHINGLE]
  }

  function Shingles(text: string): set<seq<string>> {
    var tokens := Take(Words(text), MAX_TOKENS);
    if |tokens| < SHINGLE then
      if tokens == [] then {} else {tokens}
    else
      set i: nat | i <= |tokens| - SHINGLE :: ShingleAt(tokens, i)
  }

  function DescriptionSimilarity(text: Text, a: Option<string>, b: Option<string>): Option<Unit> {
    if Absent(a) || Absent(b) then None
    else
      var sa, sb := Shingles(text.casefold(a.value)), Shingles(text.casefold(b.value));
      if sa == {} || sb == {} then None else Some(Jaccard(sa, sb))
  }

  const DAY := 86400

  function PostedDateProximity(a: Option<int>, b: Option<int>): Option<Unit> {
    if a.None? || b.None? then None
    else
      var delta := if a.value >= b.value then a.value - b.value else b.value - a.value;
      if delta <= 7 * DAY then Some(1.0)
      else if delta <= 30 * DAY then Some(0.5)
      else Some(0.0)
  }

  datatype Signals = Signals(title: Unit, description: Option<Unit>, location: Option<Unit>, date: Option<Unit>)

  function Compare(text: Text, a: Posting, b: Posting): Signals {
    Signals(
      TitleSimilarity(text, a.title, b.title),
      DescriptionSimilarity(text, a.description, b.description),
      LocationSimilarity(a.location, b.location),
      PostedDateProximity(a.postedAt, b.postedAt))
  }

  /** Every signal but the title ignores the order of its two arguments; the title does too when the character
      ratio happens to agree in both directions on that pair. */
  lemma CompareSymmetry(text: Text, a: Posting, b: Posting)
    ensures Compare(text, a, b).description == Compare(text, b, a).description
    ensures Compare(text, a, b).location == Compare(text, b, a).location
    ensures Compare(text, a, b).date == Compare(text, b, a).date
    ensures text.ratio(a.title, b.title) == text.ratio(b.title, a.title)
            ==> Compare(text, a, b).title == Compare(text, b, a).title
  {
    if !Absent(a.description) && !Absent(b.description) {
      var sa, sb := Shingles(text.casefold(a.description.value)), Shingles(text.casefold(b.description.value));
      if sa != {} && sb != {} {
        JaccardBounds(sa, sb);
      }
    }
    if WordSet(a.title) != {} && WordSet(b.title) != {} {
      JaccardBounds(WordSet(a.title), WordSet(b.title));
    }
  }

  /** A title similarity is the better of the word overlap and the character ratio. */
  lemma TitleTakesTheBetter(text: Text, a: string, b: string)
    requires a != b
    ensures TitleSimilarity(text, a, b) >= text.ratio(a, b)
    ensures WordSet(a) != {} && WordSet(b) != {} ==> TitleSimilarity(text, a, b) >= Jaccard(WordSet(a), WordSet(b))
    ensures TitleSimilarity(text, a, b) == text.ratio(a, b)
            || (WordSet(a) != {} && WordSet(b) != {}
                && TitleSimilarity(text, a, b) == Jaccard(WordSet(a), WordSet(b)))
            || ((WordSet(a) == {} || WordSet(b) == {}) && TitleSimilarity(text, a, b) == 0.0)
  {
  }

  /** `x` is the run of three words at `i`, among the first three hundred. */
  predicate RunOfThree(words: seq<string>, i: nat, x: seq<string>) {
    i + 3 <= |words| && i + 3 <= 300 && x == words[i..i + 3]
  }

  /** The shingles of a text of three words or more are its runs of three among the first three hundred words. */
  lemma ShinglesAreRunsOfThree(text: string, x: seq<string>)
    requires |Words(text)| >= 3
    ensures x in Shingles(text) <==> exists i: nat :: RunOfThree(Words(text), i, x)
  {
    var tokens := Take(Words(text), MAX_TOKENS);
    forall i: nat | i + 3 <= |tokens| ensures ShingleAt(tokens, i) == Words(text)[i..i + 3] {}
    if x in Shingles(text) {
      var i: nat :| i <= |tokens| - SHINGLE && x == ShingleAt(tokens, i);
      assert RunOfThree(Words(text), i, x);
    }
    if i: nat :| RunOfThree(Words(text), i, x) {
      assert ShingleAt(tokens, i) == x;
    }
  }

  /** Identical postings agree on every signal they carry. */
  lemma CompareSelf(text: Text, a: Posting)
    ensures var s := Compare(text, a, a);
            s.title == 1.0
            && (s.description.Some? ==> s.description.value == 1.0)
            && (s.location.Some? ==> s.location.value == 1.0)
            && (s.date.Some? ==> s.date.value == 1.0)
  {
    if !Absent(a.location) {
      var l := a.location.value;
      assert OccursAt(l, l, 0);
    }
  }
}
