/** Company identity: the key under which every spelling of an employer is stored.
    A name is the list of words left after Unicode folding and punctuation removal. */
module CompanyNames {

  const SUFFIXES: set<string> :=
    {"inc", "incorporated", "ltd", "limited", "llc", "llp", "pvt", "private", "corp", "corporation", "co", "gmbh"}

  ghost predicate AllSuffixes(words: seq<string>) {
    forall i :: 0 <= i < |words| ==> words[i] in SUFFIXES
  }

  /** One pass of the suffix pattern, anchored at the end of the name. */
  function StripOnce(words: seq<string>): seq<string> {
    if words != [] && words[|words| - 1] in SUFFIXES then words[..|words| - 1] else words
  }

  /** The key: trailing legal suffixes go, but the name is never reduced to nothing. */
  function CompanyKey(words: seq<string>): (key: seq<string>)
    ensures key <= words
    ensures words != [] ==> key != []
    ensures AllSuffixes(words[|key|..])
    ensures |key| > 1 ==> key[|key| - 1] !in SUFFIXES
  {
    if |words| > 1 && words[|words| - 1] in SUFFIXES then
      var shorter := words[..|words| - 1];
      var key := CompanyKey(shorter);
      assert words[|key|..] == shorter[|key|..] + [words[|words| - 1]];
      key
    else words
  }

  /** The loop that strips stacked suffixes until the text is stable. */
  method NormalizeCompany(words: seq<string>) returns (text: seq<string>)
    ensures text == CompanyKey(words)
  {
    text := words;
    while true
      invariant CompanyKey(text) == CompanyKey(words)
      decreases |text|
    {
      var stripped := StripOnce(text);
      if stripped == text || stripped == [] {
        return if stripped == [] then text else stripped;
      }
      text := stripped;
    }
  }

  /** Any legal suffixes appended to a name leave its key alone. */
  lemma {:induction false} SuffixesDoNotChangeTheKey(words: seq<string>, extra: seq<string>)
    requires words != [] && AllSuffixes(extra)
    ensures CompanyKey(words + extra) == CompanyKey(words)
    decreases |extra|
  {
    if extra == [] {
      assert words + extra == words;
    } else {
      var shorter := extra[..|extra| - 1];
      assert (words + extra)[..|words + extra| - 1] == words + shorter;
      SuffixesDoNotChangeTheKey(words, shorter);
    }
  }

  /** Of all last words exactly twelve are legal forms. */
  lemma LegalFormIff(name: seq<string>, word: string)
    requires name != []
    ensures CompanyKey(name + [word]) == CompanyKey(name) <==>
            word in ["inc", "incorporated", "ltd", "limited", "llc", "llp",
                     "pvt", "private", "corp", "corporation", "co", "gmbh"]
  {
    assert (name + [word])[..|name|] == name;
  }

  lemma KeyIsStable(words: seq<string>)
    ensures CompanyKey(CompanyKey(words)) == CompanyKey(words)
  {
    var key := CompanyKey(words);
    if key != [] {
      assert words == key + words[|key|..];
      SuffixesDoNotChangeTheKey(key, words[|key|..]);
    }
  }

  ghost predicate Spells(name: seq<string>, words: seq<string>) {
    name != [] && name <= words && AllSuffixes(words[|name|..])
  }

  lemma SpellingHasTheKey(name: seq<string>, words: seq<string>)
    requires Spells(name, words)
    ensures CompanyKey(words) == CompanyKey(name)
  {
    assert words == name + words[|name|..];
    SuffixesDoNotChangeTheKey(name, words[|name|..]);
  }

  /** Two spellings meet in one company row exactly when they extend a common name by legal suffixes. */
  lemma SameCompanyIff(a: seq<string>, b: seq<string>)
    requires a != [] && b != []
    ensures CompanyKey(a) == CompanyKey(b) <==> exists name: seq<string> :: Spells(name, a) && Spells(name, b)
  {
    if CompanyKey(a) == CompanyKey(b) {
      assert Spells(CompanyKey(a), a) && Spells(CompanyKey(b), b);
    }
    forall name: seq<string> | Spells(name, a) && Spells(name, b)
      ensures CompanyKey(a) == CompanyKey(b)
    {
      SpellingHasTheKey(name, a);
      SpellingHasTheKey(name, b);
    }
  }
}
