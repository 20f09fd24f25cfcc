/** Runbook retrieval: lexical scores, a stable sort by score, and the first few. Scores are in tenths. */
module Ranking {
  import opened SnakeCase

  /** A parsed runbook: its texts are given as the sets of words in them. */
  datatype Runbook = Runbook(
    file: string, service: string, typeTerms: set<string>, titleTerms: set<string>,
    symptoms: seq<set<string>>, bodyTerms: set<string>)

  datatype Scored = Scored(doc: Runbook, score: nat)

  /******* Scores *******/

  predicate Within(needle: string, text: string) {
    exists i :: 0 <= i <= |text| && needle <= text[i..]
  }

  function ServiceScore(service: string, doc: Runbook): nat {
    if service == "" || doc.service == "" then 0
    else if Lower(doc.service) == Lower(service) then 20
    else if Within(Lower(service), Lower(doc.service)) then 10
    else 0
  }

  function SymptomScore(terms: set<string>, symptoms: seq<set<string>>): nat {
    if symptoms == [] then 0
    else SymptomScore(terms, symptoms[..|symptoms| - 1]) + |terms * symptoms[|symptoms| - 1]| * 8
  }

  function Score(service: string, terms: set<string>, doc: Runbook): nat {
    ServiceScore(service, doc) + |terms * doc.typeTerms| * 15 + |terms * doc.titleTerms| * 10 +
    SymptomScore(terms, doc.symptoms) + |terms * doc.bodyTerms| * 2
  }

  lemma MeetGrows(a: set<string>, b: set<string>, s: set<string>)
    requires a <= b
    ensures |a * s| <= |b * s|
  {
    assert b * s == a * s + (b * s - a * s);
  }

  lemma {:induction false} SymptomScoreGrows(a: set<string>, b: set<string>, symptoms: seq<set<string>>)
    requires a <= b
    ensures SymptomScore(a, symptoms) <= SymptomScore(b, symptoms)
  {
    if symptoms != [] {
      SymptomScoreGrows(a, b, symptoms[..|symptoms| - 1]);
      MeetGrows(a, b, symptoms[|symptoms| - 1]);
    }
  }

  /** More query words never lower a score. */
  lemma ScoreIsMonotone(service: string, a: set<string>, b: set<string>, doc: Runbook)
    requires a <= b
    ensures Score(service, a, doc) <= Score(service, b, doc)
  {
    MeetGrows(a, b, doc.typeTerms);
    MeetGrows(a, b, doc.titleTerms);
    MeetGrows(a, b, doc.bodyTerms);
    SymptomScoreGrows(a, b, doc.symptoms);
  }

  /** How many symptoms mention the word. */
  function Mentions(word: string, symptoms: seq<set<string>>): nat {
    if symptoms == [] then 0
    else Mentions(word, symptoms[..|symptoms| - 1]) + (if word in symptoms[|symptoms| - 1] then 1 else 0)
  }

  lemma MeetWith(terms: set<string>, word: string, s: set<string>)
    requires word !in terms
    ensures |(terms + {word}) * s| == |terms * s| + if word in s then 1 else 0
  {
    if word in s {
      assert (terms + {word}) * s == terms * s + {word};
    } else {
      assert (terms + {word}) * s == terms * s;
    }
  }

  lemma {:induction false} SymptomScoreWith(terms: set<string>, word: string, symptoms: seq<set<string>>)
    requires word !in terms
    ensures SymptomScore(terms + {word}, symptoms) == SymptomScore(terms, symptoms) + 8 * Mentions(word, symptoms)
  {
    if symptoms != [] {
      SymptomScoreWith(terms, word, symptoms[..|symptoms| - 1]);
      MeetWith(terms, word, symptoms[|symptoms| - 1]);
    }
  }

  /** A further query word adds 1.5 for the type, 1.0 for the title, 0.8 for each symptom and 0.2 for the body that has it. */
  lemma WordAdds(service: string, terms: set<string>, word: string, doc: Runbook)
    requires word !in terms
    ensures Score(service, terms + {word}, doc) == Score(service, terms, doc) +
      (if word in doc.typeTerms then 15 else 0) + (if word in doc.titleTerms then 10 else 0) +
      8 * Mentions(word, doc.symptoms) + (if word in doc.bodyTerms then 2 else 0)
  {
    MeetWith(terms, word, doc.typeTerms);
    MeetWith(terms, word, doc.titleTerms);
    MeetWith(terms, word, doc.bodyTerms);
    SymptomScoreWith(terms, word, doc.symptoms);
  }

  lemma {:induction false} NoWordsNoSymptoms(symptoms: seq<set<string>>)
    ensures SymptomScore({}, symptoms) == 0
  {
    if symptoms != [] {
      NoWordsNoSymptoms(symptoms[..|symptoms| - 1]);
      assert {} * symptoms[|symptoms| - 1] == {};
    }
  }

  /** Without query words a document scores 2.0 for the same service, 1.0 for one that contains the name, or nothing. */
  lemma ServiceAloneScores(service: string, doc: Runbook)
    ensures Score(service, {}, doc) ==
      if service == "" || doc.service == "" then 0
      else if Lower(service) == Lower(doc.service) then 20
      else if exists a, b :: Lower(doc.service) == a + Lower(service) + b then 10
      else 0
  {
    NoWordsNoSymptoms(doc.symptoms);
    assert {} * doc.typeTerms == {} && {} * doc.titleTerms == {} && {} * doc.bodyTerms == {};
    WithinExactly(Lower(service), Lower(doc.service));
  }

  lemma WithinExactly(needle: string, text: string)
    ensures Within(needle, text) <==> exists a, b :: text == a + needle + b
  {
    if Within(needle, text) {
      var i :| 0 <= i <= |text| && needle <= text[i..];
      assert text == text[..i] + needle + text[i + |needle|..];
    }
    if a, b :| text == a + needle + b {
      assert text[|a|..] == needle + b;
    }
  }

  /** The documents with a positive score, in index order. */
  function Hits(service: string, terms: set<string>, docs: seq<Runbook>): seq<Scored> {
    if docs == [] then []
    else
      var last := docs[|docs| - 1];
      var score := Score(service, terms, last);
      Hits(service, terms, docs[..|docs| - 1]) + (if score > 0 then [Scored(last, score)] else [])
  }

  /******* Stable descending sort *******/

  predicate Descending(s: seq<Scored>) {
    forall j, k :: 0 <= j < k < |s| ==> s[k].score <= s[j].score
  }

  /** The elements with one score, in order. */
  function WithScore(s: seq<Scored>, score: nat): seq<Scored> {
    if s == [] then []
    else if s[0].score == score then [s[0]] + WithScore(s[1..], score)
    else WithScore(s[1..], score)
  }

  /** Sorted, and elements with equal scores in their original order. */
  ghost predicate IsStableSortOf(r: seq<Scored>, s: seq<Scored>) {
    Descending(r) && forall score :: WithScore(r, score) == WithScore(s, score)
  }

  /** x goes behind everything that scores at least as much. */
  function Insert(x: Scored, s: seq<Scored>): seq<Scored> {
    if s == [] then [x]
    else if s[0].score < x.score then [x] + s
    else [s[0]] + Insert(x, s[1..])
  }

  function Sorted(s: seq<Scored>): seq<Scored> {
    if s == [] then [] else Insert(s[|s| - 1], Sorted(s[..|s| - 1]))
  }

  lemma {:induction false} InsertAdds(x: Scored, s: seq<Scored>)
    ensures multiset(Insert(x, s)) == multiset(s) + multiset{x}
  {
    if s != [] && x.score <= s[0].score {
      InsertAdds(x, s[1..]);
      assert s == [s[0]] + s[1..];
    }
  }

  lemma {:induction false} SortedPermutes(s: seq<Scored>)
    ensures multiset(Sorted(s)) == multiset(s)
  {
    if s != [] {
      SortedPermutes(s[..|s| - 1]);
      InsertAdds(s[|s| - 1], Sorted(s[..|s| - 1]));
      assert s == s[..|s| - 1] + [s[|s| - 1]];
    }
  }

  lemma {:induction false} InsertKeepsOrder(x: Scored, s: seq<Scored>)
    requires Descending(s)
    ensures Descending(Insert(x, s))
  {
    if s != [] && x.score <= s[0].score {
      InsertKeepsOrder(x, s[1..]);
      var r := Insert(x, s[1..]);
      InsertAdds(x, s[1..]);
      forall k | 0 <= k < |r| ensures r[k].score <= s[0].score {
        assert r[k] in multiset(r);
        assert r[k] == x || r[k] in s[1..];
      }
    }
  }

  lemma {:induction false} InsertIsStable(x: Scored, s: seq<Scored>, score: nat)
    requires Descending(s)
    ensures WithScore(Insert(x, s), score) ==
      if x.score == score then WithScore(s, score) + [x] else WithScore(s, score)
  {
    if s != [] {
      if s[0].score < x.score {
        assert ([x] + s)[1..] == s;
        LowerScoresAreOther(s, x.score);
      } else {
        assert ([s[0]] + Insert(x, s[1..]))[1..] == Insert(x, s[1..]);
        InsertIsStable(x, s[1..], score);
      }
    }
  }

  lemma {:induction false} LowerScoresAreOther(s: seq<Scored>, score: nat)
    requires forall k :: 0 <= k < |s| ==> s[k].score < score
    ensures WithScore(s, score) == []
  {
    if s != [] {
      LowerScoresAreOther(s[1..], score);
    }
  }

  lemma {:induction false} WithScoreSplits(a: seq<Scored>, b: seq<Scored>, score: nat)
    ensures WithScore(a + b, score) == WithScore(a, score) + WithScore(b, score)
  {
    if a == [] {
      assert a + b == b;
    } else {
      assert (a + b)[1..] == a[1..] + b;
      WithScoreSplits(a[1..], b, score);
    }
  }

  lemma {:induction false} SortedIsStableSort(s: seq<Scored>)
    ensures IsStableSortOf(Sorted(s), s)
  {
    if s != [] {
      var front, x := s[..|s| - 1], s[|s| - 1];
      SortedIsStableSort(front);
      InsertKeepsOrder(x, Sorted(front));
      forall score: nat ensures WithScore(Sorted(s), score) == WithScore(s, score) {
        InsertIsStable(x, Sorted(front), score);
        WithScoreSplits(front, [x], score);
        assert s == front + [x];
      }
    }
  }

  lemma {:induction false} WithScoreFinds(s: seq<Scored>, k: nat)
    requires k < |s|
    ensures WithScore(s, s[k].score) != []
  {
    if k > 0 {
      WithScoreFinds(s[1..], k - 1);
    }
  }

  lemma {:induction false} WithScoreHas(s: seq<Scored>, score: nat)
    requires WithScore(s, score) != []
    ensures exists k :: 0 <= k < |s| && s[k].score == score
  {
    if s[0].score != score {
      WithScoreHas(s[1..], score);
      var k :| 0 <= k < |s[1..]| && s[1..][k].score == score;
      assert s[k + 1].score == score;
    }
  }

  lemma FirstScoreBounds(p: seq<Scored>, q: seq<Scored>)
    requires Descending(p) && Descending(q) && p != []
    requires forall score :: WithScore(p, score) == WithScore(q, score)
    ensures q != [] && p[0].score <= q[0].score
  {
    WithScoreFinds(p, 0);
    WithScoreHas(q, p[0].score);
  }

  /** A stable sort is determined by its input: any two agree. */
  lemma {:induction false} StableSortIsUnique(p: seq<Scored>, q: seq<Scored>)
    requires Descending(p) && Descending(q)
    requires forall score :: WithScore(p, score) == WithScore(q, score)
    ensures p == q
  {
    if p != [] || q != [] {
      if p != [] { FirstScoreBounds(p, q); }
      if q != [] { FirstScoreBounds(q, p); }
      var top := p[0].score;
      assert WithScore(p, top)[0] == p[0] && WithScore(q, top)[0] == q[0];
      forall score: nat ensures WithScore(p[1..], score) == WithScore(q[1..], score) {
        TailWithScore(p, score);
        TailWithScore(q, score);
      }
      StableSortIsUnique(p[1..], q[1..]);
      assert p == [p[0]] + p[1..] && q == [q[0]] + q[1..];
    }
  }

  lemma TailWithScore(s: seq<Scored>, score: nat)
    requires s != []
    ensures WithScore(s[1..], score) == if s[0].score == score then WithScore(s, score)[1..] else WithScore(s, score)
  {
    if s[0].score == score {
      assert WithScore(s, score)[1..] == WithScore(s[1..], score);
    }
  }

  /******* The first few *******/

  /** A slice up to k; a negative k counts from the end. */
  function UpTo<T>(s: seq<T>, k: int): seq<T> {
    if k >= |s| then s
    else if k >= 0 then s[..k]
    else if |s| + k >= 0 then s[..|s| + k]
    else []
  }

  function Retrieved(service: string, terms: set<string>, docs: seq<Runbook>, k: int): seq<Scored> {
    UpTo(Sorted(Hits(service, terms, docs)), k)
  }

  lemma {:induction false} HitsAreScored(service: string, terms: set<string>, docs: seq<Runbook>)
    ensures forall h :: h in Hits(service, terms, docs) <==>
      h.doc in docs && h.score == Score(service, terms, h.doc) && h.score > 0
  {
    if docs != [] {
      HitsAreScored(service, terms, docs[..|docs| - 1]);
      assert docs == docs[..|docs| - 1] + [docs[|docs| - 1]];
    }
  }

  lemma SortedHasSame(s: seq<Scored>)
    ensures forall h :: h in Sorted(s) <==> h in s
  {
    SortedPermutes(s);
    assert forall h :: h in Sorted(s) <==> h in multiset(Sorted(s));
    assert forall h :: h in s <==> h in multiset(s);
  }

  lemma CutKeepsFront(all: seq<Scored>, k: nat, j: nat)
    requires j < |all|
    ensures j < k ==> all[j] in UpTo(all, k)
  {
    assert j < k ==> UpTo(all, k)[j] == all[j];
  }

  /** What a cut leaves out of a descending list is no better than what it keeps. */
  lemma CutKeepsTheBest(all: seq<Scored>, k: nat, h: Scored)
    requires Descending(all) && h in all && h !in UpTo(all, k)
    ensures |UpTo(all, k)| == k && forall g :: g in UpTo(all, k) ==> h.score <= g.score
  {
    var j :| 0 <= j < |all| && all[j] == h;
    CutKeepsFront(all, k, j);
  }

  /** Everything returned scored, is as good as everything omitted, and no more than k are returned. */
  lemma NothingBetterIsOmitted(service: string, terms: set<string>, docs: seq<Runbook>, k: nat)
    ensures var r := Retrieved(service, terms, docs, k);
      |r| <= k && Descending(r) &&
      (forall h :: h in r ==> h.doc in docs && h.score == Score(service, terms, h.doc) && h.score > 0) &&
      (forall doc :: doc in docs && Score(service, terms, doc) > 0 && (forall h :: h in r ==> h.doc != doc) ==>
         |r| == k && forall h :: h in r ==> Score(service, terms, doc) <= h.score)
  {
    hide Score, Hits, Sorted;
    var hits := Hits(service, terms, docs);
    var r := Retrieved(service, terms, docs, k);
    HitsAreScored(service, terms, docs);
    SortedIsStableSort(hits);
    SortedHasSame(hits);
    forall doc | doc in docs && Score(service, terms, doc) > 0 && (forall h :: h in r ==> h.doc != doc)
      ensures |r| == k && forall h :: h in r ==> Score(service, terms, doc) <= h.score
    {
      CutKeepsTheBest(Sorted(hits), k, Scored(doc, Score(service, terms, doc)));
    }
  }

  /******* The index *******/

  class RunbookRetriever {
    var documents: seq<Runbook>

    constructor (found: seq<Runbook>)
      ensures documents == found
    {
      documents := found;
    }

    /** Loads what is on disk if the index is empty, then scores, sorts and cuts. */
    method Retrieve(service: string, terms: set<string>, k: int, onDisk: seq<Runbook>) returns (results: seq<Scored>)
      modifies this
      ensures documents == if old(documents) == [] then onDisk else old(documents)
      ensures results == Retrieved(service, terms, documents, k)
    {
      if documents == [] {
        documents := onDisk;
      }
      results := [];
      for d := 0 to |documents|
        invariant documents == if old(documents) == [] then onDisk else old(documents)
        invariant results == Hits(service, terms, documents[..d])
      {
        var doc := documents[d];
        var score := ScoreOf(service, terms, doc);
        assert documents[..d + 1][..d] == documents[..d];
        if score > 0 {
          results := results + [Scored(doc, score)];
        }
      }
      assert documents[..|documents|] == documents;
      results := UpTo(Sorted(results), k);
    }

    static method ScoreOf(service: string, terms: set<string>, doc: Runbook) returns (score: nat)
      ensures score == Score(service, terms, doc)
    {
      score := 0;
      if service != "" && doc.service != "" {
        if Lower(doc.service) == Lower(service) {
          score := score + 20;
        } else if Within(Lower(service), Lower(doc.service)) {
          score := score + 10;
        }
      }
      score := score + |terms * doc.typeTerms| * 15;
      score := score + |terms * doc.titleTerms| * 10;
      ghost var before := score;
      for s := 0 to |doc.symptoms|
        invariant score == before + SymptomScore(terms, doc.symptoms[..s])
      {
        assert doc.symptoms[..s + 1][..s] == doc.symptoms[..s];
        score := score + |terms * doc.symptoms[s]| * 8;
      }
      assert doc.symptoms[..|doc.symptoms|] == doc.symptoms;
      score := score + |terms * doc.bodyTerms| * 2;
    }
  }
}
