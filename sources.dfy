/**
 * The source listing: the normalised results split by their type tag into
 * knowledge, news and web entries, each keeping the original order, and the
 * per-type counts shown as metrics.
 */
module Sources {
  import opened Base
  import opened Search

  /** `[r for r in search_results if r.get('type') == k]` */
  function OfKind(rs: seq<SearchResult>, k: Kind): (out: seq<SearchResult>)
    ensures |out| <= |rs|
    ensures forall j :: 0 <= j < |out| ==> out[j].kind == k
    ensures forall x :: x in out ==> x in rs
  {
    if rs == [] then []
    else (if rs[0].kind == k then [rs[0]] else []) + OfKind(rs[1..], k)
  }

  /** `xs` is `ys` with some entries left out and the rest in their order. */
  predicate IsSubsequence(xs: seq<SearchResult>, ys: seq<SearchResult>)
    decreases |ys|
  {
    xs == [] ||
    (ys != [] && ((xs[0] == ys[0] && IsSubsequence(xs[1..], ys[1..])) || IsSubsequence(xs, ys[1..])))
  }

  lemma {:induction false} OfKindAppend(a: seq<SearchResult>, b: seq<SearchResult>, k: Kind)
    ensures OfKind(a + b, k) == OfKind(a, k) + OfKind(b, k)
  {
    if a != [] {
      assert (a + b)[1..] == a[1..] + b;
      OfKindAppend(a[1..], b, k);
    } else {
      assert a + b == b;
    }
  }

  /** Each partition keeps the input order: it is a subsequence of the input. */
  lemma {:induction false} OfKindStable(rs: seq<SearchResult>, k: Kind)
    ensures IsSubsequence(OfKind(rs, k), rs)
  {
    if rs != [] {
      OfKindStable(rs[1..], k);
      var out, tail := OfKind(rs, k), OfKind(rs[1..], k);
      if rs[0].kind == k {
        assert out == [rs[0]] + tail;
        assert out[0] == rs[0] && out[1..] == tail;
      } else {
        assert out == tail;
      }
    }
  }

  /**
   * Each partition holds every occurrence of its kind and nothing else: as a
   * multiset it is the input restricted to that kind.
   */
  lemma {:induction false} OfKindCounts(rs: seq<SearchResult>, k: Kind, x: SearchResult)
    ensures multiset(OfKind(rs, k))[x] == if x.kind == k then multiset(rs)[x] else 0
  {
    if rs != [] {
      OfKindCounts(rs[1..], k, x);
      assert rs == [rs[0]] + rs[1..];
    }
  }

  /**
   * The three partitions are disjoint and together are a permutation of the
   * input; so their sizes add up to the number of results.
   */
  lemma PartitionIsPermutation(rs: seq<SearchResult>)
    ensures multiset(OfKind(rs, Web)) + multiset(OfKind(rs, News)) + multiset(OfKind(rs, Knowledge))
         == multiset(rs)
    ensures |OfKind(rs, Web)| + |OfKind(rs, News)| + |OfKind(rs, Knowledge)| == |rs|
  {
    var total := multiset(OfKind(rs, Web)) + multiset(OfKind(rs, News)) + multiset(OfKind(rs, Knowledge));
    forall x ensures total[x] == multiset(rs)[x] {
      OfKindCounts(rs, Web, x);
      OfKindCounts(rs, News, x);
      OfKindCounts(rs, Knowledge, x);
    }
    assert total == multiset(rs);
    assert |total| == |multiset(rs)|;
  }

  lemma {:induction false} OfKindAll(rs: seq<SearchResult>, k: Kind)
    requires forall j :: 0 <= j < |rs| ==> rs[j].kind == k
    ensures OfKind(rs, k) == rs
  {
    if rs != [] {
      OfKindAll(rs[1..], k);
    }
  }

  lemma {:induction false} OfKindNone(rs: seq<SearchResult>, k: Kind)
    requires forall j :: 0 <= j < |rs| ==> rs[j].kind != k
    ensures OfKind(rs, k) == []
  {
    if rs != [] {
      OfKindNone(rs[1..], k);
    }
  }

  /**
   * Partitioning a successful search gives back its parts: the web entries
   * are the organic results, the news entries the news results, and the
   * knowledge entries the panel (if any), each in its original order.
   */
  lemma NormalizedPartition(r: Response)
    ensures OfKind(Normalized(r), Web) == OrganicResults(OrganicItems(r))
    ensures OfKind(Normalized(r), News) == NewsResults(NewsItems(r))
    ensures OfKind(Normalized(r), Knowledge) == KnowledgeResults(r)
  {
    var kg, org, nws := KnowledgeResults(r), OrganicResults(OrganicItems(r)), NewsResults(NewsItems(r));
    assert Normalized(r) == kg + org + nws;
    PartsOfKind(kg, org, nws, Web);
    PartsOfKind(kg, org, nws, News);
    PartsOfKind(kg, org, nws, Knowledge);
    KindsOfParts(r);
  }

  /** Each part of a successful search holds a single kind. */
  lemma KindsOfParts(r: Response)
    ensures var kg, org, nws := KnowledgeResults(r), OrganicResults(OrganicItems(r)), NewsResults(NewsItems(r));
      OfKind(kg, Web) == [] && OfKind(org, Web) == org && OfKind(nws, Web) == [] &&
      OfKind(kg, News) == [] && OfKind(org, News) == [] && OfKind(nws, News) == nws &&
      OfKind(kg, Knowledge) == kg && OfKind(org, Knowledge) == [] && OfKind(nws, Knowledge) == []
  {
    var kg, org, nws := KnowledgeResults(r), OrganicResults(OrganicItems(r)), NewsResults(NewsItems(r));
    forall j | 0 <= j < |org| ensures org[j].kind == Web {
      OrganicResultsAt(OrganicItems(r), j);
    }
    forall j | 0 <= j < |nws| ensures nws[j].kind == News {
      NewsResultsAt(NewsItems(r), j);
    }
    OfKindNone(kg, Web);
    OfKindAll(org, Web);
    OfKindNone(nws, Web);
    OfKindNone(kg, News);
    OfKindNone(org, News);
    OfKindAll(nws, News);
    OfKindAll(kg, Knowledge);
    OfKindNone(org, Knowledge);
    OfKindNone(nws, Knowledge);
  }

  lemma PartsOfKind(a: seq<SearchResult>, b: seq<SearchResult>, c: seq<SearchResult>, k: Kind)
    ensures OfKind(a + b + c, k) == OfKind(a, k) + OfKind(b, k) + OfKind(c, k)
  {
    OfKindAppend(a + b, c, k);
    OfKindAppend(a, b, k);
  }

  /**
   * The metrics of a successful search (app.py:533-537): the web count is the
   * number of organic items and the news count the number of news items.
   */
  lemma NormalizedCounts(r: Response)
    ensures |OfKind(Normalized(r), Web)| == |OrganicItems(r)|
    ensures |OfKind(Normalized(r), News)| == |NewsItems(r)|
    ensures |OfKind(Normalized(r), Knowledge)| == if HasKnowledge(r) then 1 else 0
  {
    NormalizedPartition(r);
  }

  /**
   * Two organic items, one news item and a knowledge panel give four
   * results, the panel first, split 2 / 1 / 1.
   */
  lemma ScenarioTwoOrganicOneNewsOnePanel(o1: Dict, o2: Dict, n1: Dict, kg: Dict)
    requires kg != map[]
    ensures var r := Response(Some([o1, o2]), Some([n1]), Some(kg));
      |Normalized(r)| == 4 && Normalized(r)[0].kind == Knowledge &&
      |OfKind(Normalized(r), Web)| == 2 && |OfKind(Normalized(r), News)| == 1 &&
      |OfKind(Normalized(r), Knowledge)| == 1
  {
    var r := Response(Some([o1, o2]), Some([n1]), Some(kg));
    NormalizedCounts(r);
  }
}
