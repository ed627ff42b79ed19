/**
 * Context rendering: the first twelve normalised results become numbered
 * `[FONTE i]` blocks of text, one line per field, that are embedded in the
 * prompt. A rendered context is modelled as its sequence of lines, each
 * terminated by a newline.
 */
module Context {
  import opened Base
  import opened Search

  /** Only this many results are ever rendered. */
  const MaxSources: nat := 12

  const HeaderPrefix: string := "[FONTE "
  const DatePrefix: string := "Data: "

  /** The header line of block `i`. */
  function HeaderLine(i: nat): string
  {
    HeaderPrefix + NatToString(i) + "]"
  }

  /** Distinct source numbers give distinct header lines. */
  lemma HeaderLineDistinct(a: nat, b: nat)
    ensures HeaderLine(a) == HeaderLine(b) <==> a == b
  {
    if HeaderLine(a) == HeaderLine(b) {
      var h := HeaderLine(a);
      assert NatToString(a) == h[|HeaderPrefix|..|h| - 1];
      assert NatToString(b) == HeaderLine(b)[|HeaderPrefix|..|h| - 1];
      NatToStringValue(a);
      NatToStringValue(b);
    }
  }

  /** The lines of the block for result `r` numbered `i`; the `Data:` line only for a non-empty date. */
  function BlockLines(i: nat, r: SearchResult): seq<string>
  {
    [HeaderLine(i), "Título: " + r.title, "Tipo: " + Upper(r.kind.Name()), "Fonte: " + r.source]
    + (if Truthy(r.date) then [DatePrefix + r.date.value] else [])
    + ["Conteúdo: " + r.snippet, "Link: " + r.link, ""]
  }

  /** Lines joined into text, each followed by a newline. */
  function Join(lines: seq<string>): string
  {
    if lines == [] then "" else lines[0] + "\n" + Join(lines[1..])
  }

  /** The blocks of `rs`, numbered 1..|rs| in order. */
  function Blocks(rs: seq<SearchResult>): seq<string>
  {
    if rs == [] then [] else Blocks(rs[..|rs| - 1]) + BlockLines(|rs|, rs[|rs| - 1])
  }

  /** `search_results[:12]` */
  function Shown(rs: seq<SearchResult>): (s: seq<SearchResult>)
    ensures |s| == if |rs| < MaxSources then |rs| else MaxSources
    ensures s <= rs
  {
    if |rs| <= MaxSources then rs else rs[..MaxSources]
  }

  /** The lines of the rendered context for a result list. */
  function ContextLines(rs: seq<SearchResult>): seq<string>
  {
    Blocks(Shown(rs))
  }

  /** The rendered context as text. */
  function ContextText(rs: seq<SearchResult>): string
  {
    Join(ContextLines(rs))
  }

  /** The lines of `lines` that start with `p`, in order. */
  function Matching(lines: seq<string>, p: string): (m: seq<string>)
    ensures forall l :: l in m ==> l in lines && StartsWith(l, p)
  {
    if lines == [] then []
    else (if StartsWith(lines[0], p) then [lines[0]] else []) + Matching(lines[1..], p)
  }

  /** The date lines the shown results contribute, in order. */
  function DateLines(rs: seq<SearchResult>): seq<string>
  {
    if rs == [] then []
    else DateLines(rs[..|rs| - 1]) + (if Truthy(rs[|rs| - 1].date) then [DatePrefix + rs[|rs| - 1].date.value] else [])
  }

  /**
   * The context loop of `generate_summary_with_ai` (app.py:283-292): grows the
   * text block by block over the first twelve results.
   */
  method RenderContext(results: seq<SearchResult>) returns (context: string)
    ensures context == Join(ContextLines(results))
  {
    var shown := if |results| <= MaxSources then results else results[..MaxSources];
    context := "";
    var i := 0;
    while i < |shown|
      invariant 0 <= i <= |shown|
      invariant context == Join(Blocks(shown[..i]))
    {
      assert shown[..i + 1][..i] == shown[..i];
      JoinAppend(Blocks(shown[..i]), BlockLines(i + 1, shown[i]));
      context := context + Join(BlockLines(i + 1, shown[i]));
      i := i + 1;
    }
    assert shown[..i] == shown;
  }

  lemma {:induction false} JoinAppend(a: seq<string>, b: seq<string>)
    ensures Join(a + b) == Join(a) + Join(b)
  {
    if a != [] {
      assert (a + b)[1..] == a[1..] + b;
      JoinAppend(a[1..], b);
    } else {
      assert a + b == b;
    }
  }

  lemma {:induction false} MatchingAppend(a: seq<string>, b: seq<string>, p: string)
    ensures Matching(a + b, p) == Matching(a, p) + Matching(b, p)
  {
    if a != [] {
      assert (a + b)[1..] == a[1..] + b;
      MatchingAppend(a[1..], b, p);
    } else {
      assert a + b == b;
    }
  }

  /** Of the lines of one block, only the first is a header line. */
  lemma BlockHeaders(i: nat, r: SearchResult)
    ensures Matching(BlockLines(i, r), HeaderPrefix) == [HeaderLine(i)]
  {
    var h := HeaderLine(i);
    assert h[..|HeaderPrefix|] == HeaderPrefix;
    var d: seq<string> := if Truthy(r.date) then [DatePrefix + r.date.value] else [];
    var rest := ["Título: " + r.title, "Tipo: " + Upper(r.kind.Name()), "Fonte: " + r.source] + d
      + ["Conteúdo: " + r.snippet, "Link: " + r.link, ""];
    assert BlockLines(i, r) == [h] + rest;
    forall l | l in rest ensures !StartsWith(l, HeaderPrefix) {
      if |l| >= |HeaderPrefix| {
        assert l[0] != '[';
        assert l[..|HeaderPrefix|][0] != HeaderPrefix[0];
      }
    }
    NoneMatching(rest, HeaderPrefix);
    MatchingAppend([h], rest, HeaderPrefix);
  }

  /** A block's date line is present exactly when its result has a non-empty date. */
  lemma BlockDates(i: nat, r: SearchResult)
    ensures Matching(BlockLines(i, r), DatePrefix)
         == if Truthy(r.date) then [DatePrefix + r.date.value] else []
  {
    var d: seq<string> := if Truthy(r.date) then [DatePrefix + r.date.value] else [];
    var front := [HeaderLine(i), "Título: " + r.title, "Tipo: " + Upper(r.kind.Name()), "Fonte: " + r.source];
    var back := ["Conteúdo: " + r.snippet, "Link: " + r.link, ""];
    assert BlockLines(i, r) == front + d + back;
    forall l | l in front + back ensures !StartsWith(l, DatePrefix) {
      if |l| >= |DatePrefix| {
        assert l[0] != 'D';
        assert l[..|DatePrefix|][0] != DatePrefix[0];
      }
    }
    NoneMatching(front, DatePrefix);
    NoneMatching(back, DatePrefix);
    if Truthy(r.date) {
      assert (DatePrefix + r.date.value)[..|DatePrefix|] == DatePrefix;
    }
    MatchingAppend(front, d, DatePrefix);
    MatchingAppend(front + d, back, DatePrefix);
  }

  lemma {:induction false} NoneMatching(lines: seq<string>, p: string)
    requires forall l :: l in lines ==> !StartsWith(l, p)
    ensures Matching(lines, p) == []
  {
    if lines != [] {
      assert lines[0] in lines;
      NoneMatching(lines[1..], p);
    }
  }

  /** The header lines `[FONTE 1]`, ..., `[FONTE n]`. */
  function Numbering(n: nat): (hs: seq<string>)
    ensures |hs| == n
    ensures forall j :: 0 <= j < n ==> hs[j] == HeaderLine(j + 1)
  {
    if n == 0 then [] else Numbering(n - 1) + [HeaderLine(n)]
  }

  /** The header lines of the blocks are `[FONTE 1]`, ..., `[FONTE n]`, in order. */
  lemma {:induction false} BlocksNumbered(rs: seq<SearchResult>)
    ensures Matching(Blocks(rs), HeaderPrefix) == Numbering(|rs|)
  {
    if rs != [] {
      var n := |rs|;
      var front := rs[..n - 1];
      BlocksNumbered(front);
      MatchingAppend(Blocks(front), BlockLines(n, rs[n - 1]), HeaderPrefix);
      BlockHeaders(n, rs[n - 1]);
    }
  }

  /** The date lines of the blocks are those of the results that have a non-empty date. */
  lemma {:induction false} BlocksDated(rs: seq<SearchResult>)
    ensures Matching(Blocks(rs), DatePrefix) == DateLines(rs)
  {
    if rs != [] {
      var front := rs[..|rs| - 1];
      BlocksDated(front);
      MatchingAppend(Blocks(front), BlockLines(|rs|, rs[|rs| - 1]), DatePrefix);
      BlockDates(|rs|, rs[|rs| - 1]);
    }
  }

  /**
   * The context holds exactly min(12, n) blocks, numbered 1..min(12, n) in
   * input order, and its date lines are those of the shown results with a
   * non-empty date.
   */
  lemma ContextBlocks(rs: seq<SearchResult>)
    ensures var n := if |rs| < MaxSources then |rs| else MaxSources;
      var headers := Matching(ContextLines(rs), HeaderPrefix);
      |headers| == n && forall j :: 0 <= j < n ==> headers[j] == HeaderLine(j + 1)
    ensures Matching(ContextLines(rs), DatePrefix) == DateLines(Shown(rs))
  {
    BlocksNumbered(Shown(rs));
    BlocksDated(Shown(rs));
  }

  /** A result list of at most twelve is rendered whole. */
  lemma ContextWhole(rs: seq<SearchResult>)
    requires |rs| <= MaxSources
    ensures ContextLines(rs) == Blocks(rs)
  {
    assert Shown(rs) == rs;
  }

  /** Results past the twelfth never reach the context. */
  lemma ContextCap(rs: seq<SearchResult>, extra: seq<SearchResult>)
    requires |rs| >= MaxSources
    ensures ContextLines(rs + extra) == ContextLines(rs)
  {
    var s := rs + extra;
    assert s[..MaxSources] == rs[..MaxSources];
    assert Shown(s) == Shown(rs);
  }
}
