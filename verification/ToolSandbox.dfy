// Retrieval of evidence: the bounds on the search results, the optional nucleus, and the
// set of paths a plan may cite.  The answer of the search service is a parameter.
module ToolSandbox {
  import opened Collections
  import opened Text
  import opened Nucleus
  import opened NucleusTheorems

  // ------------------------------------------------------------ bounded results

  // snippets_by_path: how many results of a file were kept so far.
  function Snippets(kept: seq<RagResult>, path: string): nat {
    if kept == [] then 0
    else Snippets(kept[..|kept| - 1], path) + if kept[|kept| - 1].path == path then 1 else 0
  }

  predicate Admitted(kept: seq<RagResult>, result: RagResult, allowed: string -> bool, maxFiles: int, maxPerFile: int) {
    allowed(result.path) &&
    (result.path in FileOrder(kept) || |FileOrder(kept)| < maxFiles) &&
    Snippets(kept, result.path) < maxPerFile
  }

  function Bounded(results: seq<RagResult>, allowed: string -> bool, maxFiles: int, maxPerFile: int): seq<RagResult> {
    if results == [] then []
    else
      var kept := Bounded(results[..|results| - 1], allowed, maxFiles, maxPerFile);
      var last := results[|results| - 1];
      if Admitted(kept, last, allowed, maxFiles, maxPerFile) then kept + [last] else kept
  }

  // A file was kept before exactly when it has a snippet.
  lemma {:induction false} KeptFiles(kept: seq<RagResult>, path: string)
    ensures path in FileOrder(kept) <==> Snippets(kept, path) > 0
  {
    if kept != [] {
      KeptFiles(kept[..|kept| - 1], path);
    }
  }

  // Each result is decided in its turn, by the ones kept before it: it is kept when its file is
  // allowed, is known or one more may come, and may still have a snippet.
  lemma DecidedInTurn(before: seq<RagResult>, result: RagResult, allowed: string -> bool, maxFiles: int, maxPerFile: int)
    ensures Bounded([], allowed, maxFiles, maxPerFile) == []
    ensures var kept := Bounded(before, allowed, maxFiles, maxPerFile);
      Bounded(before + [result], allowed, maxFiles, maxPerFile) ==
        if allowed(result.path) && Snippets(kept, result.path) < maxPerFile &&
           (Snippets(kept, result.path) > 0 || |FileOrder(kept)| < maxFiles)
        then kept + [result] else kept
  {
    assert (before + [result])[..|before|] == before;
    KeptFiles(Bounded(before, allowed, maxFiles, maxPerFile), result.path);
    hide Snippets, FileOrder;
  }

  // The bounds hold: allowed files only, few enough of them, few enough snippets of each.
  lemma {:induction false} BoundsHold(results: seq<RagResult>, allowed: string -> bool, maxFiles: int, maxPerFile: int,
                                      path: string)
    ensures var kept := Bounded(results, allowed, maxFiles, maxPerFile);
      (kept == [] || |FileOrder(kept)| <= maxFiles) && (Snippets(kept, path) == 0 || Snippets(kept, path) <= maxPerFile) &&
      (Snippets(kept, path) > 0 ==> allowed(path))
  {
    if results != [] {
      var kept := Bounded(results[..|results| - 1], allowed, maxFiles, maxPerFile);
      BoundsHold(results[..|results| - 1], allowed, maxFiles, maxPerFile, path);
      var last := results[|results| - 1];
      assert (kept + [last])[..|kept|] == kept;
    }
  }

  // And they cost nothing when the results already keep them.
  lemma {:induction false} NothingDroppedWithinBounds(results: seq<RagResult>, allowed: string -> bool,
                                                      maxFiles: int, maxPerFile: int)
    requires |FileOrder(results)| <= maxFiles
    requires forall r :: r in results ==> allowed(r.path)
    requires forall path :: Snippets(results, path) <= maxPerFile
    ensures Bounded(results, allowed, maxFiles, maxPerFile) == results
  {
    hide FileOrder, Snippets, Bounded;
    if results == [] {
      DecidedInTurn([], RagResult("", "", 0.0), allowed, maxFiles, maxPerFile);
    } else {
      var init, last := results[..|results| - 1], results[|results| - 1];
      assert results == init + [last];
      SnippetStep(init, last);
      KeptFiles(init, last.path);
      DecidedInTurn(init, last, allowed, maxFiles, maxPerFile);
      forall path ensures Snippets(init, path) <= maxPerFile {
        assert Snippets(results, path) <= maxPerFile;
      }
      NothingDroppedWithinBounds(init, allowed, maxFiles, maxPerFile);
      assert Snippets(results, last.path) <= maxPerFile;
    }
  }

  // ------------------------------------------------------------ the sandbox

  function PathSet(results: seq<RagResult>): set<string> {
    set r | r in results :: r.path
  }

  // What prefetch_repository answers, by the first check that fails.
  ghost function Retrieved(query: string, topK: int, topP: Option<real>, reply: Option<seq<RagResult>>,
                           allowed: string -> bool, maxFiles: int, maxPerFile: int): Result<seq<RagResult>>
  {
    if PyStrip(query) == "" then Err(EmptyQuery)
    else if !(1 <= topK <= 50) then Err(TopKOutOfRange)
    else if reply.None? then Err(SearchFailed)
    else
      var kept := Bounded(reply.value, allowed, maxFiles, maxPerFile);
      if topP.None? then Ok(kept)
      else if !(0.0 < topP.value <= 1.0) then Err(TopPOutOfRange)
      else Ok(Chunks(kept, Chosen(kept, topP.value)))
  }

  class ToolSandbox {
    var evidencePaths: set<string>
    const allowed: string -> bool
    const maxRagFiles: int
    const maxRagSnippetsPerFile: int

    constructor (sourcePaths: set<string>, allowed: string -> bool, maxRagFiles: int, maxRagSnippetsPerFile: int)
      ensures evidencePaths == sourcePaths
      ensures this.allowed == allowed
      ensures this.maxRagFiles == maxRagFiles && this.maxRagSnippetsPerFile == maxRagSnippetsPerFile
    {
      evidencePaths := sourcePaths;
      this.allowed := allowed;
      this.maxRagFiles := maxRagFiles;
      this.maxRagSnippetsPerFile := maxRagSnippetsPerFile;
    }

    method PrefetchRepository(query: string, topK: int, topP: Option<real>, reply: Option<seq<RagResult>>)
      returns (r: Result<seq<RagResult>>)
      modifies this
      ensures r == Retrieved(query, topK, topP, reply, allowed, maxRagFiles, maxRagSnippetsPerFile)
      ensures r.Ok? <==>
        PyStrip(query) != "" && 1 <= topK <= 50 && reply.Some? && (topP.Some? ==> 0.0 < topP.value <= 1.0)
      ensures r.Err? ==>
        match r.error {
          case EmptyQuery => PyStrip(query) == ""
          case TopKOutOfRange => PyStrip(query) != "" && !(1 <= topK <= 50)
          case SearchFailed => 1 <= topK <= 50 && reply.None?
          case TopPOutOfRange => reply.Some? && topP.Some? && !(0.0 < topP.value <= 1.0)
        }
      ensures forall path :: path in evidencePaths <==>
        path in old(evidencePaths) || (r.Ok? && exists x :: x in r.value && x.path == path)
    {
      if PyStrip(query) == "" {
        return Err(EmptyQuery);
      }
      if !(1 <= topK <= 50) {
        return Err(TopKOutOfRange);
      }
      if reply.None? {
        return Err(SearchFailed);
      }
      var results := BoundResults(reply.value);
      if topP.Some? {
        var nucleus := SelectFileNucleus(results, topP.value);
        if nucleus.Err? {
          return nucleus;
        }
        results := nucleus.value;
      }
      evidencePaths := evidencePaths + PathSet(results);
      return Ok(results);
    }

    method BoundResults(results: seq<RagResult>) returns (kept: seq<RagResult>)
      ensures kept == Bounded(results, allowed, maxRagFiles, maxRagSnippetsPerFile)
    {
      hide Snippets, FileOrder;
      kept := [];
      var snippetsByPath: map<string, nat> := map[];
      NoSnippets();
      for i := 0 to |results|
        invariant kept == Bounded(results[..i], allowed, maxRagFiles, maxRagSnippetsPerFile)
        invariant |snippetsByPath| == |FileOrder(kept)|
        invariant forall p :: p in snippetsByPath <==> p in FileOrder(kept)
        invariant forall p :: p in snippetsByPath ==> snippetsByPath[p] == Snippets(kept, p)
      {
        assert results[..i + 1][..i] == results[..i];
        var result := results[i];
        KeptFiles(kept, result.path);
        SnippetStep(kept, result);
        if !allowed(result.path) {
          continue;
        }
        if result.path !in snippetsByPath && |snippetsByPath| >= maxRagFiles {
          continue;
        }
        var count := if result.path in snippetsByPath then snippetsByPath[result.path] else 0;
        if count >= maxRagSnippetsPerFile {
          continue;
        }
        snippetsByPath := snippetsByPath[result.path := count + 1];
        kept := kept + [result];
      }
      assert results[..|results|] == results;
    }
  }

  lemma NoSnippets()
    ensures FileOrder([]) == []
  {
  }

  lemma SnippetStep(kept: seq<RagResult>, result: RagResult)
    ensures var order := FileOrder(kept);
      FileOrder(kept + [result]) == if result.path in order then order else order + [result.path]
    ensures forall p :: Snippets(kept + [result], p) == Snippets(kept, p) + if result.path == p then 1 else 0
  {
    assert (kept + [result])[..|kept|] == kept;
  }

  // Without top_p nothing is selected away; with it, the evidence carries the mass asked for
  // and, on ranked results, no fewer files would.
  lemma {:induction false} RetrievedIsNucleus(query: string, topK: int, topP: real, ranked: seq<RagResult>,
                           allowed: string -> bool, maxFiles: int, maxPerFile: int, files: set<string>)
    requires Ranked(ranked) && 0.0 < topP <= 1.0
    requires Retrieved(query, topK, Some(topP), Some(ranked), allowed, maxFiles, maxPerFile).Ok?
    ensures var kept := Bounded(ranked, allowed, maxFiles, maxPerFile);
      var evidence := PathSet(Retrieved(query, topK, Some(topP), Some(ranked), allowed, maxFiles, maxPerFile).value);
      FilesMass(kept, evidence) >= Target(kept, topP) &&
      (FilesMass(kept, files) >= Target(kept, topP) ==> |evidence| <= |files|)
  {
    hide FileOrder, Bounded, Chunks, Chosen, Ranked, Target, FilesMass, PathSet;
    var kept := Bounded(ranked, allowed, maxFiles, maxPerFile);
    BoundedRanked(ranked, allowed, maxFiles, maxPerFile);
    NucleusCovers(kept, topP);
    ChosenAppear(kept, topP);
    if FilesMass(kept, files) >= Target(kept, topP) {
      RankingDescends(kept);
      NucleusIsFewest(kept, topP, files);
    }
  }

  lemma {:induction false} BoundedRanked(results: seq<RagResult>, allowed: string -> bool, maxFiles: int,
                              maxPerFile: int)
    requires Ranked(results)
    ensures var kept := Bounded(results, allowed, maxFiles, maxPerFile);
      Ranked(kept) && forall r :: r in kept ==> r in results
  {
    if results != [] {
      var init, last := results[..|results| - 1], results[|results| - 1];
      BoundedRanked(init, allowed, maxFiles, maxPerFile);
      var kept := Bounded(init, allowed, maxFiles, maxPerFile);
      assert results == init + [last];
      forall i | 0 <= i < |kept| ensures kept[i].score >= last.score {
        assert kept[i] in init;
        var j :| 0 <= j < |init| && init[j] == kept[i];
        assert results[j] == kept[i];
      }
    }
  }

  // The files of the chunks kept are exactly the files chosen.
  lemma ChosenAppear(results: seq<RagResult>, topP: real)
    ensures PathSet(Chunks(results, Chosen(results, topP))) == Chosen(results, topP)
  {
    forall path | path in Chosen(results, topP)
      ensures path in PathSet(Chunks(results, Chosen(results, topP)))
    {
      PrefixGrows(Ranking(results), NucleusSize(results, topP), NucleusSize(results, topP));
      assert path in Ranking(results);
      RankingListed(FileOrder(results), results, path);
      OrderListed(results, path);
      var r :| r in results && r.path == path;
      assert r in Chunks(results, Chosen(results, topP));
    }
  }

  lemma {:induction false} RankingListed(order: seq<string>, results: seq<RagResult>, path: string)
    requires path in Positive(order, results)
    ensures path in order
  {
    if path in Positive(order[..|order| - 1], results) {
      RankingListed(order[..|order| - 1], results, path);
    }
  }

  lemma {:induction false} OrderListed(results: seq<RagResult>, path: string)
    requires path in FileOrder(results)
    ensures exists r :: r in results && r.path == path
  {
    if path in FileOrder(results[..|results| - 1]) {
      OrderListed(results[..|results| - 1], path);
    } else {
      assert results[|results| - 1] in results;
    }
  }
}
