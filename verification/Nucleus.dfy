// Evidence retrieval of the agent engine: bounding the search results, keeping the files
// that carry the relevance mass, and recording them as evidence.  Scores are reals.
module Nucleus {
  import opened Collections

  datatype RagResult = RagResult(path: string, chunk: string, score: real)

  datatype Result<T> = Ok(value: T) | Err(error: ToolError)

  datatype ToolError = TopPOutOfRange | EmptyQuery | TopKOutOfRange | SearchFailed

  // ------------------------------------------------------------ the scores of the files

  // The keys of file_scores, in the order they were inserted.
  function FileOrder(results: seq<RagResult>): (order: seq<string>)
    ensures forall i, j :: 0 <= i < j < |order| ==> order[i] != order[j]
  {
    if results == [] then []
    else
      var order, p := FileOrder(results[..|results| - 1]), results[|results| - 1].path;
      if p in order then order else order + [p]
  }

  function Max(a: real, b: real): real {
    if a < b then b else a
  }

  // The best chunk score of a file, at least zero.
  function FileScore(results: seq<RagResult>, path: string): (score: real)
    ensures score >= 0.0
  {
    if results == [] then 0.0
    else
      var init, last := FileScore(results[..|results| - 1], path), results[|results| - 1];
      if last.path == path then Max(init, last.score) else init
  }

  // The files with a positive score, in order.
  function Positive(order: seq<string>, results: seq<RagResult>): (r: seq<string>)
    ensures |r| <= |order|
  {
    if order == [] then []
    else
      var init, p := Positive(order[..|order| - 1], results), order[|order| - 1];
      if FileScore(results, p) > 0.0 then init + [p] else init
  }

  function Ranking(results: seq<RagResult>): seq<string> {
    Positive(FileOrder(results), results)
  }

  // The mass of the first k files of a list.
  function Mass(paths: seq<string>, results: seq<RagResult>, k: nat): (m: real)
    requires k <= |paths|
    ensures m >= 0.0
  {
    if k == 0 then 0.0 else Mass(paths, results, k - 1) + FileScore(results, paths[k - 1])
  }

  function TotalMass(results: seq<RagResult>): (m: real)
    ensures m >= 0.0
  {
    Mass(Ranking(results), results, |Ranking(results)|)
  }

  // How many files, from the k-th on, until the mass reaches the target.
  ghost function Reach(paths: seq<string>, results: seq<RagResult>, target: real, k: nat): (r: nat)
    requires k <= |paths|
    ensures k <= r <= |paths|
    ensures r < |paths| ==> Mass(paths, results, r) >= target
    decreases |paths| - k
  {
    if k == |paths| || Mass(paths, results, k) >= target then k else Reach(paths, results, target, k + 1)
  }

  lemma {:induction false} ReachIsLeast(paths: seq<string>, results: seq<RagResult>, target: real, k: nat, j: nat)
    requires k <= |paths| && k <= j < Reach(paths, results, target, k)
    ensures Mass(paths, results, j) < target
    decreases |paths| - k
  {
    if j > k {
      ReachIsLeast(paths, results, target, k + 1, j);
    }
  }

  ghost function Target(results: seq<RagResult>, topP: real): real {
    TotalMass(results) * topP
  }

  // The number of files kept.
  ghost function NucleusSize(results: seq<RagResult>, topP: real): nat {
    Reach(Ranking(results), results, Target(results, topP), 0)
  }

  // [result for result in results if result.path in paths]
  function Chunks(results: seq<RagResult>, paths: set<string>): (r: seq<RagResult>)
    ensures forall x :: x in r <==> x in results && x.path in paths
  {
    if results == [] then []
    else
      var last := results[|results| - 1];
      assert results == results[..|results| - 1] + [last];
      Chunks(results[..|results| - 1], paths) + if last.path in paths then [last] else []
  }

  ghost function Chosen(results: seq<RagResult>, topP: real): set<string> {
    if TotalMass(results) <= 0.0 then {} else Prefix(Ranking(results), NucleusSize(results, topP))
  }

  ghost function Prefix(paths: seq<string>, k: nat): set<string>
    requires k <= |paths|
  {
    if k == 0 then {} else Prefix(paths, k - 1) + {paths[k - 1]}
  }

  // ------------------------------------------------------------ what they mean

  // The score of a file is the best of its chunks, and zero when none is positive.
  lemma {:induction false} ScoreIsBest(results: seq<RagResult>, path: string)
    ensures forall r :: r in results && r.path == path ==> r.score <= FileScore(results, path)
    ensures FileScore(results, path) == 0.0 ||
      exists r :: r in results && r.path == path && r.score == FileScore(results, path)
  {
    if results != [] {
      var init, last := results[..|results| - 1], results[|results| - 1];
      assert results == init + [last];
      ScoreIsBest(init, path);
    }
  }

  ghost function Scored(results: seq<RagResult>): string -> bool {
    path => FileScore(results, path) > 0.0
  }

  ghost function Among(paths: set<string>): RagResult -> bool {
    (r: RagResult) => r.path in paths
  }

  // The ranking keeps the files with a positive score, in order ...
  lemma {:induction false} RankingKeeps(order: seq<string>, results: seq<RagResult>)
    ensures Positive(order, results) == Filter(order, Scored(results))
  {
    if order != [] {
      RankingKeeps(order[..|order| - 1], results);
    }
  }

  // ... and the answer the chunks of the chosen files, in order.
  lemma {:induction false} ChunksKeep(results: seq<RagResult>, paths: set<string>)
    ensures Chunks(results, paths) == Filter(results, Among(paths))
  {
    if results != [] {
      ChunksKeep(results[..|results| - 1], paths);
    }
  }

  // A file's place in the order is that of its first chunk.
  lemma {:induction false} OrderOfFirst(results: seq<RagResult>, last: RagResult)
    ensures FileOrder([]) == []
    ensures FileOrder(results + [last]) ==
      if exists r :: r in results && r.path == last.path then FileOrder(results) else FileOrder(results) + [last.path]
  {
    assert (results + [last])[..|results|] == results;
    OrderHolds(results, last.path);
  }

  lemma {:induction false} OrderHolds(results: seq<RagResult>, path: string)
    ensures path in FileOrder(results) <==> exists r :: r in results && r.path == path
  {
    if results != [] {
      var init, last := results[..|results| - 1], results[|results| - 1];
      assert results == init + [last];
      OrderHolds(init, path);
    }
  }

  // What is chosen, for every list of results: the shortest head of the ranking whose mass reaches
  // the target, or the whole ranking when none does.
  lemma {:induction false} ChosenIsHead(results: seq<RagResult>, topP: real) returns (n: nat)
    requires TotalMass(results) > 0.0
    ensures var ranking := Ranking(results);
      n <= |ranking| && (forall p :: p in Chosen(results, topP) <==> p in ranking[..n]) &&
      (n < |ranking| ==> Mass(ranking, results, n) >= TotalMass(results) * topP) &&
      forall k :: 0 <= k < n ==> Mass(ranking, results, k) < TotalMass(results) * topP
  {
    var ranking := Ranking(results);
    n := NucleusSize(results, topP);
    forall k | 0 <= k < n ensures Mass(ranking, results, k) < TotalMass(results) * topP {
      ReachIsLeast(ranking, results, Target(results, topP), 0, k);
    }
    forall p ensures p in Chosen(results, topP) <==> p in ranking[..n] {
      InPrefix(ranking, n, p);
    }
  }

  lemma {:induction false} InPrefix(paths: seq<string>, k: nat, p: string)
    requires k <= |paths|
    ensures p in Prefix(paths, k) <==> p in paths[..k]
  {
    if k > 0 {
      InPrefix(paths, k - 1, p);
      assert paths[..k] == paths[..k - 1] + [paths[k - 1]];
    }
  }

  // ------------------------------------------------------------ the source's loops

  // A Python dict: the scores by file, and the order in which the files were added.
  ghost predicate ScoresOf(fileScores: map<string, real>, order: seq<string>, results: seq<RagResult>) {
    order == FileOrder(results) &&
    (forall p :: p in fileScores <==> p in order) &&
    (forall p :: p in fileScores ==> fileScores[p] == FileScore(results, p))
  }

  method CollectScores(results: seq<RagResult>) returns (fileScores: map<string, real>, order: seq<string>)
    ensures ScoresOf(fileScores, order, results)
  {
    fileScores, order := map[], [];
    for i := 0 to |results|
      invariant ScoresOf(fileScores, order, results[..i])
    {
      assert results[..i + 1][..i] == results[..i];
      var p := results[i].path;
      if p !in fileScores {
        UnlistedScore(results[..i], p);
        order := order + [p];
      }
      fileScores := fileScores[p := Max(if p in fileScores then fileScores[p] else 0.0, results[i].score)];
    }
    assert results[..|results|] == results;
  }

  method PositiveMass(fileScores: map<string, real>, order: seq<string>, results: seq<RagResult>)
    returns (positiveMass: real)
    requires ScoresOf(fileScores, order, results)
    ensures positiveMass == TotalMass(results)
  {
    hide FileScore, FileOrder, Positive, Ranking;
    positiveMass := 0.0;
    ghost var ranking := Ranking(results);
    RankingIsPositive(order, results);
    for i := 0 to |order|
      invariant Positive(order[..i], results) <= ranking
      invariant positiveMass == Mass(ranking, results, |Positive(order[..i], results)|)
    {
      PositiveStep(order, results, i);
      if fileScores[order[i]] > 0.0 {
        positiveMass := positiveMass + fileScores[order[i]];
      }
    }
    assert order[..|order|] == order;
  }

  method SelectPaths(fileScores: map<string, real>, order: seq<string>, results: seq<RagResult>, targetMass: real)
    returns (selectedPaths: set<string>)
    requires ScoresOf(fileScores, order, results) && targetMass > 0.0
    ensures selectedPaths == Prefix(Ranking(results), Reach(Ranking(results), results, targetMass, 0))
  {
    hide FileScore, FileOrder, Positive, Ranking;
    ghost var ranking := Ranking(results);
    RankingIsPositive(order, results);
    selectedPaths := {};
    var cumulativeMass := 0.0;
    ghost var k := 0;
    for i := 0 to |order|
      invariant k == |Positive(order[..i], results)| <= |ranking|
      invariant cumulativeMass == Mass(ranking, results, k) && selectedPaths == Prefix(ranking, k)
      invariant cumulativeMass < targetMass
      invariant Reach(ranking, results, targetMass, k) == Reach(ranking, results, targetMass, 0)
    {
      PositiveStep(order, results, i);
      var path, score := order[i], fileScores[order[i]];
      if score <= 0.0 {
        continue;
      }
      selectedPaths := selectedPaths + {path};
      cumulativeMass := cumulativeMass + score;
      k := k + 1;
      if cumulativeMass >= targetMass {
        return;
      }
    }
    assert order[..|order|] == order;
  }

  method SelectFileNucleus(results: seq<RagResult>, topP: real) returns (r: Result<seq<RagResult>>)
    ensures r == if 0.0 < topP <= 1.0 then Ok(Chunks(results, Chosen(results, topP))) else Err(TopPOutOfRange)
  {
    hide FileScore, FileOrder, Positive, Ranking, Mass, TotalMass, Reach, Chunks, Prefix, ScoresOf;
    if !(0.0 < topP <= 1.0) {
      return Err(TopPOutOfRange);
    }
    NoChunks(results);
    if results == [] {
      NothingToChoose(topP);
      return Ok([]);
    }
    var fileScores, order := CollectScores(results);
    var positiveMass := PositiveMass(fileScores, order, results);
    if positiveMass <= 0.0 {
      return Ok([]);
    }
    ProductPositive(positiveMass, topP);
    var targetMass := positiveMass * topP;
    var selectedPaths := SelectPaths(fileScores, order, results, targetMass);
    assert targetMass == Target(results, topP);
    return Ok(Chunks(results, selectedPaths));
  }

  lemma NothingToChoose(topP: real)
    ensures Chunks([], Chosen([], topP)) == []
  {
  }

  lemma {:induction false} NoChunks(results: seq<RagResult>)
    ensures Chunks(results, {}) == []
  {
    if results != [] {
      NoChunks(results[..|results| - 1]);
    }
  }

  lemma ProductPositive(a: real, b: real)
    requires a > 0.0 && b > 0.0
    ensures a * b > 0.0
  {
  }

  lemma {:induction false} UnlistedScore(results: seq<RagResult>, p: string)
    requires p !in FileOrder(results)
    ensures FileScore(results, p) == 0.0
  {
    if results != [] {
      UnlistedScore(results[..|results| - 1], p);
    }
  }

  lemma RankingIsPositive(order: seq<string>, results: seq<RagResult>)
    ensures order == FileOrder(results) ==> Positive(order, results) == Ranking(results)
    ensures Positive(order[..0], results) == []
  {
  }

  lemma {:induction false} PositiveStep(order: seq<string>, results: seq<RagResult>, i: nat)
    requires i < |order|
    ensures Positive(order[..i + 1], results)
         == Positive(order[..i], results) + if FileScore(results, order[i]) > 0.0 then [order[i]] else []
    ensures Positive(order[..i + 1], results) <= Positive(order, results)
    ensures Positive(order[..i], results) <= Positive(order, results)
  {
    assert order[..i + 1][..i] == order[..i];
    PositivePrefix(order, results, i + 1);
    PositivePrefix(order, results, i);
  }

  lemma {:induction false} PositivePrefix(order: seq<string>, results: seq<RagResult>, i: nat)
    requires i <= |order|
    ensures Positive(order[..i], results) <= Positive(order, results)
  {
    if i == |order| {
      assert order[..i] == order;
    } else {
      PositivePrefix(order[..|order| - 1], results, i);
      assert order[..|order| - 1][..i] == order[..i];
    }
  }
}
