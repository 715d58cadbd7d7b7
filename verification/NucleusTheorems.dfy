// What the nucleus selection achieves on ranked results: the mass asked for, with the
// fewest files, and more files only when more mass is asked for.
module NucleusTheorems {
  import opened Collections
  import opened Nucleus

  // Search results ranked by non-increasing score.
  ghost predicate Ranked(results: seq<RagResult>) {
    forall i, j :: 0 <= i < j < |results| ==> results[i].score >= results[j].score
  }

  ghost predicate Descending(paths: seq<string>, results: seq<RagResult>) {
    forall i, j :: 0 <= i < j < |paths| ==> FileScore(results, paths[i]) >= FileScore(results, paths[j])
  }

  // The relevance mass of the files of a set, among the files listed.
  ghost function MassIn(paths: seq<string>, results: seq<RagResult>, files: set<string>): real {
    if paths == [] then 0.0
    else
      var last := paths[|paths| - 1];
      MassIn(paths[..|paths| - 1], results, files) + if last in files then FileScore(results, last) else 0.0
  }

  // The mass of a set of files: each file met in the results counts with its best chunk score.
  ghost function FilesMass(results: seq<RagResult>, files: set<string>): real {
    MassIn(FileOrder(results), results, files)
  }

  // ------------------------------------------------------------ the ranking is descending

  lemma {:induction false} LeastScore(results: seq<RagResult>, path: string, least: real)
    requires path in FileOrder(results)
    requires forall i :: 0 <= i < |results| ==> results[i].score >= least
    ensures FileScore(results, path) >= least
  {
    if path in FileOrder(results[..|results| - 1]) {
      LeastScore(results[..|results| - 1], path, least);
    }
  }

  lemma OrderStep(results: seq<RagResult>)
    requires results != []
    ensures var init, p := FileOrder(results[..|results| - 1]), results[|results| - 1].path;
      FileOrder(results) == if p in init then init else init + [p]
  {
  }

  lemma {:induction false} OrderDescends(results: seq<RagResult>)
    requires Ranked(results)
    ensures Descending(FileOrder(results), results)
  {
    if results != [] {
      var init, last := results[..|results| - 1], results[|results| - 1];
      OrderDescends(init);
      OrderStep(results);
      forall p | p in FileOrder(init) ensures FileScore(results, p) == FileScore(init, p) >= last.score {
        LeastScore(init, p, last.score);
      }
      if last.path !in FileOrder(init) {
        UnlistedScore(init, last.path);
      }
      DescendingStep(FileOrder(init), init, results, last);
    }
  }

  lemma DescendingStep(order: seq<string>, init: seq<RagResult>, results: seq<RagResult>, last: RagResult)
    requires Descending(order, init)
    requires forall p :: p in order ==> FileScore(results, p) == FileScore(init, p) >= last.score
    requires last.path !in order ==> FileScore(results, last.path) == Max(0.0, last.score)
    ensures Descending(if last.path in order then order else order + [last.path], results)
  {
    hide FileScore;
    forall i, j | 0 <= i < j < |order| ensures FileScore(results, order[i]) >= FileScore(results, order[j]) {
      assert order[i] in order && order[j] in order;
    }
    forall i | 0 <= i < |order| ensures FileScore(results, order[i]) >= Max(0.0, last.score) {
      assert order[i] in order;
    }
  }

  lemma {:induction false} RankingDistinct(order: seq<string>, results: seq<RagResult>)
    requires Distinct(order)
    ensures Distinct(Positive(order, results)) && forall p :: p in Positive(order, results) ==> p in order
  {
    if order != [] {
      var init, last := order[..|order| - 1], order[|order| - 1];
      RankingDistinct(init, results);
      assert order == init + [last];
      assert last !in init;
    }
  }

  lemma {:induction false} PositiveDescends(order: seq<string>, results: seq<RagResult>)
    requires Descending(order, results)
    ensures Descending(Positive(order, results), results)
    ensures forall p :: p in Positive(order, results) ==> p in order
  {
    hide FileScore;
    if order != [] {
      var init, last := order[..|order| - 1], order[|order| - 1];
      assert order == init + [last];
      PositiveDescends(init, results);
      forall p | p in init ensures FileScore(results, p) >= FileScore(results, last) {
        var i :| 0 <= i < |init| && init[i] == p;
        assert order[i] == p;
      }
      var r := Positive(init, results);
      forall i | 0 <= i < |r| ensures FileScore(results, r[i]) >= FileScore(results, last) {
        assert r[i] in r;
      }
    }
  }

  lemma RankingDescends(results: seq<RagResult>)
    requires Ranked(results)
    ensures Descending(Ranking(results), results) && Distinct(Ranking(results))
  {
    OrderDescends(results);
    PositiveDescends(FileOrder(results), results);
    RankingDistinct(FileOrder(results), results);
  }

  // ------------------------------------------------------------ prefixes of the ranking

  lemma {:induction false} PrefixGrows(paths: seq<string>, j: nat, k: nat)
    requires j <= k <= |paths|
    ensures Prefix(paths, j) <= Prefix(paths, k)
    ensures forall p :: p in Prefix(paths, k) ==> p in paths[..k]
  {
    if k > 0 {
      assert paths[..k] == paths[..k - 1] + [paths[k - 1]];
      if j < k {
        PrefixGrows(paths, j, k - 1);
      } else {
        PrefixGrows(paths, k - 1, k - 1);
      }
    }
  }

  lemma NotBefore(paths: seq<string>, k: nat)
    requires k < |paths| && Distinct(paths)
    ensures paths[k] !in Prefix(paths, k)
  {
    PrefixGrows(paths, k, k);
  }

  lemma {:induction false} PrefixSize(paths: seq<string>, k: nat)
    requires k <= |paths| && Distinct(paths)
    ensures |Prefix(paths, k)| == k
  {
    hide Distinct;
    if k > 0 {
      PrefixSize(paths, k - 1);
      NotBefore(paths, k - 1);
    }
  }

  // The mass of the first k files is the mass of the set they form.
  lemma {:induction false} MassOfPrefix(paths: seq<string>, results: seq<RagResult>, n: nat, k: nat)
    requires n <= |paths| && k <= |paths| && Distinct(paths)
    ensures MassIn(paths[..n], results, Prefix(paths, k)) == Mass(paths, results, if n < k then n else k)
  {
    hide FileScore;
    if n > 0 {
      MassOfPrefix(paths, results, n - 1, k);
      assert paths[..n][..n - 1] == paths[..n - 1];
      PrefixGrows(paths, k, k);
      if n <= k {
        PrefixGrows(paths, n, k);
      } else {
        assert paths[n - 1] !in paths[..k];
      }
    }
  }

  // Files without a positive score carry no mass.
  lemma {:induction false} PositiveMassIn(order: seq<string>, results: seq<RagResult>, files: set<string>)
    ensures MassIn(order, results, files) == MassIn(Positive(order, results), results, files)
  {
    if order != [] {
      var init, last := order[..|order| - 1], order[|order| - 1];
      PositiveMassIn(init, results, files);
      if FileScore(results, last) > 0.0 {
        assert Positive(order, results)[..|Positive(init, results)|] == Positive(init, results);
      }
    }
  }

  // ------------------------------------------------------------ any set against the ranking

  // A set of files is never heavier than the same number of top-ranked files.
  lemma {:induction false} Outweighed(paths: seq<string>, results: seq<RagResult>, n: nat, files: set<string>)
    requires n <= |paths| && Descending(paths, results) && Distinct(paths)
    ensures |Prefix(paths, n) * files| <= n
    ensures MassIn(paths[..n], results, files) <= Mass(paths, results, |Prefix(paths, n) * files|)
  {
    hide FileScore, Distinct, Descending, Prefix;
    if n > 0 {
      Outweighed(paths, results, n - 1, files);
      NotBefore(paths, n - 1);
      OneMore(paths, n, files);
      assert paths[..n][..n - 1] == paths[..n - 1];
      HigherFirst(paths, results, |Prefix(paths, n - 1) * files|, n - 1);
    } else {
      OneMore(paths, 0, files);
    }
  }

  lemma HigherFirst(paths: seq<string>, results: seq<RagResult>, i: nat, j: nat)
    requires Descending(paths, results) && i <= j < |paths|
    ensures FileScore(results, paths[i]) >= FileScore(results, paths[j])
  {
  }

  lemma OneMore(paths: seq<string>, n: nat, files: set<string>)
    requires n <= |paths| && (n > 0 ==> paths[n - 1] !in Prefix(paths, n - 1))
    ensures n == 0 ==> |Prefix(paths, n) * files| == 0
    ensures n > 0 ==>
      |Prefix(paths, n) * files| == |Prefix(paths, n - 1) * files| + if paths[n - 1] in files then 1 else 0
  {
    if n > 0 {
      assert Prefix(paths, n) * files
          == Prefix(paths, n - 1) * files + if paths[n - 1] in files then {paths[n - 1]} else {};
    }
  }

  // ------------------------------------------------------------ main results

  lemma ProductMonotone(a: real, b: real, c: real)
    requires a >= 0.0 && b <= c
    ensures a * b <= a * c
  {
  }

  lemma TargetMonotone(results: seq<RagResult>, p: real, q: real)
    requires p <= q
    ensures Target(results, p) <= Target(results, q)
  {
    hide TotalMass;
    var total := TotalMass(results);
    ProductMonotone(total, p, q);
    assert Target(results, p) == total * p && Target(results, q) == total * q;
  }

  lemma ChosenMass(results: seq<RagResult>, topP: real)
    requires Distinct(Ranking(results))
    ensures var k := NucleusSize(results, topP);
      FilesMass(results, Prefix(Ranking(results), k)) == Mass(Ranking(results), results, k)
  {
    var ranking, k := Ranking(results), NucleusSize(results, topP);
    PositiveMassIn(FileOrder(results), results, Prefix(ranking, k));
    MassOfPrefix(ranking, results, |ranking|, k);
    assert ranking[..|ranking|] == ranking;
  }

  // The total is the mass of all the files met.
  lemma TotalIsAll(results: seq<RagResult>, files: set<string>)
    requires forall p :: p in FileOrder(results) ==> p in files
    ensures FilesMass(results, files) == TotalMass(results)
  {
    var ranking := Ranking(results);
    RankingDistinct(FileOrder(results), results);
    PositiveMassIn(FileOrder(results), results, files);
    AllMass(ranking, results, files, |ranking|);
    assert ranking[..|ranking|] == ranking;
  }

  lemma {:induction false} AllMass(paths: seq<string>, results: seq<RagResult>, files: set<string>, n: nat)
    requires n <= |paths| && forall p :: p in paths ==> p in files
    ensures MassIn(paths[..n], results, files) == Mass(paths, results, n)
  {
    hide FileScore;
    if n > 0 {
      AllMass(paths, results, files, n - 1);
      assert paths[..n][..n - 1] == paths[..n - 1];
    }
  }

  // Ranked or not, the files kept carry at least topP of the total mass.
  lemma NucleusCovers(results: seq<RagResult>, topP: real)
    requires 0.0 < topP <= 1.0
    ensures FilesMass(results, Chosen(results, topP)) >= Target(results, topP)
  {
    hide FileScore, FileOrder, MassIn;
    RankingDistinct(FileOrder(results), results);
    if TotalMass(results) <= 0.0 {
      NoMass(FileOrder(results), results);
      TargetBelowTotal(results, topP);
    } else {
      ChosenMass(results, topP);
      TargetBelowTotal(results, topP);
    }
  }

  lemma TargetBelowTotal(results: seq<RagResult>, topP: real)
    requires topP <= 1.0
    ensures Target(results, topP) <= TotalMass(results)
  {
    hide TotalMass;
    var total := TotalMass(results);
    ProductBelow(total, topP);
    assert Target(results, topP) == total * topP;
  }

  lemma ProductBelow(a: real, b: real)
    requires a >= 0.0 && b <= 1.0
    ensures a * b <= a
  {
  }

  lemma {:induction false} NoMass(order: seq<string>, results: seq<RagResult>)
    ensures MassIn(order, results, {}) == 0.0
  {
    if order != [] {
      NoMass(order[..|order| - 1], results);
    }
  }

  // When the best scores of the files descend in the order the files first appear in, as on
  // ranked results, no set of fewer files carries that much.
  lemma {:induction false} NucleusIsFewest(results: seq<RagResult>, topP: real, files: set<string>)
    requires Descending(Ranking(results), results) && 0.0 < topP <= 1.0
    requires FilesMass(results, files) >= Target(results, topP)
    ensures |Chosen(results, topP)| <= |files|
  {
    hide FileScore, FileOrder, MassIn, Mass, Reach, Prefix;
    var ranking := Ranking(results);
    var n := |ranking|;
    RankingDistinct(FileOrder(results), results);
    PositiveMassIn(FileOrder(results), results, files);
    Outweighed(ranking, results, n, files);
    assert ranking[..n] == ranking;
    var common := Prefix(ranking, n) * files;
    SubsetSize(common, files);
    if TotalMass(results) > 0.0 {
      var k := NucleusSize(results, topP);
      PrefixSize(ranking, k);
      if |common| < k {
        ReachIsLeast(ranking, results, Target(results, topP), 0, |common|);
      }
    }
  }

  // ------------------------------------------------------------ and only then

  ghost predicate AlwaysFewest(results: seq<RagResult>) {
    forall topP: real, files: set<string> ::
      0.0 < topP <= 1.0 && FilesMass(results, files) >= Target(results, topP) ==> |Chosen(results, topP)| <= |files|
  }

  // The first i files and the j-th one.
  lemma {:induction false} MassWithOne(paths: seq<string>, results: seq<RagResult>, n: nat, i: nat, j: nat)
    requires n <= |paths| && i <= j < |paths| && Distinct(paths)
    ensures MassIn(paths[..n], results, Prefix(paths, i) + {paths[j]})
         == Mass(paths, results, if n < i then n else i) + if j < n then FileScore(results, paths[j]) else 0.0
  {
    hide FileScore;
    if n > 0 {
      MassWithOne(paths, results, n - 1, i, j);
      assert paths[..n][..n - 1] == paths[..n - 1];
      PrefixGrows(paths, i, i);
      if n <= i {
        PrefixGrows(paths, n, i);
      } else {
        assert paths[n - 1] !in paths[..i];
      }
    }
  }

  lemma {:induction false} PartMass(paths: seq<string>, results: seq<RagResult>, n: nat, files: set<string>)
    requires n <= |paths|
    ensures MassIn(paths[..n], results, files) <= Mass(paths, results, n)
  {
    hide FileScore;
    if n > 0 {
      PartMass(paths, results, n - 1, files);
      assert paths[..n][..n - 1] == paths[..n - 1];
    }
  }

  lemma {:induction false} MassGrows(paths: seq<string>, results: seq<RagResult>, j: nat, k: nat)
    requires j <= k <= |paths|
    ensures Mass(paths, results, j) <= Mass(paths, results, k)
  {
    if j < k {
      MassGrows(paths, results, j, k - 1);
    }
  }

  // A share of the total that asks for exactly a given mass.
  lemma ShareOf(results: seq<RagResult>, mass: real) returns (topP: real)
    requires 0.0 < mass <= TotalMass(results)
    ensures 0.0 < topP <= 1.0 && Target(results, topP) == mass
  {
    hide TotalMass;
    topP := Quotient(mass, TotalMass(results));
    TargetIs(results, topP, TotalMass(results));
  }

  lemma Quotient(part: real, whole: real) returns (q: real)
    requires 0.0 < part <= whole
    ensures 0.0 < q <= 1.0 && whole * q == part
  {
    q := part / whole;
    assert whole * q == part;
    if q <= 0.0 {
      ProductMonotone(whole, q, 0.0);
    }
    if q > 1.0 {
      ProductGrows(whole, q);
    }
  }

  lemma ProductGrows(a: real, b: real)
    requires a > 0.0 && b > 1.0
    ensures a * b > a
  {
    assert a * (b - 1.0) > 0.0;
  }

  lemma TargetIs(results: seq<RagResult>, topP: real, total: real)
    requires total == TotalMass(results)
    ensures Target(results, topP) == total * topP
  {
  }

  // A heavier file further down: it would have done better than the lighter one before it.
  lemma LighterFirst(results: seq<RagResult>, i: nat, j: nat)
    requires i < j < |Ranking(results)|
    requires FileScore(results, Ranking(results)[i]) < FileScore(results, Ranking(results)[j])
    ensures !AlwaysFewest(results)
  {
    hide FileScore, FileOrder, MassIn, Mass, Reach, Prefix, AlwaysFewest;
    var ranking := Ranking(results);
    var n, files := |ranking|, Prefix(ranking, i) + {ranking[j]};
    RankingDistinct(FileOrder(results), results);
    assert ranking[..n] == ranking;
    PositiveMassIn(FileOrder(results), results, files);
    MassWithOne(ranking, results, n, i, j);
    PartMass(ranking, results, n, files);
    MassStep(ranking, results, i);
    var mass := FilesMass(results, files);
    var topP := ShareOf(results, mass);
    var k := NucleusSize(results, topP);
    if k <= i + 1 {
      MassGrows(ranking, results, k, i + 1);
    }
    PrefixSize(ranking, k);
    PrefixSize(ranking, i);
    NotFewest(results, topP, files);
  }

  lemma MassStep(paths: seq<string>, results: seq<RagResult>, i: nat)
    requires i < |paths|
    ensures Mass(paths, results, i + 1) == Mass(paths, results, i) + FileScore(results, paths[i])
    ensures Mass(paths, results, i) >= 0.0
  {
  }

  lemma NotFewest(results: seq<RagResult>, topP: real, files: set<string>)
    requires 0.0 < topP <= 1.0 && FilesMass(results, files) >= Target(results, topP)
    requires |Chosen(results, topP)| > |files|
    ensures !AlwaysFewest(results)
  {
    hide FilesMass, Target, Chosen;
  }

  // The files kept are the fewest for every share of the mass if and only if the best scores
  // descend in the order of first appearance.
  lemma FewestExactlyWhenDescending(results: seq<RagResult>)
    ensures AlwaysFewest(results) <==> Descending(Ranking(results), results)
  {
    hide FilesMass, Target, Chosen, Ranking;
    if Descending(Ranking(results), results) {
      forall topP: real, files: set<string> | 0.0 < topP <= 1.0 && FilesMass(results, files) >= Target(results, topP)
        ensures |Chosen(results, topP)| <= |files|
      {
        NucleusIsFewest(results, topP, files);
      }
    } else {
      var i, j :| 0 <= i < j < |Ranking(results)| &&
                  FileScore(results, Ranking(results)[i]) < FileScore(results, Ranking(results)[j]);
      LighterFirst(results, i, j);
    }
  }

  // Asking for more mass never drops a file.
  lemma NucleusMonotone(results: seq<RagResult>, p: real, q: real)
    requires 0.0 < p <= q <= 1.0
    ensures Chosen(results, p) <= Chosen(results, q)
  {
    hide FileScore, FileOrder, MassIn, Mass, Reach, Prefix;
    if TotalMass(results) > 0.0 {
      var ranking := Ranking(results);
      var j, k := NucleusSize(results, p), NucleusSize(results, q);
      TargetMonotone(results, p, q);
      if k < j {
        assert Mass(ranking, results, k) >= Target(results, q);
        ReachIsLeast(ranking, results, Target(results, p), 0, k);
      } else {
        PrefixGrows(ranking, j, k);
      }
    }
  }

  // The ranking is needed: taken in the order of the results, a light file first wastes a place.
  lemma UnrankedIsNotFewest()
    ensures var results := [RagResult("a", "", 1.0), RagResult("b", "", 9.0)];
      |Chosen(results, 0.5)| == 2 && FilesMass(results, {"b"}) >= Target(results, 0.5)
  {
    var results, order := [RagResult("a", "", 1.0), RagResult("b", "", 9.0)], ["a", "b"];
    TwoFiles();
    assert order[..1] == ["a"] && order[..0] == [];
    assert Distinct(order) by { assert "a"[0] != "b"[0]; }
    hide FileScore, FileOrder, Prefix;
    assert Ranking(results) == order by {
      assert Positive(["a"], results) == ["a"];
    }
    assert Mass(order, results, 1) == 1.0 && Mass(order, results, 2) == 10.0;
    PrefixSize(order, 2);
    assert MassIn(["a"], results, {"b"}) == 0.0;
  }

  lemma TwoFiles()
    ensures var results := [RagResult("a", "", 1.0), RagResult("b", "", 9.0)];
      FileOrder(results) == ["a", "b"] && FileScore(results, "a") == 1.0 && FileScore(results, "b") == 9.0
  {
    var results := [RagResult("a", "", 1.0), RagResult("b", "", 9.0)];
    assert results[..1] == [results[0]] && results[..1][..0] == [];
    assert "a" != "b" by { assert "a"[0] != "b"[0]; }
    assert FileOrder(results[..1]) == ["a"];
    assert FileScore(results[..1], "a") == 1.0 && FileScore(results[..1], "b") == 0.0;
  }
}
