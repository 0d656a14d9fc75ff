/** The whole transformation, lines 42-77: from the bucket listing to the
    user x path matrix that line 78 writes out. */
module Pipeline {
  import opened Frames
  import opened Outcomes
  import opened Ingestion
  import opened Aggregation
  import opened Pivot

  /** One row per user, one column per path, the time spent in each cell. */
  type Matrix<U> = map<U, map<string, int>>

  /** What the script hands to `to_csv`, or why it writes nothing. A run
      that gets past the loop fails only when no table was kept; its matrix
      is dense: every row has a cell for the same paths. */
  function Output<U(==)>(objects: seq<SourceObject<U>>): (r: Result<Matrix<U>>)
    ensures Accepted(objects).Err? ==> r == Err(Accepted(objects).error)
    ensures Accepted(objects).Ok? ==> (r.Err? <==> Accepted(objects).value == [])
    ensures Accepted(objects).Ok? && r.Err? ==> r.error == NoObjectsToConcatenate
    ensures r.Ok? ==> forall u, v :: u in r.value && v in r.value ==> r.value[u].Keys == r.value[v].Keys
  {
    var kept := Accepted(objects);
    if kept.Err? then Err(kept.error)
    else
      var web := Concat(kept.value);
      if web.Err? then Err(web.error)
      else Ok(PivotTotals(GroupSum(Visits(web.value))))
  }

  /** The script's top level: build the list, concatenate, aggregate, pivot. */
  method Transform<U(==)>(objects: seq<SourceObject<U>>) returns (out: Result<Matrix<U>>)
    ensures out == Output(objects)
  {
    var kept := Ingest(objects);
    if kept.Err? {
      return Err(kept.error);
    }
    var web := Concat(kept.value);
    if web.Err? {
      return Err(web.error);
    }
    var totals := GroupSum(Visits(web.value));
    out := Ok(PivotTotals(totals));
  }

  /** The distinct users and the distinct paths among the visits. */
  ghost function UsersOf<U>(vs: seq<Visit<U>>): set<U>
  {
    set v | v in vs :: v.user
  }

  ghost function PathsOf<U>(vs: seq<Visit<U>>): set<string>
  {
    set v | v in vs :: v.path
  }

  /** What the report promises about the visits it was built from: a row
      for every user who visited anything, a column for every path anybody
      visited, and in each cell the total length of that user's visits to
      that path (0 when there were none). */
  ghost predicate Reports<U>(m: Matrix<U>, vs: seq<Visit<U>>)
  {
    && m.Keys == UsersOf(vs)
    && (forall u :: u in m ==> m[u].Keys == PathsOf(vs))
    && (forall u, p :: u in m && p in m[u] ==> m[u][p] == SumFor(vs, (u, p)))
  }

  lemma UsersOfTotals<U>(vs: seq<Visit<U>>)
    ensures Users(GroupSum(vs)) == UsersOf(vs)
  {
    var totals := GroupSum(vs);
    forall u | u in Users(totals) ensures u in UsersOf(vs) {
      var k :| k in totals && k.0 == u;
      var v :| v in vs && KeyOf(v) == k;
    }
    forall v | v in vs ensures v.user in Users(totals) {
      assert KeyOf(v) in PairsOf(vs);
      PairOnAxes(totals, v.user, v.path);
    }
  }

  lemma PathsOfTotals<U>(vs: seq<Visit<U>>)
    ensures Paths(GroupSum(vs)) == PathsOf(vs)
  {
    var totals := GroupSum(vs);
    forall p | p in Paths(totals) ensures p in PathsOf(vs) {
      var k :| k in totals && k.1 == p;
      var v :| v in vs && KeyOf(v) == k;
    }
    forall v | v in vs ensures v.path in Paths(totals) {
      assert KeyOf(v) in PairsOf(vs);
      PairOnAxes(totals, v.user, v.path);
    }
  }

  /** The pivot of the grouped totals is the report of the visits. */
  lemma PivotReports<U>(vs: seq<Visit<U>>)
    ensures Reports(PivotTotals(GroupSum(vs)), vs)
  {
    var totals := GroupSum(vs);
    var m := PivotTotals(totals);
    UsersOfTotals(vs);
    PathsOfTotals(vs);
    forall u, p | u in m && p in m[u] ensures m[u][p] == SumFor(vs, (u, p)) {
      if (u, p) !in totals {
        SumForAbsent(vs, (u, p));
      }
    }
  }

  /** End to end: the first CSV object that cannot be fetched or parsed ends
      the run with its error; otherwise, when no table was kept, the concatenation fails; otherwise
      the matrix reports the visits of the kept tables, in listing order. */
  lemma OutputMeaning<U>(objects: seq<SourceObject<U>>)
    ensures FirstFailure(objects).Some? ==> Output(objects) == Err(FirstFailure(objects).value)
    ensures FirstFailure(objects).None? && Kept(objects) == [] ==> Output(objects) == Err(NoObjectsToConcatenate)
    ensures FirstFailure(objects).None? && Kept(objects) != [] ==>
      Output(objects).Ok? && Reports(Output(objects).value, AllVisits(Kept(objects)))
  {
    AcceptedMeaning(objects);
    if FirstFailure(objects).None? && Kept(objects) != [] {
      PivotReports(AllVisits(Kept(objects)));
    }
  }

  /** The report depends on which visits the kept tables hold, not on the
      order they come in: tables or rows listed in another order give the
      same matrix. */
  lemma OutputIgnoresRowOrder<U>(objects1: seq<SourceObject<U>>, objects2: seq<SourceObject<U>>)
    ensures FirstFailure(objects1).None? && Kept(objects1) != [] &&
            FirstFailure(objects2).None? && Kept(objects2) != [] &&
            multiset(AllVisits(Kept(objects1))) == multiset(AllVisits(Kept(objects2)))
            ==> Output(objects1) == Output(objects2)
  {
    AcceptedMeaning(objects1);
    AcceptedMeaning(objects2);
    if FirstFailure(objects1).None? && Kept(objects1) != [] && FirstFailure(objects2).None? && Kept(objects2) != []
       && multiset(AllVisits(Kept(objects1))) == multiset(AllVisits(Kept(objects2))) {
      GroupSumPermutation(AllVisits(Kept(objects1)), AllVisits(Kept(objects2)));
    }
  }

  /** Two files, the first holding the visits (1, /a, 5) and (1, /b, 3),
      the second (1, /a, 2) and (2, /b, 7): user 1 spent 7 on /a and 3 on /b,
      user 2 nothing on /a and 7 on /b. */
  lemma TwoFileExample()
    ensures var m := PivotTotals(GroupSum(ExampleVisits()));
      && m.Keys == {1, 2}
      && m[1] == map["/a" := 7, "/b" := 3]
      && m[2] == map["/a" := 0, "/b" := 7]
  {
    PivotReports(ExampleVisits());
    ExampleReport(PivotTotals(GroupSum(ExampleVisits())));
  }

  function ExampleVisits(): seq<Visit<int>>
  {
    [Visit(1, "/a", 5), Visit(1, "/b", 3)] + [Visit(1, "/a", 2), Visit(2, "/b", 7)]
  }

  lemma ExampleReport(m: Matrix<int>)
    requires Reports(m, ExampleVisits())
    ensures m.Keys == {1, 2}
    ensures m[1] == map["/a" := 7, "/b" := 3]
    ensures m[2] == map["/a" := 0, "/b" := 7]
  {
    ExampleAxes();
    ExampleSums();
  }

  lemma ExampleAxes()
    ensures UsersOf(ExampleVisits()) == {1, 2}
    ensures PathsOf(ExampleVisits()) == {"/a", "/b"}
  {
    var vs := ExampleVisits();
    assert vs[0] in vs && vs[1] in vs && vs[3] in vs;
  }

  lemma ExampleSums()
    ensures SumFor(ExampleVisits(), (1, "/a")) == 7
    ensures SumFor(ExampleVisits(), (1, "/b")) == 3
    ensures SumFor(ExampleVisits(), (2, "/a")) == 0
    ensures SumFor(ExampleVisits(), (2, "/b")) == 7
  {
    var vs := ExampleVisits();
    assert vs[1..] == [Visit(1, "/b", 3), Visit(1, "/a", 2), Visit(2, "/b", 7)];
    assert vs[1..][1..] == [Visit(1, "/a", 2), Visit(2, "/b", 7)];
    assert vs[1..][1..][1..] == [Visit(2, "/b", 7)];
    assert vs[1..][1..][1..][1..] == [];
  }
}
