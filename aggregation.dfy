/** Lines 68-70: `pd.concat` of the kept tables, then the sum of `length`
    per `(user_id, path)`. */
module Aggregation {
  import opened Frames
  import opened Outcomes

  /** One table under the other, rows renumbered (`ignore_index=True`). */
  function AppendRows<U>(a: Table<U>, b: Table<U>): (c: Table<U>)
    requires a.columns == b.columns
    ensures c.columns == a.columns && c.height == a.height + b.height
    ensures forall n :: n in c.data ==> c.data[n] == a.data[n] + b.data[n]
  {
    Frame(a.columns, map n | n in a.data :: a.data[n] + b.data[n], a.height + b.height)
  }

  /** The rows of two stacked tables are the rows of the first, then the
      rows of the second. */
  lemma VisitsAppend<U>(a: Table<U>, b: Table<U>)
    requires a.columns == b.columns == Required
    ensures Visits(AppendRows(a, b)) == Visits(a) + Visits(b)
  {
    var c := AppendRows(a, b);
    var vc, va, vb := Visits(c), Visits(a), Visits(b);
    forall i | 0 <= i < c.height ensures vc[i] == (va + vb)[i] {
      CellOfAppend(a.data[UserIdColumn], b.data[UserIdColumn], i);
      CellOfAppend(a.data[PathColumn], b.data[PathColumn], i);
      CellOfAppend(a.data[LengthColumn], b.data[LengthColumn], i);
    }
  }

  lemma CellOfAppend<T>(x: seq<T>, y: seq<T>, i: nat)
    requires i < |x| + |y|
    ensures (x + y)[i] == if i < |x| then x[i] else y[i - |x|]
  {
  }

  /** The visits of every table, table after table. */
  function AllVisits<U>(ts: seq<Table<U>>): (vs: seq<Visit<U>>)
    requires AllProjected(ts)
  {
    if ts == [] then [] else AllVisits(ts[..|ts| - 1]) + Visits(ts[|ts| - 1])
  }

  function TotalHeight<U>(ts: seq<Table<U>>): nat
  {
    if ts == [] then 0 else TotalHeight(ts[..|ts| - 1]) + ts[|ts| - 1].height
  }

  function ConcatNonEmpty<U>(ts: seq<Table<U>>): (t: Table<U>)
    requires ts != [] && AllProjected(ts)
    ensures t.columns == Required && t.height == TotalHeight(ts)
    ensures Visits(t) == AllVisits(ts)
  {
    if |ts| == 1 then
      assert ts[..0] == [];
      ts[0]
    else
      var front := ConcatNonEmpty(ts[..|ts| - 1]);
      VisitsAppend(front, ts[|ts| - 1]);
      AppendRows(front, ts[|ts| - 1])
  }

  /** Line 68: `pd.concat(web_traffic_list, ignore_index=True)`. An empty
      list has nothing to concatenate and raises. */
  function Concat<U>(ts: seq<Table<U>>): (r: Result<Table<U>>)
    requires AllProjected(ts)
    ensures r.Err? <==> ts == []
    ensures r.Err? ==> r.error == NoObjectsToConcatenate
    ensures r.Ok? ==> r.value.columns == Required && r.value.height == TotalHeight(ts)
    ensures r.Ok? ==> Visits(r.value) == AllVisits(ts)
  {
    if ts == [] then Err(NoObjectsToConcatenate) else Ok(ConcatNonEmpty(ts))
  }

  lemma {:induction false} AllVisitsLength<U>(ts: seq<Table<U>>)
    requires AllProjected(ts)
    ensures |AllVisits(ts)| == TotalHeight(ts)
  {
    if ts != [] {
      AllVisitsLength(ts[..|ts| - 1]);
    }
  }

  /** The group key of a visit. */
  function KeyOf<U>(v: Visit<U>): (U, string)
  {
    (v.user, v.path)
  }

  /** Reference definition: the sum of `length` over the visits carrying `k`. */
  function SumFor<U(==)>(vs: seq<Visit<U>>, k: (U, string)): int
  {
    if vs == [] then 0
    else (if KeyOf(vs[0]) == k then vs[0].length else 0) + SumFor(vs[1..], k)
  }

  /** The distinct `(user_id, path)` pairs among the visits. */
  function PairsOf<U(==)>(vs: seq<Visit<U>>): set<(U, string)>
  {
    set v | v in vs :: KeyOf(v)
  }

  lemma {:induction false} SumForAppend<U>(a: seq<Visit<U>>, b: seq<Visit<U>>, k: (U, string))
    ensures SumFor(a + b, k) == SumFor(a, k) + SumFor(b, k)
  {
    if a == [] {
      assert a + b == b;
    } else {
      assert (a + b)[1..] == a[1..] + b;
      SumForAppend(a[1..], b, k);
    }
  }

  lemma {:induction false} SumForAbsent<U>(vs: seq<Visit<U>>, k: (U, string))
    requires k !in PairsOf(vs)
    ensures SumFor(vs, k) == 0
  {
    if vs != [] {
      assert vs[0] in vs;
      assert PairsOf(vs[1..]) <= PairsOf(vs) by {
        forall v | v in vs[1..] ensures v in vs { }
      }
      SumForAbsent(vs[1..], k);
    }
  }

  /** The running totals after one more visit. */
  function AddVisit<U(==)>(totals: map<(U, string), int>, v: Visit<U>): map<(U, string), int>
  {
    var k := KeyOf(v);
    totals[k := (if k in totals then totals[k] else 0) + v.length]
  }

  /** Line 70: `groupby(['user_id','path'])['length'].sum()`. There is one
      total per distinct pair, and it is the sum of the lengths of the visits
      carrying that pair. */
  function GroupSum<U(==)>(vs: seq<Visit<U>>): (totals: map<(U, string), int>)
    ensures totals.Keys == PairsOf(vs)
    ensures forall k :: k in totals ==> totals[k] == SumFor(vs, k)
  {
    if vs == [] then map[]
    else
      var front, last := vs[..|vs| - 1], vs[|vs| - 1];
      assert vs == front + [last];
      AddVisitExtends(front, last, GroupSum(front));
      AddVisit(GroupSum(front), last)
  }

  /** Adding one visit to the totals of the visits before it gives the totals
      of all of them. */
  lemma AddVisitExtends<U>(front: seq<Visit<U>>, last: Visit<U>, before: map<(U, string), int>)
    requires before.Keys == PairsOf(front)
    requires forall k :: k in before ==> before[k] == SumFor(front, k)
    ensures AddVisit(before, last).Keys == PairsOf(front + [last])
    ensures forall k :: k in AddVisit(before, last) ==> AddVisit(before, last)[k] == SumFor(front + [last], k)
  {
    var vs := front + [last];
    assert PairsOf(vs) == PairsOf(front) + {KeyOf(last)} by {
      forall v | v in vs ensures v in front || v == last { }
    }
    forall k | k in AddVisit(before, last) ensures AddVisit(before, last)[k] == SumFor(vs, k) {
      SumForAppend(front, [last], k);
      assert SumFor([last], k) == (if KeyOf(last) == k then last.length else 0);
      if k !in before {
        SumForAbsent(front, k);
      }
    }
  }

  /** The sum over a sequence with one visit taken out, plus that visit. */
  lemma SumForWithout<U>(vs: seq<Visit<U>>, i: nat, k: (U, string))
    requires i < |vs|
    ensures SumFor(vs, k) == SumFor([vs[i]], k) + SumFor(vs[..i] + vs[i + 1..], k)
  {
    assert vs == vs[..i] + [vs[i]] + vs[i + 1..];
    SumForAppend(vs[..i] + [vs[i]], vs[i + 1..], k);
    SumForAppend(vs[..i], [vs[i]], k);
    SumForAppend(vs[..i], vs[i + 1..], k);
  }

  lemma MultisetWithout<T>(s: seq<T>, i: nat)
    requires i < |s|
    ensures multiset(s[..i] + s[i + 1..]) == multiset(s) - multiset{s[i]}
  {
    assert s == s[..i] + [s[i]] + s[i + 1..];
  }

  /** Where the first element of `s1` sits in a permutation `s2` of it, and
      what is left of both once it is taken out. */
  lemma MatchFirst<T>(s1: seq<T>, s2: seq<T>) returns (i: nat)
    requires s1 != [] && multiset(s1) == multiset(s2)
    ensures i < |s2| && s2[i] == s1[0]
    ensures multiset(s1[1..]) == multiset(s2[..i] + s2[i + 1..])
  {
    assert s1 == [s1[0]] + s1[1..];
    assert s1[0] in multiset(s2);
    i :| 0 <= i < |s2| && s2[i] == s1[0];
    MultisetWithout(s2, i);
  }

  /** The totals do not depend on the order of the visits. */
  lemma {:induction false} SumForPermutation<U>(s1: seq<Visit<U>>, s2: seq<Visit<U>>, k: (U, string))
    requires multiset(s1) == multiset(s2)
    ensures SumFor(s1, k) == SumFor(s2, k)
    decreases |s1|
  {
    if s1 == [] {
      assert |s2| == |multiset(s2)| == 0;
    } else {
      var i := MatchFirst(s1, s2);
      SumForPermutation(s1[1..], s2[..i] + s2[i + 1..], k);
      SumForWithout(s2, i, k);
    }
  }

  lemma GroupSumPermutation<U>(s1: seq<Visit<U>>, s2: seq<Visit<U>>)
    requires multiset(s1) == multiset(s2)
    ensures GroupSum(s1) == GroupSum(s2)
  {
    assert PairsOf(s1) == PairsOf(s2) by {
      forall v ensures v in s1 <==> v in s2 {
        assert v in s1 <==> v in multiset(s1);
        assert v in s2 <==> v in multiset(s2);
      }
    }
    forall k | k in GroupSum(s1) ensures GroupSum(s1)[k] == GroupSum(s2)[k] {
      SumForPermutation(s1, s2, k);
    }
  }

  /** Totals of two collections added key by key; a key missing from one
      side counts as zero there. */
  function Merge<K>(m1: map<K, int>, m2: map<K, int>): (m: map<K, int>)
    ensures m.Keys == m1.Keys + m2.Keys
  {
    map k | k in m1.Keys + m2.Keys :: (if k in m1 then m1[k] else 0) + (if k in m2 then m2[k] else 0)
  }

  lemma PairsOfAppend<U>(a: seq<Visit<U>>, b: seq<Visit<U>>)
    ensures PairsOf(a + b) == PairsOf(a) + PairsOf(b)
  {
    forall v ensures v in a + b <==> v in a || v in b { }
  }

  /** Splitting the visits between two files and adding up the per-file
      totals gives the totals of the whole. */
  lemma GroupSumSplit<U>(a: seq<Visit<U>>, b: seq<Visit<U>>)
    ensures GroupSum(a + b) == Merge(GroupSum(a), GroupSum(b))
  {
    PairsOfAppend(a, b);
    forall k | k in GroupSum(a + b) ensures GroupSum(a + b)[k] == Merge(GroupSum(a), GroupSum(b))[k] {
      SumSplitAt(a, b, k);
    }
  }

  lemma SumSplitAt<U>(a: seq<Visit<U>>, b: seq<Visit<U>>, k: (U, string))
    ensures SumFor(a + b, k) == (if k in GroupSum(a) then GroupSum(a)[k] else 0) + (if k in GroupSum(b) then GroupSum(b)[k] else 0)
  {
    SumForAppend(a, b, k);
    if k !in PairsOf(a) { SumForAbsent(a, k); }
    if k !in PairsOf(b) { SumForAbsent(b, k); }
  }

  /** A pair that occurs in one visit only keeps that visit's length. */
  lemma SingleVisitKeepsLength<U>(vs: seq<Visit<U>>, i: nat)
    requires i < |vs|
    requires forall j :: 0 <= j < |vs| && j != i ==> KeyOf(vs[j]) != KeyOf(vs[i])
    ensures KeyOf(vs[i]) in GroupSum(vs) && GroupSum(vs)[KeyOf(vs[i])] == vs[i].length
  {
    var rest := vs[..i] + vs[i + 1..];
    PairAbsentFromRest(vs, i);
    SumForAbsent(rest, KeyOf(vs[i]));
    SumForWithout(vs, i, KeyOf(vs[i]));
    assert vs[i] in vs;
  }

  lemma PairAbsentFromRest<U>(vs: seq<Visit<U>>, i: nat)
    requires i < |vs|
    requires forall j :: 0 <= j < |vs| && j != i ==> KeyOf(vs[j]) != KeyOf(vs[i])
    ensures KeyOf(vs[i]) !in PairsOf(vs[..i] + vs[i + 1..])
  {
    var rest := vs[..i] + vs[i + 1..];
    forall j | 0 <= j < |rest| ensures KeyOf(rest[j]) != KeyOf(vs[i]) {
      if j < i {
        assert rest[j] == vs[j];
      } else {
        assert rest[j] == vs[j + 1];
      }
    }
  }
}
