/** Lines 72-77: the totals reshaped into one row per user and one column
    per path, absent combinations filled with 0. */
module Pivot {
  import opened Outcomes

  /** The distinct users and the distinct paths among the totals. */
  function Users<U(==)>(totals: map<(U, string), int>): set<U>
  {
    set k | k in totals :: k.0
  }

  function Paths<U(==)>(totals: map<(U, string), int>): set<string>
  {
    set k | k in totals :: k.1
  }

  lemma PairOnAxes<U>(totals: map<(U, string), int>, u: U, p: string)
    requires (u, p) in totals
    ensures u in Users(totals) && p in Paths(totals)
  {
    var k := (u, p);
    assert k.0 == u && k.1 == p;
  }

  /** The row of user `u`: one cell per path, missing where `u` has no
      total for it. */
  function RowOf<U(==)>(totals: map<(U, string), int>, u: U, paths: set<string>): (row: map<string, Option<int>>)
    ensures row.Keys == paths
    ensures forall p :: p in row ==> (row[p].Some? <==> (u, p) in totals)
    ensures forall p :: p in row && (u, p) in totals ==> row[p].value == totals[(u, p)]
  {
    map p | p in paths :: if (u, p) in totals then Some(totals[(u, p)]) else None
  }

  /** Line 75: `pivot(index='user_id', columns='path', values='length')`.
      A combination that has no total gets the missing marker `None`. */
  function Reshape<U(==)>(totals: map<(U, string), int>): (m: map<U, map<string, Option<int>>>)
    ensures m.Keys == Users(totals)
    ensures forall u :: u in m ==> m[u].Keys == Paths(totals)
    ensures forall u, p :: u in m && p in m[u] ==> (m[u][p].Some? <==> (u, p) in totals)
    ensures forall u, p :: u in m && p in m[u] && (u, p) in totals ==> m[u][p].value == totals[(u, p)]
  {
    var paths := Paths(totals);
    map u | u in Users(totals) :: RowOf(totals, u, paths)
  }

  /** Line 76: `fillna(0)`; line 77 keeps the filled cells as integers. */
  function FillMissing<U>(m: map<U, map<string, Option<int>>>, fill: int): (filled: map<U, map<string, int>>)
    ensures filled.Keys == m.Keys
    ensures forall u :: u in filled ==> filled[u].Keys == m[u].Keys
    ensures forall u, p :: u in filled && p in filled[u] ==>
      filled[u][p] == if m[u][p].Some? then m[u][p].value else fill
  {
    map u | u in m :: map p | p in m[u] :: if m[u][p].Some? then m[u][p].value else fill
  }

  /** The dense user x path matrix: every user has a cell for every path,
      holding the total of that pair, or 0 where the pair never occurred. */
  function PivotTotals<U(==)>(totals: map<(U, string), int>): (m: map<U, map<string, int>>)
    ensures m.Keys == Users(totals)
    ensures forall u :: u in m ==> m[u].Keys == Paths(totals)
    ensures forall u, p :: u in m && p in m[u] ==> m[u][p] == if (u, p) in totals then totals[(u, p)] else 0
  {
    FillMissing(Reshape(totals), 0)
  }

  /** `stack()`: the cells that are not missing, as totals again. */
  function Stack<U(==)>(m: map<U, map<string, Option<int>>>): map<(U, string), int>
  {
    map u, p | u in m && p in m[u] && m[u][p].Some? :: (u, p) := m[u][p].value
  }

  /** Reshaping loses nothing and invents nothing: the cells that are not
      missing are exactly the totals. */
  lemma StackReshape<U>(totals: map<(U, string), int>)
    ensures Stack(Reshape(totals)) == totals
  {
    TotalsInStack(totals);
    StackInTotals(totals);
    MapsAgree(Stack(Reshape(totals)), totals);
  }

  lemma TotalsInStack<U>(totals: map<(U, string), int>)
    ensures forall k :: k in totals ==> k in Stack(Reshape(totals)) && Stack(Reshape(totals))[k] == totals[k]
  {
    var m: map<U, map<string, Option<int>>> := Reshape(totals);
    var st := Stack(m);
    forall k: (U, string) | k in totals ensures k in st && st[k] == totals[k] {
      PairOnAxes(totals, k.0, k.1);
      var u, p := k.0, k.1;
      assert (u, p) in st;
    }
  }

  lemma StackInTotals<U>(totals: map<(U, string), int>)
    ensures forall k :: k in Stack(Reshape(totals)) ==> k in totals
  {
    var m: map<U, map<string, Option<int>>> := Reshape(totals);
    var st := Stack(m);
    forall k: (U, string) | k in st ensures k in totals {
      var u, p := k.0, k.1;
      assert u in m && p in m[u] && m[u][p].Some?;
    }
  }

  lemma MapsAgree<K, V>(a: map<K, V>, b: map<K, V>)
    requires a.Keys == b.Keys
    requires forall k :: k in a ==> a[k] == b[k]
    ensures a == b
  {
  }
}
