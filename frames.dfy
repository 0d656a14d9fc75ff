/** The tables the script works on: what `pd.read_csv` hands over for one
    object, cut down to the three fields the report is built from. */
module Frames {

  /** The three columns a traffic file must have, in the order the script
      selects them. */
  const UserIdColumn: string := "user_id"
  const PathColumn: string := "path"
  const LengthColumn: string := "length"
  const Required: seq<string> := [UserIdColumn, PathColumn, LengthColumn]

  /** One cell of a parsed table. User ids are opaque values of type `U`. */
  datatype Cell<U> = UserCell(user: U) | TextCell(text: string) | IntCell(n: int)

  /** A data frame stored column by column: the column names in file order,
      the values of each column from top to bottom, and the number of rows. */
  datatype Frame<U> = Frame(columns: seq<string>, data: map<string, seq<Cell<U>>>, height: nat)

  ghost predicate DistinctNames(names: seq<string>)
  {
    forall i, j :: 0 <= i < j < |names| ==> names[i] != names[j]
  }

  /** Every value of a column has the kind the parser gives that column. */
  ghost predicate ColumnOf<U>(c: string, column: seq<Cell<U>>)
  {
    && (c == UserIdColumn ==> forall x :: x in column ==> x.UserCell?)
    && (c == PathColumn ==> forall x :: x in column ==> x.TextCell?)
    && (c == LengthColumn ==> forall x :: x in column ==> x.IntCell?)
  }

  /** A frame as the parser produces it: distinct column names (duplicates
      are renamed on read), one column of `height` values per name, and user
      ids, text paths and integer lengths in the three named columns. */
  ghost predicate Valid<U>(f: Frame<U>)
  {
    && DistinctNames(f.columns)
    && f.data.Keys == set c | c in f.columns
    && forall c :: c in f.data ==> |f.data[c]| == f.height && ColumnOf(c, f.data[c])
  }

  type Table<U> = f: Frame<U> | Valid(f) witness Frame([], map[], 0)

  /** One row of the unified dataset: a user spent `length` on `path`. */
  datatype Visit<U> = Visit(user: U, path: string, length: int)

  /** The test on line 56: the three required names are among the columns,
      that is, the set of required names is a subset of the column names. */
  predicate HasRequired<U>(t: Frame<U>)
    ensures HasRequired(t) <==> (set c | c in Required) <= (set c | c in t.columns)
  {
    RequiredSubset(t.columns);
    UserIdColumn in t.columns && PathColumn in t.columns && LengthColumn in t.columns
  }

  lemma RequiredSubset(columns: seq<string>)
    ensures (UserIdColumn in columns && PathColumn in columns && LengthColumn in columns)
      <==> (set c | c in Required) <= (set c | c in columns)
  {
    var required, present := set c | c in Required, set c | c in columns;
    if UserIdColumn in columns && PathColumn in columns && LengthColumn in columns {
      forall c | c in required ensures c in present {
        assert c == UserIdColumn || c == PathColumn || c == LengthColumn;
      }
    }
    if required <= present {
      assert UserIdColumn in required && PathColumn in required && LengthColumn in required;
    }
  }

  /** `t[['user_id','path','length']]`: the required columns, in that order,
      and nothing else; the rows are untouched. */
  function Project<U>(t: Table<U>): (p: Table<U>)
    requires HasRequired(t)
    ensures p.columns == Required && p.height == t.height
    ensures forall c :: c in p.data <==> c in Required
    ensures forall c :: c in Required ==> p.data[c] == t.data[c]
  {
    Frame(Required, map c | c in Required :: t.data[c], t.height)
  }

  /** Every table of the list has the projected columns. */
  ghost predicate AllProjected<U>(ts: seq<Table<U>>)
  {
    forall i :: 0 <= i < |ts| ==> ts[i].columns == Required
  }

  /** The rows of a table that has the required columns, read as visits. */
  function Visits<U>(t: Table<U>): (vs: seq<Visit<U>>)
    requires HasRequired(t)
    ensures |vs| == t.height
    ensures forall i :: 0 <= i < |vs| ==>
      && t.data[UserIdColumn][i] == UserCell(vs[i].user)
      && t.data[PathColumn][i] == TextCell(vs[i].path)
      && t.data[LengthColumn][i] == IntCell(vs[i].length)
  {
    CellKinds(t);
    seq(t.height, i requires 0 <= i < t.height =>
      Visit(t.data[UserIdColumn][i].user, t.data[PathColumn][i].text, t.data[LengthColumn][i].n))
  }

  lemma CellKinds<U>(t: Table<U>)
    requires HasRequired(t)
    ensures forall i :: 0 <= i < t.height ==>
      && t.data[UserIdColumn][i].UserCell?
      && t.data[PathColumn][i].TextCell?
      && t.data[LengthColumn][i].IntCell?
  {
    forall i | 0 <= i < t.height
      ensures t.data[UserIdColumn][i].UserCell? && t.data[PathColumn][i].TextCell? && t.data[LengthColumn][i].IntCell?
    {
      assert t.data[UserIdColumn][i] in t.data[UserIdColumn];
      assert t.data[PathColumn][i] in t.data[PathColumn];
      assert t.data[LengthColumn][i] in t.data[LengthColumn];
    }
  }

  /** Projection changes which columns a table has, never what its rows say. */
  lemma ProjectKeepsVisits<U>(t: Table<U>)
    requires HasRequired(t)
    ensures Visits(Project(t)) == Visits(t)
  {
  }
}
