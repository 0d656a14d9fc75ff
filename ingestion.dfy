/** The loop over the bucket listing that builds `web_traffic_list`. */
module Ingestion {
  import opened Frames
  import opened KeyFilter
  import opened Outcomes

  /** What fetching and parsing an object yields: its table, the client
      error the object store raised, or a body `pd.read_csv` cannot read
      (empty, not UTF-8, ragged rows). */
  datatype Fetched<U> = Parsed(table: Table<U>) | FetchFailed(message: string) | ParseFailed

  /** An object of the listing: its key and what fetching it would yield.
      The fetch only happens when the key passes the filter. */
  datatype SourceObject<U> = SourceObject(key: string, fetched: Fetched<U>)

  /** What one object adds to the list: nothing, its projected table, or the
      error that ends the loop. */
  function Step<U>(o: SourceObject<U>): (r: Result<seq<Table<U>>>)
    ensures r.Err? <==> IsCsvKey(o.key) && !o.fetched.Parsed?
    ensures r.Ok? ==> |r.value| <= 1 && AllProjected(r.value)
    ensures r.Ok? && r.value != [] <==> IsCsvKey(o.key) && o.fetched.Parsed? && HasRequired(o.fetched.table)
  {
    if !IsCsvKey(o.key) then Ok([])
    else match o.fetched
      case FetchFailed(m) => Err(ClientError(m))
      case ParseFailed => Err(UnreadableCsv)
      case Parsed(t) => if HasRequired(t) then Ok([Project(t)]) else Ok([])
  }

  /** The list after the loop has gone through `objects`, or the error that
      stopped it. */
  function Accepted<U>(objects: seq<SourceObject<U>>): (r: Result<seq<Table<U>>>)
    ensures r.Ok? ==> AllProjected(r.value)
  {
    if objects == [] then Ok([])
    else Then(Accepted(objects[..|objects| - 1]), Step(objects[|objects| - 1]))
  }

  /** Lines 42-60: go through the listing in order, skip keys that do not end
      in `.csv`, stop at the first client error, and append the projection of
      every table that has the three required columns. */
  method Ingest<U>(objects: seq<SourceObject<U>>) returns (r: Result<seq<Table<U>>>)
    ensures r == Accepted(objects)
  {
    var list: seq<Table<U>> := [];
    var i := 0;
    while i < |objects|
      invariant 0 <= i <= |objects|
      invariant Accepted(objects[..i]) == Ok(list)
    {
      var o := objects[i];
      AcceptedSnoc(objects, i);
      if IsCsvKey(o.key) {
        match o.fetched
        case FetchFailed(m) =>
          AcceptedStopsAtError(objects, i + 1);
          return Err(ClientError(m));
        case ParseFailed =>
          AcceptedStopsAtError(objects, i + 1);
          return Err(UnreadableCsv);
        case Parsed(t) =>
          if HasRequired(t) {
            list := list + [Project(t)];
          } else {
            assert list + [] == list;
          }
      } else {
        assert list + [] == list;
      }
      i := i + 1;
    }
    assert objects[..i] == objects;
    r := Ok(list);
  }

  lemma AcceptedSnoc<U>(objects: seq<SourceObject<U>>, i: nat)
    requires i < |objects|
    ensures Accepted(objects[..i + 1]) == Then(Accepted(objects[..i]), Step(objects[i]))
  {
    assert objects[..i + 1][..i] == objects[..i];
  }

  /** Running the loop over two listings one after the other. */
  function Then<T>(first: Result<seq<T>>, second: Result<seq<T>>): Result<seq<T>>
  {
    if first.Err? then first else if second.Err? then second else Ok(first.value + second.value)
  }

  lemma {:induction false} AcceptedAppend<U>(a: seq<SourceObject<U>>, b: seq<SourceObject<U>>)
    ensures Accepted(a + b) == Then(Accepted(a), Accepted(b))
    decreases |b|
  {
    if b == [] {
      assert a + b == a;
      if Accepted(a).Ok? {
        assert Accepted(a).value + [] == Accepted(a).value;
      }
    } else {
      var b', last := b[..|b| - 1], b[|b| - 1];
      assert (a + b)[..|a + b| - 1] == a + b';
      assert (a + b)[|a + b| - 1] == last;
      AcceptedAppend(a, b');
      ThenAssociative(Accepted(a), Accepted(b'), Step(last));
    }
  }

  lemma ThenAssociative<T>(x: Result<seq<T>>, y: Result<seq<T>>, z: Result<seq<T>>)
    ensures Then(Then(x, y), z) == Then(x, Then(y, z))
  {
    if x.Ok? && y.Ok? && z.Ok? {
      assert x.value + y.value + z.value == x.value + (y.value + z.value);
    }
  }

  /** Once the loop has stopped, the rest of the listing is not looked at. */
  lemma AcceptedStopsAtError<U>(objects: seq<SourceObject<U>>, n: nat)
    requires n <= |objects| && Accepted(objects[..n]).Err?
    ensures Accepted(objects) == Accepted(objects[..n])
  {
    assert objects[..n] + objects[n..] == objects;
    AcceptedAppend(objects[..n], objects[n..]);
  }

  lemma AcceptedSingle<U>(o: SourceObject<U>)
    ensures Accepted([o]) == Step(o)
  {
    assert [o][..0] == [];
    if Step(o).Ok? {
      assert [] + Step(o).value == Step(o).value;
    }
  }

  /** An object that adds nothing can be removed from the listing without
      changing the outcome. */
  lemma DroppedObjectChangesNothing<U>(a: seq<SourceObject<U>>, o: SourceObject<U>, b: seq<SourceObject<U>>)
    requires Step(o) == Ok([])
    ensures Accepted(a + [o] + b) == Accepted(a + b)
  {
    AcceptedAppend(a + [o], b);
    AcceptedAppend(a, [o]);
    AcceptedAppend(a, b);
    AcceptedSingle(o);
    if Accepted(a).Ok? {
      assert Accepted(a).value + [] == Accepted(a).value;
    }
  }

  /** A key that does not end in `.csv` is never fetched, so whatever it
      holds (even a failing fetch) does not affect the outcome. */
  lemma NonCsvKeyIgnored<U>(a: seq<SourceObject<U>>, o: SourceObject<U>, b: seq<SourceObject<U>>)
    requires !IsCsvKey(o.key)
    ensures Accepted(a + [o] + b) == Accepted(a + b)
  {
    DroppedObjectChangesNothing(a, o, b);
  }

  /** A CSV table lacking one of `user_id`, `path`, `length` is skipped and
      leaves the outcome unchanged. */
  lemma IncompleteTableIgnored<U>(a: seq<SourceObject<U>>, o: SourceObject<U>, b: seq<SourceObject<U>>)
    requires IsCsvKey(o.key) && o.fetched.Parsed? && !HasRequired(o.fetched.table)
    ensures Accepted(a + [o] + b) == Accepted(a + b)
  {
    DroppedObjectChangesNothing(a, o, b);
  }

  /** Reference definitions read front to back: the error raised by the first
      CSV object that cannot be fetched or parsed, and the projections of the
      complete CSV tables. */
  function FirstFailure<U>(objects: seq<SourceObject<U>>): (e: Option<Error>)
  {
    if objects == [] then None
    else if IsCsvKey(objects[0].key) && objects[0].fetched.FetchFailed? then Some(ClientError(objects[0].fetched.message))
    else if IsCsvKey(objects[0].key) && objects[0].fetched.ParseFailed? then Some(UnreadableCsv)
    else FirstFailure(objects[1..])
  }

  function Kept<U>(objects: seq<SourceObject<U>>): (ts: seq<Table<U>>)
    ensures AllProjected(ts)
  {
    if objects == [] then []
    else
      var o := objects[0];
      (if IsCsvKey(o.key) && o.fetched.Parsed? && HasRequired(o.fetched.table)
       then [Project(o.fetched.table)] else [])
      + Kept(objects[1..])
  }

  /** The loop keeps, in listing order, exactly the projections of the CSV
      tables that have the required columns, unless a client error or an
      unreadable CSV body comes first. */
  lemma {:induction false} AcceptedMeaning<U>(objects: seq<SourceObject<U>>)
    ensures Accepted(objects) == match FirstFailure(objects)
      case Some(e) => Err(e)
      case None => Ok(Kept(objects))
  {
    if objects != [] {
      var o, rest := objects[0], objects[1..];
      assert objects == [o] + rest;
      AcceptedAppend([o], rest);
      AcceptedSingle(o);
      AcceptedMeaning(rest);
    }
  }
}
