/** The durable event log: an ordered table with a unique idempotency key per row. */
module EventLogs {
  import opened Prelude

  /** One row; rows are in sequence order. */
  datatype Row<K, E> = Row(key: K, event: E)

  datatype Conflict = IdempotencyConflict

  predicate HasKey<K(==), E>(rows: seq<Row<K, E>>, key: K) {
    exists i :: 0 <= i < |rows| && rows[i].key == key
  }

  function Lookup<K(==), E>(rows: seq<Row<K, E>>, key: K): (event: E)
    requires HasKey(rows, key)
    ensures exists i :: 0 <= i < |rows| && rows[i] == Row(key, event)
  {
    if rows[0].key == key then rows[0].event
    else
      assert forall i :: 0 < i < |rows| ==> rows[i] == rows[1..][i - 1];
      Lookup(rows[1..], key)
  }

  /** The table after `INSERT OR IGNORE`. */
  function Inserted<K(==), E>(rows: seq<Row<K, E>>, row: Row<K, E>): seq<Row<K, E>> {
    if HasKey(rows, row.key) then rows else rows + [row]
  }

  /** What an append answers: the stored row, or a conflict when the key identifies something else. */
  function Answer<K(==), E(==)>(rows: seq<Row<K, E>>, row: Row<K, E>): Result<Row<K, E>, Conflict> {
    if HasKey(rows, row.key) && Lookup(rows, row.key) != row.event then Err(IdempotencyConflict) else Ok(row)
  }

  function InsertAll<K(==), E>(rows: seq<Row<K, E>>, appends: seq<Row<K, E>>): seq<Row<K, E>>
    decreases appends
  {
    if appends == [] then rows
    else Inserted(InsertAll(rows, appends[..|appends| - 1]), appends[|appends| - 1])
  }

  /** The rows whose key no earlier row has. */
  function FirstOccurrences<K(==), E>(rows: seq<Row<K, E>>): seq<Row<K, E>> {
    if rows == [] then []
    else
      var init, last := rows[..|rows| - 1], rows[|rows| - 1];
      FirstOccurrences(init) + if HasKey(init, last.key) then [] else [last]
  }

  function Fold<K, E, S>(rows: seq<Row<K, E>>, initial: S, reducer: (S, Row<K, E>) -> S): S {
    if rows == [] then initial
    else reducer(Fold(rows[..|rows| - 1], initial, reducer), rows[|rows| - 1])
  }

  ghost predicate UniqueKeys<K, E>(rows: seq<Row<K, E>>) {
    forall i, j :: 0 <= i < j < |rows| ==> rows[i].key != rows[j].key
  }

  class SqliteEventLog<K(==), E(==)> {
    var rows: seq<Row<K, E>>

    ghost predicate Valid()
      reads this
    {
      UniqueKeys(rows)
    }

    constructor ()
      ensures Valid() && rows == []
    {
      rows := [];
    }

    method Append(key: K, event: E) returns (answer: Result<Row<K, E>, Conflict>)
      requires Valid()
      modifies this
      ensures Valid() && rows == Inserted(old(rows), Row(key, event))
      ensures answer == Answer(old(rows), Row(key, event))
    {
      if !HasKey(rows, key) {
        rows := rows + [Row(key, event)];
        assert rows[|rows| - 1].key == key;
      }
      var stored := Lookup(rows, key);
      if stored != event {
        return Err(IdempotencyConflict);
      }
      answer := Ok(Row(key, stored));
    }

    method Reduce<S>(initial: S, reducer: (S, Row<K, E>) -> S) returns (state: S)
      ensures state == Fold(rows, initial, reducer)
    {
      state := initial;
      for i := 0 to |rows|
        invariant state == Fold(rows[..i], initial, reducer)
      {
        assert rows[..i + 1][..i] == rows[..i];
        state := reducer(state, rows[i]);
      }
      assert rows[..|rows|] == rows;
    }
  }

  lemma KeysAfterInsert<K, E>(rows: seq<Row<K, E>>, row: Row<K, E>)
    ensures forall key :: HasKey(Inserted(rows, row), key) <==> HasKey(rows, key) || key == row.key
  {
    var more := Inserted(rows, row);
    forall key ensures HasKey(more, key) <==> HasKey(rows, key) || key == row.key {
      if HasKey(rows, key) {
        var i :| 0 <= i < |rows| && rows[i].key == key;
        assert more[i].key == key;
      }
      if !HasKey(rows, row.key) {
        assert more[|rows|].key == row.key;
      }
    }
  }

  lemma {:induction false} KeysStayUnique<K, E>(rows: seq<Row<K, E>>, appends: seq<Row<K, E>>)
    requires UniqueKeys(rows)
    ensures UniqueKeys(InsertAll(rows, appends))
    decreases appends
  {
    if appends != [] {
      KeysStayUnique(rows, appends[..|appends| - 1]);
    }
  }

  /** Rows are never altered or reordered: the table only grows at its end. */
  lemma {:induction false} LogOnlyGrows<K, E>(rows: seq<Row<K, E>>, appends: seq<Row<K, E>>)
    ensures rows <= InsertAll(rows, appends)
    ensures forall a :: a in appends ==> HasKey(InsertAll(rows, appends), a.key)
    decreases appends
  {
    if appends != [] {
      var init, last := appends[..|appends| - 1], appends[|appends| - 1];
      LogOnlyGrows(rows, init);
      var before, after := InsertAll(rows, init), InsertAll(rows, appends);
      forall a | a in appends ensures HasKey(after, a.key) {
        if a in init {
          var i :| 0 <= i < |before| && before[i].key == a.key;
          assert after[i].key == a.key;
        } else if !HasKey(before, a.key) {
          assert after[|before|].key == a.key;
        }
      }
    }
  }

  lemma {:induction false} LookupIgnoresLater<K, E>(rows: seq<Row<K, E>>, other: Row<K, E>, key: K)
    requires HasKey(rows, key)
    ensures HasKey(rows + [other], key) && Lookup(rows + [other], key) == Lookup(rows, key)
  {
    var i :| 0 <= i < |rows| && rows[i].key == key;
    assert (rows + [other])[i].key == key;
    if rows[0].key != key {
      assert rows[1..][i - 1].key == key;
      assert (rows + [other])[1..] == rows[1..] + [other];
      LookupIgnoresLater(rows[1..], other, key);
    }
  }

  /** What an append is answered does not depend on rows under other keys. */
  lemma AnswerIgnoresOthers<K, E>(rows: seq<Row<K, E>>, other: Row<K, E>, row: Row<K, E>)
    requires other.key != row.key
    ensures Answer(Inserted(rows, other), row) == Answer(rows, row)
    ensures HasKey(Inserted(rows, other), row.key) <==> HasKey(rows, row.key)
  {
    KeysAfterInsert(rows, other);
    if HasKey(rows, row.key) {
      LookupIgnoresLater(rows, other, row.key);
    }
  }

  /** A rejected append leaves the table alone, and only a reuse for other content is rejected. */
  lemma ConflictChangesNothing<K, E>(rows: seq<Row<K, E>>, row: Row<K, E>)
    requires UniqueKeys(rows)
    ensures Answer(rows, row).Err? <==> exists i :: 0 <= i < |rows| && rows[i].key == row.key && rows[i].event != row.event
    ensures Answer(rows, row).Err? ==> Inserted(rows, row) == rows
    ensures Answer(rows, row).Ok? ==> row in Inserted(rows, row)
  {
  }

  /** Replaying appends whose keys are recorded changes nothing, in whatever order and however often. */
  lemma {:induction false} ReplayIsNoOp<K, E>(rows: seq<Row<K, E>>, replayed: seq<Row<K, E>>)
    requires forall a :: a in replayed ==> HasKey(rows, a.key)
    ensures InsertAll(rows, replayed) == rows
    decreases replayed
  {
    if replayed != [] {
      ReplayIsNoOp(rows, replayed[..|replayed| - 1]);
    }
  }

  /** The table holds exactly the first append of each key, in order of first appearance. */
  lemma {:induction false} LogIsFirstOccurrences<K, E>(appends: seq<Row<K, E>>)
    ensures InsertAll([], appends) == FirstOccurrences(appends)
    ensures forall key :: HasKey(appends, key) <==> HasKey(FirstOccurrences(appends), key)
  {
    if appends != [] {
      var init, last := appends[..|appends| - 1], appends[|appends| - 1];
      LogIsFirstOccurrences(init);
      var short, long := FirstOccurrences(init), FirstOccurrences(appends);
      forall key ensures HasKey(appends, key) <==> HasKey(long, key) {
        assert HasKey(appends, key) <==> HasKey(init, key) || last.key == key by {
          assert forall i :: 0 <= i < |init| ==> appends[i] == init[i];
        }
        assert HasKey(long, key) <==> HasKey(short, key) || (!HasKey(init, last.key) && last.key == key) by {
          assert forall i :: 0 <= i < |short| ==> long[i] == short[i];
          assert !HasKey(init, last.key) ==> long[|short|] == last;
        }
      }
    }
  }

  /** So a projection reduced from the log is the fold over first occurrences, whatever was repeated. */
  lemma ProjectionIgnoresRepeats<K, E, S>(appends: seq<Row<K, E>>, replayed: seq<Row<K, E>>, initial: S,
                                          reducer: (S, Row<K, E>) -> S)
    requires forall a :: a in replayed ==> a in appends
    ensures Fold(InsertAll(InsertAll([], appends), replayed), initial, reducer)
            == Fold(FirstOccurrences(appends), initial, reducer)
  {
    LogOnlyGrows([], appends);
    ReplayIsNoOp(InsertAll([], appends), replayed);
    LogIsFirstOccurrences(appends);
  }
}
