/** The abstract table behind an ORM model: records keyed by an
    auto-incremented integer id. Only the behaviour the handlers rely on
    is modelled: ids are assigned from a counter that never goes back, so
    no id is handed out twice, and update/destroy touch at most one row
    and report how many they touched. */
module Store {
  import opened Wrappers

  /** A stored record as the API serialises it: its id and its columns. */
  datatype Row<+R> = Row(id: int, fields: R)

  /** The rows of `m` whose ids lie in [1, n), in ascending id order. */
  function RowsBelow<R>(m: map<int, R>, n: int): (rs: seq<Row<R>>)
    decreases n
    ensures forall j :: 0 <= j < |rs| ==>
      1 <= rs[j].id < n && rs[j].id in m && m[rs[j].id] == rs[j].fields
    ensures forall i, j :: 0 <= i < j < |rs| ==> rs[i].id < rs[j].id
    ensures forall k :: k in m && 1 <= k < n ==> Row(k, m[k]) in rs
  {
    if n <= 1 then []
    else
      var prev := RowsBelow(m, n - 1);
      if n - 1 in m then prev + [Row(n - 1, m[n - 1])] else prev
  }

  /** An empty map has no rows to list. */
  lemma {:induction false} RowsBelowEmpty<R>(n: int)
    ensures RowsBelow<R>(map[], n) == []
  {
    if n > 1 {
      RowsBelowEmpty<R>(n - 1);
    }
  }

  /** With every id in [1, n) live, the listing holds one row per id. */
  lemma {:induction false} RowsBelowFull<R>(m: map<int, R>, n: int)
    requires forall k :: 1 <= k < n ==> k in m
    ensures |RowsBelow(m, n)| == if n <= 1 then 0 else n - 1
  {
    if n > 1 {
      RowsBelowFull(m, n - 1);
    }
  }

  class Table<R> {
    var rows: map<int, R>
    var nextId: int
    /** Every id the table has ever handed out, live or deleted. */
    ghost var issued: set<int>

    ghost predicate Valid()
      reads this
    {
      && 1 <= nextId
      && (forall k :: k in issued <==> 1 <= k < nextId)
      && rows.Keys <= issued
    }

    constructor ()
      ensures Valid()
      ensures rows == map[] && nextId == 1 && issued == {}
    {
      rows := map[];
      nextId := 1;
      issued := {};
    }

    /** `findByPk`. */
    function Find(id: int): Option<R>
      reads this
    {
      if id in rows then Some(rows[id]) else None
    }

    /** `findAll`: every live record exactly once, in ascending id order. */
    function All(): (rs: seq<Row<R>>)
      reads this
      requires Valid()
      ensures forall j :: 0 <= j < |rs| ==> rs[j].id in rows && rows[rs[j].id] == rs[j].fields
      ensures forall k :: k in rows ==> Row(k, rows[k]) in rs
      ensures forall i, j :: 0 <= i < j < |rs| ==> rs[i].id != rs[j].id
    {
      RowsBelow(rows, nextId)
    }

    /** `create`: stores the record under a fresh id, larger than every id
        handed out before, and returns that id. */
    method Insert(r: R) returns (id: int)
      requires Valid()
      modifies this
      ensures Valid()
      ensures id !in old(issued) && forall k :: k in old(issued) ==> k < id
      ensures issued == old(issued) + {id} && nextId == old(nextId) + 1
      ensures rows == old(rows)[id := r]
    {
      id := nextId;
      rows := rows[id := r];
      nextId := nextId + 1;
      issued := issued + {id};
    }

    /** `update(values, { where: { id } })`: applies `patch` to the row with
        that id, if any, and reports the number of affected rows. */
    method Update(id: int, patch: R -> R) returns (affected: nat)
      requires Valid()
      modifies this
      ensures Valid() && nextId == old(nextId) && issued == old(issued)
      ensures affected <= 1 && (affected == 1 <==> id in old(rows))
      ensures rows == if id in old(rows) then old(rows)[id := patch(old(rows)[id])] else old(rows)
    {
      if id in rows {
        rows := rows[id := patch(rows[id])];
        affected := 1;
      } else {
        affected := 0;
      }
    }

    /** `destroy({ where: { id } })`: removes the row with that id, if any,
        and reports the number of affected rows. The id stays issued. */
    method Destroy(id: int) returns (affected: nat)
      requires Valid()
      modifies this
      ensures Valid() && nextId == old(nextId) && issued == old(issued)
      ensures affected <= 1 && (affected == 1 <==> id in old(rows))
      ensures rows == old(rows) - {id}
    {
      if id in rows {
        affected := 1;
      } else {
        affected := 0;
      }
      rows := rows - {id};
    }
  }

  /** A fresh table lists nothing. */
  lemma ListEmpty<R>(t: Table<R>)
    requires t.Valid() && t.rows == map[]
    ensures t.All() == []
  {
    RowsBelowEmpty<R>(t.nextId);
  }

  /** After n creates and no deletes (every issued id still live) the
      listing holds n records, with pairwise distinct ids. */
  lemma ListAfterCreatesOnly<R>(t: Table<R>)
    requires t.Valid() && t.rows.Keys == t.issued
    ensures |t.All()| == t.nextId - 1
  {
    RowsBelowFull(t.rows, t.nextId);
  }
}
