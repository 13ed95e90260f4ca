// A database table with generated identity keys, as the JPA repositories
// present it to the services: rows by id, and the id the next insertion gets.

module Tables {
  import opened Common

  class Table<T> {
    var rows: map<int, T>
    var nextId: int

    /** Every stored id was handed out before the next one. */
    ghost predicate Valid()
      reads this
    {
      1 <= nextId && forall id :: id in rows ==> 1 <= id < nextId
    }

    constructor ()
      ensures Valid() && rows == map[] && nextId == 1
    {
      rows := map[];
      nextId := 1;
    }

    /** `save` of a new entity: it is stored under a fresh id. */
    method Insert(row: T) returns (id: int)
      requires Valid()
      modifies this
      ensures Valid()
      ensures id == old(nextId) && id !in old(rows)
      ensures rows == old(rows)[id := row] && nextId == old(nextId) + 1
    {
      id := nextId;
      rows := rows[id := row];
      nextId := nextId + 1;
    }

    /** `save` of an entity loaded earlier: its row is replaced. */
    method Update(id: int, row: T)
      requires Valid() && id in rows
      modifies this
      ensures Valid()
      ensures rows == old(rows)[id := row] && nextId == old(nextId)
    {
      rows := rows[id := row];
    }

    /** `delete` / `deleteById`. */
    method Delete(id: int)
      requires Valid()
      modifies this
      ensures Valid()
      ensures rows == old(rows) - {id} && nextId == old(nextId)
    {
      rows := rows - {id};
    }

    /** Deletion of several rows, one `delete` at a time, as a cascade or a
        `deleteAll` performs it. */
    method DeleteAll(ids: set<int>)
      requires Valid()
      modifies this
      ensures Valid()
      ensures rows == old(rows) - ids && nextId == old(nextId)
    {
      var pending := ids;
      while exists id :: id in pending
        invariant Valid() && nextId == old(nextId)
        invariant pending <= ids
        invariant rows == old(rows) - (ids - pending)
        decreases |pending|
      {
        var id :| id in pending;
        Delete(id);
        pending := pending - {id};
      }
    }
  }

  /** The ids below `n` whose rows `keep` selects, in id order: what a
      derived finder returns when the model does not follow its ORDER BY. */
  function SelectedIds<T>(rows: map<int, T>, keep: T -> bool, n: nat): (ids: seq<int>)
    ensures forall i :: 0 <= i < |ids| ==> 0 <= ids[i] < n && ids[i] in rows && keep(rows[ids[i]])
    ensures forall i, j :: 0 <= i < j < |ids| ==> ids[i] < ids[j]
    ensures forall id :: 0 <= id < n && id in rows && keep(rows[id]) ==> id in ids
  {
    if n == 0 then []
    else
      var prefix := SelectedIds(rows, keep, n - 1);
      if n - 1 in rows && keep(rows[n - 1]) then prefix + [n - 1] else prefix
  }

  /** Selections that agree on every stored row pick the same ids. */
  lemma {:induction false} SelectedIdsAgree<T>(rows: map<int, T>, keep: T -> bool, keep': T -> bool, n: nat)
    requires forall id :: id in rows ==> keep(rows[id]) == keep'(rows[id])
    ensures SelectedIds(rows, keep, n) == SelectedIds(rows, keep', n)
  {
    if n > 0 {
      SelectedIdsAgree(rows, keep, keep', n - 1);
    }
  }

  /** The selected rows themselves, in id order. */
  function SelectedRows<T(==)>(rows: map<int, T>, keep: T -> bool, n: nat): (r: seq<T>)
    ensures forall i :: 0 <= i < |r| ==> r[i] in rows.Values && keep(r[i])
    ensures forall id :: 0 <= id < n && id in rows && keep(rows[id]) ==> rows[id] in r
  {
    var ids := SelectedIds(rows, keep, n);
    var r := seq(|ids|, i requires 0 <= i < |ids| => rows[ids[i]]);
    assert forall id :: 0 <= id < n && id in rows && keep(rows[id]) ==> rows[id] in r by {
      forall id | 0 <= id < n && id in rows && keep(rows[id]) ensures rows[id] in r {
        var k :| 0 <= k < |ids| && ids[k] == id;
        assert r[k] == rows[id];
      }
    }
    r
  }

  // ---------------------------------------------------------------------
  // ORDER BY ... DESC

  /** `a` sorts before or level with `b` in a descending order, a null
      counting as the lowest value. */
  predicate AtLeast(a: Option<int>, b: Option<int>)
  {
    b.None? || (a.Some? && a.value >= b.value)
  }

  predicate DescendingBy<T>(s: seq<T>, key: T -> Option<int>)
  {
    forall i, j :: 0 <= i < j < |s| ==> AtLeast(key(s[i]), key(s[j]))
  }

  /** Insert `x` before the first element it is level with or above. */
  function InsertDescending<T>(x: T, s: seq<T>, key: T -> Option<int>): (r: seq<T>)
    ensures |r| == |s| + 1
  {
    if s == [] then [x]
    else if AtLeast(key(x), key(s[0])) then [x] + s
    else [s[0]] + InsertDescending(x, s[1..], key)
  }

  /** Inserting adds exactly `x`. */
  lemma {:induction false} InsertDescendingPermutes<T>(x: T, s: seq<T>, key: T -> Option<int>)
    ensures multiset(InsertDescending(x, s, key)) == multiset(s) + multiset{x}
  {
    if s != [] && !AtLeast(key(x), key(s[0])) {
      InsertDescendingPermutes(x, s[1..], key);
      assert s == [s[0]] + s[1..];
    }
  }

  /** Inserting into a descending list keeps it descending. */
  lemma {:induction false} InsertDescendingKeepsOrder<T>(x: T, s: seq<T>, key: T -> Option<int>)
    requires DescendingBy(s, key)
    ensures DescendingBy(InsertDescending(x, s, key), key)
  {
    if s == [] {
    } else if AtLeast(key(x), key(s[0])) {
      var r := [x] + s;
      forall i, j | 0 <= i < j < |r| ensures AtLeast(key(r[i]), key(r[j])) {
        if i == 0 && j > 1 {
          assert AtLeast(key(s[0]), key(s[j - 1]));
        }
      }
    } else {
      var rest := InsertDescending(x, s[1..], key);
      InsertDescendingKeepsOrder(x, s[1..], key);
      InsertDescendingPermutes(x, s[1..], key);
      assert InsertDescending(x, s, key) == [s[0]] + rest;
      var r := [s[0]] + rest;
      forall i, j | 0 <= i < j < |r| ensures AtLeast(key(r[i]), key(r[j])) {
        if i == 0 {
          var e := rest[j - 1];
          assert e in multiset(rest);
          if e != x {
            assert e in multiset(s[1..]);
            var k :| 0 <= k < |s[1..]| && s[1..][k] == e;
            assert s[k + 1] == e;
          }
        } else {
          assert r[i] == rest[i - 1] && r[j] == rest[j - 1];
        }
      }
    }
  }

  /** `ORDER BY key DESC`, nulls last, ties in input order (an insertion
      sort). */
  function SortDescending<T>(s: seq<T>, key: T -> Option<int>): (r: seq<T>)
    ensures DescendingBy(r, key) && multiset(r) == multiset(s)
  {
    if s == [] then []
    else
      assert s == [s[0]] + s[1..];
      var rest := SortDescending(s[1..], key);
      InsertDescendingPermutes(s[0], rest, key);
      InsertDescendingKeepsOrder(s[0], rest, key);
      InsertDescending(s[0], rest, key)
  }

  /** Sorting keeps exactly the elements. */
  lemma SortedMembers<T>(s: seq<T>, key: T -> Option<int>)
    ensures forall x :: x in SortDescending(s, key) <==> x in s
  {
    var r := SortDescending(s, key);
    forall x ensures x in r <==> x in s {
      assert x in r <==> x in multiset(r);
      assert x in s <==> x in multiset(s);
    }
  }
}
