/**
 * Generic facts about in-memory database tables: a table is a map from a
 * row's integer primary key to the row.
 */
module Tables {

  /**
   * The primary keys below `bound` whose rows satisfy the filter `p`,
   * in ascending key order: the rows a `SELECT ... WHERE p ORDER BY id`
   * would return when every key is below `bound`.
   */
  function KeysBelow<T>(m: map<nat, T>, p: T -> bool, bound: nat): (ks: seq<nat>)
    ensures forall i :: 0 <= i < |ks| ==> ks[i] < bound && ks[i] in m && p(m[ks[i]])
    ensures forall i, j :: 0 <= i < j < |ks| ==> ks[i] < ks[j]
    decreases bound
  {
    if bound == 0 then []
    else
      var earlier := KeysBelow(m, p, bound - 1);
      if bound - 1 in m && p(m[bound - 1]) then earlier + [bound - 1] else earlier
  }

  /** The scan misses no matching key. */
  lemma {:induction false} KeysBelowComplete<T>(m: map<nat, T>, p: T -> bool, bound: nat, k: nat)
    requires k in m && k < bound && p(m[k])
    ensures k in KeysBelow(m, p, bound)
    decreases bound
  {
    if k < bound - 1 {
      KeysBelowComplete(m, p, bound - 1, k);
    }
  }

  /** The set of elements of a sequence. */
  ghost function Elements<T>(ks: seq<T>): set<T>
  {
    set k | k in ks
  }

  /** A sequence without repeats has as many distinct elements as entries. */
  lemma {:induction false} DistinctCount<T>(ks: seq<T>)
    requires forall i, j :: 0 <= i < j < |ks| ==> ks[i] != ks[j]
    ensures |Elements(ks)| == |ks|
  {
    if ks != [] {
      var rest := ks[1..];
      DistinctCount(rest);
      assert ks[0] !in rest;
      assert Elements(ks) == Elements(rest) + {ks[0]};
    }
  }

  /** No two rows of `m` agree on the column `key`: a UNIQUE constraint. */
  ghost predicate Unique<T>(m: map<nat, T>, key: T -> string)
  {
    forall i, j {:trigger key(m[i]), key(m[j])} :: i in m && j in m && key(m[i]) == key(m[j]) ==> i == j
  }

  /** Some row of `m` already holds `v` in the column `key`. */
  predicate Taken<T>(m: map<nat, T>, key: T -> string, v: string)
  {
    exists i :: i in m && key(m[i]) == v
  }

  /** Some row of `m` other than the row `self` already holds `v` in the column `key`. */
  predicate TakenByOther<T>(m: map<nat, T>, key: T -> string, v: string, self: nat)
  {
    exists i :: i in m && i != self && key(m[i]) == v
  }

  /** Every key of `m` is a positive id below the table's next id, which is positive. */
  ghost predicate KeysInRange<T>(m: map<nat, T>, next: nat)
  {
    1 <= next && forall k :: k in m ==> 1 <= k < next
  }

  /** A scan up to a bound above every key finds exactly the matching rows. */
  lemma KeysBelowExactly<T>(m: map<nat, T>, p: T -> bool, bound: nat)
    requires forall k :: k in m ==> k < bound
    ensures forall k :: k in KeysBelow(m, p, bound) <==> k in m && p(m[k])
  {
    forall k | k in m && p(m[k])
      ensures k in KeysBelow(m, p, bound)
    {
      KeysBelowComplete(m, p, bound, k);
    }
  }

  /** Adding a row under a fresh key keeps a column unique when its value is not taken. */
  lemma UniqueAfterInsert<T>(m: map<nat, T>, key: T -> string, k: nat, x: T)
    requires Unique(m, key) && k !in m && !Taken(m, key, key(x))
    ensures Unique(m[k := x], key)
  {
  }

  /** Replacing a row keeps a column unique when no other row holds the new value. */
  lemma UniqueAfterUpdate<T>(m: map<nat, T>, key: T -> string, k: nat, x: T)
    requires Unique(m, key) && !TakenByOther(m, key, key(x), k)
    ensures Unique(m[k := x], key)
  {
  }

  /** Replacing a row by one with the same value in the column keeps that column unique. */
  lemma UniqueAfterSameKeyUpdate<T>(m: map<nat, T>, key: T -> string, k: nat, x: T)
    requires Unique(m, key) && k in m && key(x) == key(m[k])
    ensures Unique(m[k := x], key)
  {
  }

  /** Removing a row keeps a column unique. */
  lemma UniqueAfterRemove<T>(m: map<nat, T>, key: T -> string, k: nat)
    requires Unique(m, key)
    ensures Unique(m - {k}, key)
  {
  }

  /** Storing a row under the next id and advancing the counter keeps ids in range. */
  lemma KeysInRangeAfterInsert<T>(m: map<nat, T>, next: nat, x: T)
    requires KeysInRange(m, next)
    ensures KeysInRange(m[next := x], next + 1)
  {
  }
}
