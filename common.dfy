/**
 * Shared vocabulary of the accounting backend: optional values, the tRPC
 * error codes the routers throw, the caller of a procedure, the hard-coded
 * "owner or admin" guard, list pagination and sums of keyed amounts.
 */
module Common {

  datatype Option<T> = None | Some(value: T) {
    function GetOr(default: T): T {
      match this
      case Some(v) => v
      case None => default
    }
  }

  /** The tRPC error codes thrown by the routers (input-schema failures are BAD_REQUEST). */
  datatype ApiError = NotFound | Forbidden | Conflict | BadRequest

  datatype Result<T> = Ok(value: T) | Err(error: ApiError)

  /** Database ids (uuids in the source) are abstracted as naturals. */
  type Id = nat

  /**
   * The authenticated caller after the "find the user's company" prelude:
   * the user, the company it belongs to and its role string in that company.
   */
  datatype Caller = Caller(userId: Id, companyId: Id, role: string)

  /** The test every router hard-codes before a privileged mutation. */
  predicate IsOwnerOrAdmin(role: string) {
    role == "owner" || role == "admin"
  }

  /** `value || null` on an optional string: absent and empty both become null. */
  function OrNull(s: Option<string>): (r: Option<string>)
    ensures r.Some? <==> s.Some? && s.value != ""
    ensures r.Some? ==> r == s
  {
    if s.Some? && s.value != "" then s else None
  }

  /** Prisma's `update` leaves a column unchanged when the input field is undefined. */
  function Overwrite<T>(old_value: T, input: Option<T>): (r: T)
    ensures input.Some? ==> r == input.value
    ensures input.None? ==> r == old_value
  {
    if input.Some? then input.value else old_value
  }

  function Min(a: int, b: int): int {
    if a <= b then a else b
  }

  /** `findMany({ skip: offset, take: limit })` applied to the ordered query result. */
  function Page<T>(rows: seq<T>, offset: nat, limit: nat): (r: seq<T>)
    ensures offset >= |rows| ==> r == []
    ensures offset < |rows| ==> r == rows[offset..offset + Min(limit, |rows| - offset)]
    ensures |r| <= limit
  {
    if offset >= |rows| then [] else rows[offset..offset + Min(limit, |rows| - offset)]
  }

  /** The first components of a list of pairs (row ids, period keys), in order. */
  function Keys<K, V>(pairs: seq<(K, V)>): (keys: seq<K>)
    ensures |keys| == |pairs| && forall i :: 0 <= i < |pairs| ==> keys[i] == pairs[i].0
  {
    seq(|pairs|, i requires 0 <= i < |pairs| => pairs[i].0)
  }

  /** Every row of a page is a row of the listing it was cut from. */
  lemma PageWithin<T>(rows: seq<T>, offset: nat, limit: nat)
    ensures forall i :: 0 <= i < |Page(rows, offset, limit)| ==> Page(rows, offset, limit)[i] in rows
  {
    var page := Page(rows, offset, limit);
    forall i | 0 <= i < |page|
      ensures page[i] in rows
    {
      assert page[i] == rows[offset + i];
    }
  }

  /**
   * `rows.filter(keep)`, and a `findMany` whose `where` clause is `keep`: the
   * rows that pass, in their order, each as often as it occurs in `rows`.
   */
  function Filter<T(==,!new)>(rows: seq<T>, keep: T -> bool): (r: seq<T>)
    ensures |r| <= |rows|
    ensures forall x :: x in r <==> x in rows && keep(x)
    ensures forall x :: multiset(r)[x] == if keep(x) then multiset(rows)[x] else 0
  {
    if rows == [] then []
    else
      assert rows == [rows[0]] + rows[1..];
      (if keep(rows[0]) then [rows[0]] else []) + Filter(rows[1..], keep)
  }

  /** Filtering keeps order: it distributes over concatenation. */
  lemma {:induction false} FilterAppend<T(!new)>(a: seq<T>, b: seq<T>, keep: T -> bool)
    ensures Filter(a + b, keep) == Filter(a, keep) + Filter(b, keep)
  {
    if a == [] {
      assert a + b == b;
    } else {
      assert (a + b)[0] == a[0] && (a + b)[1..] == a[1..] + b;
      FilterAppend(a[1..], b, keep);
    }
  }

  /** A single row is kept exactly when it passes. */
  lemma FilterSingleton<T(!new)>(x: T, keep: T -> bool)
    ensures Filter([x], keep) == if keep(x) then [x] else []
  {
    assert [x][1..] == [];
  }

  /** When every row passes, the filter returns the rows unchanged. */
  lemma {:induction false} FilterAllPass<T(!new)>(rows: seq<T>, keep: T -> bool)
    requires forall i :: 0 <= i < |rows| ==> keep(rows[i])
    ensures Filter(rows, keep) == rows
  {
    if rows != [] {
      FilterAllPass(rows[1..], keep);
    }
  }

  /** `hasMore: offset + returned < total`, the expression of the expense, customer and account lists. */
  function HasMore(offset: nat, returned: nat, total: nat): bool {
    offset + returned < total
  }

  /** For a page cut from the full result, "more" means exactly: rows exist beyond the page. */
  lemma PageHasMore<T>(rows: seq<T>, offset: nat, limit: nat)
    ensures HasMore(offset, |Page(rows, offset, limit)|, |rows|) <==> offset + limit < |rows|
  {
  }

  // ---------------------------------------------------------------------
  // Sums of keyed amounts (report grouping and trend bucketing)
  // ---------------------------------------------------------------------

  /** Sum of all amounts. */
  function Total<K>(entries: seq<(K, real)>): real {
    if entries == [] then 0.0 else entries[0].1 + Total(entries[1..])
  }

  /** Sum of the amounts whose key is `k`. */
  function KeyedSum<K(==)>(entries: seq<(K, real)>, k: K): real {
    if entries == [] then 0.0
    else (if entries[0].0 == k then entries[0].1 else 0.0) + KeyedSum(entries[1..], k)
  }

  /** Sum, over a list of keys, of the amounts grouped under each key. */
  function SumPerKey<K(==)>(entries: seq<(K, real)>, keys: seq<K>): real {
    if keys == [] then 0.0 else KeyedSum(entries, keys[0]) + SumPerKey(entries, keys[1..])
  }

  predicate Distinct<K(==)>(keys: seq<K>) {
    forall i, j :: 0 <= i < j < |keys| ==> keys[i] != keys[j]
  }

  lemma {:induction false} TotalAppend<K>(a: seq<(K, real)>, b: seq<(K, real)>)
    ensures Total(a + b) == Total(a) + Total(b)
  {
    if a == [] {
      assert a + b == b;
    } else {
      assert (a + b)[1..] == a[1..] + b;
      TotalAppend(a[1..], b);
    }
  }

  lemma {:induction false} KeyedSumAppend<K>(a: seq<(K, real)>, b: seq<(K, real)>, k: K)
    ensures KeyedSum(a + b, k) == KeyedSum(a, k) + KeyedSum(b, k)
  {
    if a == [] {
      assert a + b == b;
    } else {
      assert (a + b)[1..] == a[1..] + b;
      KeyedSumAppend(a[1..], b, k);
    }
  }

  /** Adding one entry in front adds its amount to the group of its key, if that key is listed once. */
  lemma {:induction false} SumPerKeyCons<K>(e: (K, real), rest: seq<(K, real)>, keys: seq<K>)
    requires Distinct(keys)
    ensures SumPerKey([e] + rest, keys) == SumPerKey(rest, keys) + (if e.0 in keys then e.1 else 0.0)
  {
    if keys != [] {
      assert ([e] + rest)[1..] == rest;
      SumPerKeyCons(e, rest, keys[1..]);
      if e.0 == keys[0] {
        assert e.0 !in keys[1..];
      }
    }
  }

  /**
   * Grouping by a list of distinct keys that covers every entry loses nothing:
   * the per-key sums add up to the total.
   */
  lemma {:induction false} PartitionSum<K>(entries: seq<(K, real)>, keys: seq<K>)
    requires Distinct(keys)
    requires forall i :: 0 <= i < |entries| ==> entries[i].0 in keys
    ensures SumPerKey(entries, keys) == Total(entries)
  {
    if entries == [] {
      EmptySumPerKey(keys);
    } else {
      assert entries == [entries[0]] + entries[1..];
      SumPerKeyCons(entries[0], entries[1..], keys);
      PartitionSum(entries[1..], keys);
    }
  }

  lemma {:induction false} EmptySumPerKey<K>(keys: seq<K>)
    ensures SumPerKey([], keys) == 0.0
  {
    if keys != [] {
      EmptySumPerKey(keys[1..]);
    }
  }
}
