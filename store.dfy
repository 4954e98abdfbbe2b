/**
 * The `comments` table of the managed store, as the service sees it through
 * the store client. The store, not the caller, assigns `id` and `created_at`;
 * rows are only ever appended. Faults of the remote store are an input chosen
 * by the environment for each request.
 */
module Store {
  import opened Wrappers

  /** A guest-book entry as stored; `id` and `createdAt` come from the store. */
  datatype Comment = Comment(id: nat, name: string, message: string, createdAt: nat)

  /** The error object the store client returns in place of data. */
  datatype StoreError = StoreError(message: string)

  /** How the store treats the next insert. */
  datatype InsertFault =
    | InsertOk
    | InsertRejected(message: string)     // the client returns an error object (a store refusal or a failed request)
    | InsertUnreachable(message: string)  // the client call throws instead of returning

  /** How the store treats the next select. */
  datatype SelectFault =
    | SelectOk
    | SelectNoData                        // the store answers with neither data nor error
    | SelectRejected(message: string)
    | SelectUnreachable(message: string)

  /** What an insert followed by `.select().single()` gives back: one row, an error, or an exception. */
  datatype InsertReply = InsertedRow(row: Comment) | InsertFailed(error: StoreError) | InsertThrew(message: string)

  /** What a select gives back: the data (possibly null), an error, or an exception. */
  datatype SelectReply = SelectedRows(data: Option<seq<Comment>>) | SelectFailed(error: StoreError) | SelectThrew(message: string)

  /** Rows in insertion order carry non-decreasing timestamps. */
  ghost predicate CreatedAtAscending(rows: seq<Comment>) {
    forall i, j :: 0 <= i < j < |rows| ==> rows[i].createdAt <= rows[j].createdAt
  }

  /** Rows ordered by `created_at` descending. */
  ghost predicate NewestFirstOrdered(rows: seq<Comment>) {
    forall i, j :: 0 <= i < j < |rows| ==> rows[i].createdAt >= rows[j].createdAt
  }

  /** The rows in the order of `.order('created_at', { ascending: false })`: latest insert first. */
  function NewestFirst(rows: seq<Comment>): (r: seq<Comment>)
    ensures |r| == |rows|
    ensures forall k :: 0 <= k < |rows| ==> r[k] == rows[|rows| - 1 - k]
  {
    if rows == [] then [] else NewestFirst(rows[1..]) + [rows[0]]
  }

  /** Listing newest-first neither loses nor duplicates a row. */
  lemma {:induction false} NewestFirstPermutes(rows: seq<Comment>)
    ensures multiset(NewestFirst(rows)) == multiset(rows)
  {
    if rows != [] {
      NewestFirstPermutes(rows[1..]);
      assert rows == [rows[0]] + rows[1..];
    }
  }

  /** Reversing rows whose timestamps ascend gives rows ordered by `created_at` descending. */
  lemma NewestFirstSorted(rows: seq<Comment>)
    requires CreatedAtAscending(rows)
    ensures NewestFirstOrdered(NewestFirst(rows))
  {
    var r := NewestFirst(rows);
    forall i, j | 0 <= i < j < |r| ensures r[i].createdAt >= r[j].createdAt {
      assert r[i] == rows[|rows| - 1 - i] && r[j] == rows[|rows| - 1 - j];
    }
  }

  /** The remote `comments` table. */
  class CommentsTable {
    var rows: seq<Comment>  // every row ever inserted, in insertion order
    var nextId: nat         // the identifier the store assigns next
    var clock: nat          // the store's current time

    /** Identifiers are unique and increasing; timestamps never run ahead of the clock and never decrease. */
    ghost predicate Valid()
      reads this
    {
      (forall i :: 0 <= i < |rows| ==> rows[i].id < nextId && rows[i].createdAt <= clock) &&
      (forall i, j :: 0 <= i < j < |rows| ==> rows[i].id < rows[j].id) &&
      CreatedAtAscending(rows)
    }

    constructor ()
      ensures Valid() && rows == []
    {
      rows, nextId, clock := [], 0, 0;
    }

    /**
     * `insert([{ name, message }]).select().single()`. The store's clock has
     * advanced by `elapsed` since its last request; a successful insert appends
     * exactly one row, stamped by the store, and returns that row.
     */
    method Insert(name: string, message: string, elapsed: nat, fault: InsertFault) returns (reply: InsertReply)
      requires Valid()
      modifies this
      ensures Valid()
      ensures clock == old(clock) + elapsed
      ensures fault.InsertOk? ==>
        reply == InsertedRow(Comment(old(nextId), name, message, clock)) &&
        rows == old(rows) + [reply.row] && nextId == old(nextId) + 1
      ensures fault.InsertRejected? ==>
        reply == InsertFailed(StoreError(fault.message)) && rows == old(rows) && nextId == old(nextId)
      ensures fault.InsertUnreachable? ==>
        reply == InsertThrew(fault.message) && rows == old(rows) && nextId == old(nextId)
    {
      clock := clock + elapsed;
      match fault {
        case InsertOk =>
          var row := Comment(nextId, name, message, clock);
          rows := rows + [row];
          nextId := nextId + 1;
          reply := InsertedRow(row);
        case InsertRejected(m) =>
          reply := InsertFailed(StoreError(m));
        case InsertUnreachable(m) =>
          reply := InsertThrew(m);
      }
    }

    /** `select('*').order('created_at', { ascending: false })`; reads only. */
    method SelectNewestFirst(fault: SelectFault) returns (reply: SelectReply)
      requires Valid()
      ensures fault.SelectOk? ==> reply == SelectedRows(Some(NewestFirst(rows)))
      ensures fault.SelectNoData? ==> reply == SelectedRows(None)
      ensures fault.SelectRejected? ==> reply == SelectFailed(StoreError(fault.message))
      ensures fault.SelectUnreachable? ==> reply == SelectThrew(fault.message)
    {
      match fault {
        case SelectOk => reply := SelectedRows(Some(NewestFirst(rows)));
        case SelectNoData => reply := SelectedRows(None);
        case SelectRejected(m) => reply := SelectFailed(StoreError(m));
        case SelectUnreachable(m) => reply := SelectThrew(m);
      }
    }
  }
}
