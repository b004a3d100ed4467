/** The generic dashboard table (`CRUDTable`): the search filter over the
    rows and the two-step delete held in the `deleteItem` slot. A row is
    seen through `fields`, the `String(value)` of each of its property
    values in order. */
module CrudTable {
  import opened Collections
  import opened Text

  /** Some field of the row, lower-cased, contains the lower-cased term. */
  predicate MatchesSearch<T>(fields: T -> seq<string>, term: string, row: T)
  {
    exists k :: 0 <= k < |fields(row)| && Contains(Lower(fields(row)[k]), Lower(term))
  }

  function SearchPredicate<T>(fields: T -> seq<string>, term: string): T -> bool
  {
    (row: T) => MatchesSearch(fields, term, row)
  }

  /** `filteredData`. */
  function SearchFiltered<T>(data: seq<T>, fields: T -> seq<string>, searchable: bool, term: string): seq<T>
  {
    if searchable then Filter(SearchPredicate(fields, term), data) else data
  }

  /** Without search the rows pass unchanged. */
  lemma NotSearchableKeepsAll<T>(data: seq<T>, fields: T -> seq<string>, term: string)
    ensures SearchFiltered(data, fields, false, term) == data
  {
  }

  /** With search on, a row is kept exactly when it matches, as often as it
      occurs, and the kept rows are an order-preserving subsequence. */
  lemma SearchKeepsExactlyMatches<T>(data: seq<T>, fields: T -> seq<string>, term: string)
    ensures forall i :: 0 <= i < |SearchFiltered(data, fields, true, term)| ==>
      MatchesSearch(fields, term, SearchFiltered(data, fields, true, term)[i])
    ensures forall i :: 0 <= i < |data| && MatchesSearch(fields, term, data[i]) ==>
      data[i] in SearchFiltered(data, fields, true, term)
    ensures forall x :: multiset(SearchFiltered(data, fields, true, term))[x] ==
              if MatchesSearch(fields, term, x) then multiset(data)[x] else 0
    ensures forall searchable :: IsSubsequence(SearchFiltered(data, fields, searchable, term), data)
  {
    FilterMembers(SearchPredicate(fields, term), data);
    FilterMultiset(SearchPredicate(fields, term), data);
    FilterIsSubsequence(SearchPredicate(fields, term), data);
    SubsequenceOfSelf(data);
  }

  /** The empty term keeps every row that has at least one property (every
      row has an `id`). */
  lemma EmptyTermKeepsAll<T>(data: seq<T>, fields: T -> seq<string>, searchable: bool)
    requires forall i :: 0 <= i < |data| ==> fields(data[i]) != []
    ensures SearchFiltered(data, fields, searchable, "") == data
  {
    forall i | 0 <= i < |data|
      ensures MatchesSearch(fields, "", data[i])
    {
      ContainsEmpty(Lower(fields(data[i])[0]));
    }
    FilterKeepsAll(SearchPredicate(fields, ""), data);
  }

  /** The search ignores the case of the term. */
  lemma SearchIgnoresTermCase<T>(data: seq<T>, fields: T -> seq<string>, searchable: bool, term: string)
    ensures SearchFiltered(data, fields, searchable, Lower(term)) == SearchFiltered(data, fields, searchable, term)
  {
    LowerIdempotent(term);
    if searchable {
      FilterAgreeing(SearchPredicate(fields, Lower(term)), SearchPredicate(fields, term), data);
    }
  }

  /** A row one of whose fields equals the term, up to case, is kept. */
  lemma ExactFieldIsFound<T>(data: seq<T>, fields: T -> seq<string>, term: string, i: nat, k: nat)
    requires i < |data| && k < |fields(data[i])| && Lower(fields(data[i])[k]) == Lower(term)
    ensures data[i] in SearchFiltered(data, fields, true, term)
  {
    ContainsSelf(Lower(term));
    SearchKeepsExactlyMatches(data, fields, term);
  }

  /** What the table renders: a spinner while loading, otherwise the rows
      and, when there are none, a notice that depends on the term. Every row
      has an Edit and a Delete control and the header an Add control: no
      permission reaches the table. */
  datatype EmptyNotice = NoItemsMatch | NoItemsFound
  datatype TableView<T> = Spinner | Table(rows: seq<T>, notice: Option<EmptyNotice>)

  function RenderTable<T>(data: seq<T>, fields: T -> seq<string>, searchable: bool, term: string, loading: bool): (v: TableView<T>)
    ensures loading <==> v.Spinner?
    ensures v.Table? ==> v.rows == SearchFiltered(data, fields, searchable, term)
    ensures v.Table? ==> (v.notice.Some? <==> v.rows == [])
    ensures v.Table? && v.notice.Some? ==> (v.notice == Some(NoItemsMatch) <==> term != "")
  {
    if loading then Spinner
    else
      var rows := SearchFiltered(data, fields, searchable, term);
      Table(rows, if rows != [] then None else if term != "" then Some(NoItemsMatch) else Some(NoItemsFound))
  }

  /** The `deleteItem` slot behind the confirm dialog. */
  class DeleteConfirmation<T> {
    var pending: Option<T>

    constructor ()
      ensures pending == None && !IsOpen()
    {
      pending := None;
    }

    /** `isOpen={!!deleteItem}`: rows are objects, so any pending row opens it. */
    function IsOpen(): (b: bool)
      reads this
      ensures b <==> pending.Some?
    {
      pending.Some?
    }

    /** `handleDelete(item)`: records the row, deletes nothing. */
    method HandleDelete(row: T)
      modifies this
      ensures pending == Some(row) && IsOpen()
    {
      pending := Some(row);
    }

    /** `confirmDelete`: the row passed to `onDelete`, if one was pending;
        the slot is empty afterwards. */
    method ConfirmDelete() returns (deleted: Option<T>)
      modifies this
      ensures deleted == old(pending)
      ensures pending == None && !IsOpen()
    {
      deleted := None;
      if pending.Some? {
        deleted := pending;
        pending := None;
      }
    }

    /** `onClose`: clears the slot without deleting. */
    method Close()
      modifies this
      ensures pending == None && !IsOpen()
    {
      pending := None;
    }
  }

  /** `handleDelete` then `confirmDelete` deletes exactly that row, once; a
      close in between deletes nothing. */
  method DeleteFlow<T>(row: T, closeFirst: bool) returns (deleted: Option<T>)
    ensures closeFirst ==> deleted == None
    ensures !closeFirst ==> deleted == Some(row)
  {
    var slot := new DeleteConfirmation<T>();
    slot.HandleDelete(row);
    if closeFirst {
      slot.Close();
    }
    deleted := slot.ConfirmDelete();
  }
}
