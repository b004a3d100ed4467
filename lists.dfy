/** The list maintenance the dashboard pages share: replace-by-id,
    delete-by-id, the save that replaces an existing record or appends a
    new one, and the page state around them (the edit dialog, the current
    selection, the delete confirmation and its pending id). */
module Lists {
  import opened Collections

  function HasId<T>(idOf: T -> string, id: string): T -> bool
  {
    (x: T) => idOf(x) == id
  }

  function LacksId<T>(idOf: T -> string, id: string): T -> bool
  {
    (x: T) => idOf(x) != id
  }

  function Always<T>(item: T): T -> T
  {
    (x: T) => item
  }

  /** Some record carries the id. */
  predicate Listed<T>(xs: seq<T>, idOf: T -> string, id: string)
  {
    exists i :: 0 <= i < |xs| && idOf(xs[i]) == id
  }

  /** No two records share an id. */
  predicate UniqueIds<T>(xs: seq<T>, idOf: T -> string)
  {
    forall i, j :: 0 <= i < j < |xs| ==> idOf(xs[i]) != idOf(xs[j])
  }

  /** `xs.map(x => x.id === item.id ? item : x)`. */
  function ReplaceById<T>(xs: seq<T>, item: T, idOf: T -> string): (r: seq<T>)
    ensures |r| == |xs|
    ensures forall i :: 0 <= i < |xs| && idOf(xs[i]) == idOf(item) ==> r[i] == item
    ensures forall i :: 0 <= i < |xs| && idOf(xs[i]) != idOf(item) ==> r[i] == xs[i]
  {
    MapWhere(HasId(idOf, idOf(item)), Always(item), xs)
  }

  /** `xs.filter(x => x.id !== id)`. */
  function WithoutId<T>(xs: seq<T>, idOf: T -> string, id: string): seq<T>
  {
    Filter(LacksId(idOf, id), xs)
  }

  /** `handleSave`: a record whose non-empty id is listed replaces the
      records with that id; any other record is appended as `created`
      (the page's copy of it under a fresh id). */
  function Upsert<T>(xs: seq<T>, item: T, idOf: T -> string, created: T): seq<T>
  {
    if idOf(item) != "" && Find(HasId(idOf, idOf(item)), xs).Some? then ReplaceById(xs, item, idOf)
    else xs + [created]
  }

  /** Saving a listed record replaces it in place. */
  lemma UpsertExisting<T>(xs: seq<T>, item: T, idOf: T -> string, created: T)
    requires idOf(item) != "" && Listed(xs, idOf, idOf(item))
    ensures Upsert(xs, item, idOf, created) == ReplaceById(xs, item, idOf)
    ensures |Upsert(xs, item, idOf, created)| == |xs|
  {
  }

  /** Saving an unlisted record, or one without an id, appends `created`. */
  lemma UpsertNew<T>(xs: seq<T>, item: T, idOf: T -> string, created: T)
    requires idOf(item) == "" || !Listed(xs, idOf, idOf(item))
    ensures Upsert(xs, item, idOf, created) == xs + [created]
    ensures |Upsert(xs, item, idOf, created)| == |xs| + 1
  {
  }

  /** Saving keeps ids unique as long as the fresh id is unused. */
  lemma UpsertKeepsIdsUnique<T>(xs: seq<T>, item: T, idOf: T -> string, created: T)
    requires UniqueIds(xs, idOf) && !Listed(xs, idOf, idOf(created))
    ensures UniqueIds(Upsert(xs, item, idOf, created), idOf)
  {
    var r := Upsert(xs, item, idOf, created);
    if idOf(item) != "" && Find(HasId(idOf, idOf(item)), xs).Some? {
      assert forall i :: 0 <= i < |xs| ==> idOf(r[i]) == idOf(xs[i]);
    } else {
      assert forall i :: 0 <= i < |xs| ==> r[i] == xs[i];
    }
  }

  /** Deleting removes exactly the records with the id and keeps the
      others in order. */
  lemma WithoutIdExactly<T>(xs: seq<T>, idOf: T -> string, id: string)
    ensures !Listed(WithoutId(xs, idOf, id), idOf, id)
    ensures forall i :: 0 <= i < |xs| && idOf(xs[i]) != id ==> xs[i] in WithoutId(xs, idOf, id)
    ensures forall x :: multiset(WithoutId(xs, idOf, id))[x] == if idOf(x) != id then multiset(xs)[x] else 0
    ensures IsSubsequence(WithoutId(xs, idOf, id), xs)
    ensures !Listed(xs, idOf, id) ==> WithoutId(xs, idOf, id) == xs
  {
    FilterMembers(LacksId(idOf, id), xs);
    FilterMultiset(LacksId(idOf, id), xs);
    FilterIsSubsequence(LacksId(idOf, id), xs);
    if !Listed(xs, idOf, id) {
      FilterKeepsAll(LacksId(idOf, id), xs);
    }
  }

  /** Deleting the id of a record just appended under an unused id gives
      back the list before the save. */
  lemma DeleteUndoesAppend<T>(xs: seq<T>, idOf: T -> string, created: T)
    requires !Listed(xs, idOf, idOf(created))
    ensures WithoutId(xs + [created], idOf, idOf(created)) == xs
  {
    FilterAppend(LacksId(idOf, idOf(created)), xs, [created]);
    FilterKeepsAll(LacksId(idOf, idOf(created)), xs);
    assert Filter(LacksId(idOf, idOf(created)), [created]) == [];
  }

  /** After a replace, deleting that id gives what deleting it before would. */
  lemma {:induction false} DeleteAfterReplace<T>(xs: seq<T>, item: T, idOf: T -> string)
    ensures WithoutId(ReplaceById(xs, item, idOf), idOf, idOf(item)) == WithoutId(xs, idOf, idOf(item))
  {
    if xs != [] {
      assert ReplaceById(xs, item, idOf)[1..] == ReplaceById(xs[1..], item, idOf);
      DeleteAfterReplace(xs[1..], item, idOf);
    }
  }

  /** Deleting never raises the number of records satisfying p. */
  lemma {:induction false} DeleteLowersCount<T>(p: T -> bool, xs: seq<T>, idOf: T -> string, id: string)
    ensures Count(p, WithoutId(xs, idOf, id)) <= Count(p, xs)
  {
    if xs != [] {
      DeleteLowersCount(p, xs[1..], idOf, id);
      var rest := WithoutId(xs[1..], idOf, id);
      if idOf(xs[0]) != id {
        FilterAppend(p, [xs[0]], rest);
        FilterAppend(p, [xs[0]], xs[1..]);
        assert [xs[0]] + xs[1..] == xs;
      } else {
        assert WithoutId(xs, idOf, id) == rest;
        FilterAppend(p, [xs[0]], xs[1..]);
        assert [xs[0]] + xs[1..] == xs;
      }
    }
  }

  /** The status badge of the ad, offer, banner and coupon tables. */
  datatype Badge = ActiveBadge | InactiveBadge

  function ActivityBadge(active: bool): (b: Badge)
    ensures b == ActiveBadge <==> active
  {
    if active then ActiveBadge else InactiveBadge
  }

  /** The state of a list page: the records, the edit dialog and its
      selection, the delete confirmation and its pending id. */
  class ListPage<T> {
    var items: seq<T>
    var dialogOpen: bool
    var deleteDialogOpen: bool
    var selected: Option<T>
    var pendingId: string

    /** The page starts from the stored list, with both dialogs closed. */
    constructor (stored: seq<T>)
      ensures items == stored && !dialogOpen && !deleteDialogOpen && selected == None && pendingId == ""
    {
      items := stored;
      dialogOpen := false;
      deleteDialogOpen := false;
      selected := None;
      pendingId := "";
    }

    /** The Add button: no selection, dialog open. */
    method OpenNew()
      modifies this
      ensures selected == None && dialogOpen
      ensures items == old(items) && deleteDialogOpen == old(deleteDialogOpen) && pendingId == old(pendingId)
    {
      selected := None;
      dialogOpen := true;
    }

    /** `handleEdit(item)`. */
    method HandleEdit(item: T)
      modifies this
      ensures selected == Some(item) && dialogOpen
      ensures items == old(items) && deleteDialogOpen == old(deleteDialogOpen) && pendingId == old(pendingId)
    {
      selected := Some(item);
      dialogOpen := true;
    }

    /** `handleDelete(id)`: records the id and asks for confirmation. */
    method HandleDelete(id: string)
      modifies this
      ensures pendingId == id && deleteDialogOpen
      ensures items == old(items) && dialogOpen == old(dialogOpen) && selected == old(selected)
    {
      pendingId := id;
      deleteDialogOpen := true;
    }

    /** `handleSave` as the pages are written: the list is updated, then
        the call of the undefined `logAction` throws, so the dialog stays
        open and the selection is kept. */
    method HandleSaveAsWritten(item: T, idOf: T -> string, created: T) returns (threw: bool)
      modifies this
      ensures items == Upsert(old(items), item, idOf, created)
      ensures threw
      ensures dialogOpen == old(dialogOpen) && selected == old(selected)
      ensures deleteDialogOpen == old(deleteDialogOpen) && pendingId == old(pendingId)
    {
      items := Upsert(items, item, idOf, created);
      threw := true;
    }

    /** `handleSave` as intended: the list is updated, the dialog closed
        and the selection cleared. */
    method HandleSave(item: T, idOf: T -> string, created: T)
      modifies this
      ensures items == Upsert(old(items), item, idOf, created)
      ensures !dialogOpen && selected == None
      ensures deleteDialogOpen == old(deleteDialogOpen) && pendingId == old(pendingId)
    {
      items := Upsert(items, item, idOf, created);
      dialogOpen := false;
      selected := None;
    }

    /** `confirmDelete` as written: the records with the pending id are
        removed, then `logAction` throws, so the confirmation stays open
        and the pending id is kept. */
    method ConfirmDeleteAsWritten(idOf: T -> string) returns (threw: bool)
      modifies this
      ensures items == WithoutId(old(items), idOf, old(pendingId))
      ensures threw
      ensures deleteDialogOpen == old(deleteDialogOpen) && pendingId == old(pendingId)
      ensures dialogOpen == old(dialogOpen) && selected == old(selected)
    {
      items := WithoutId(items, idOf, pendingId);
      threw := true;
    }

    /** `confirmDelete` as intended: the records with the pending id are
        removed, the confirmation closed and the pending id reset. */
    method ConfirmDelete(idOf: T -> string)
      modifies this
      ensures items == WithoutId(old(items), idOf, old(pendingId))
      ensures !deleteDialogOpen && pendingId == ""
      ensures dialogOpen == old(dialogOpen) && selected == old(selected)
    {
      items := WithoutId(items, idOf, pendingId);
      deleteDialogOpen := false;
      pendingId := "";
    }
  }

  /** Editing a record and saving it leaves the dialog open as written and
      closes it as intended. */
  method SaveAsWrittenKeepsDialogOpen<T>(stored: seq<T>, item: T, idOf: T -> string, created: T)
      returns (openAsWritten: bool, openAsIntended: bool)
    ensures openAsWritten && !openAsIntended
  {
    var written := new ListPage<T>(stored);
    written.HandleEdit(item);
    var _ := written.HandleSaveAsWritten(item, idOf, created);
    openAsWritten := written.dialogOpen;
    var intended := new ListPage<T>(stored);
    intended.HandleEdit(item);
    intended.HandleSave(item, idOf, created);
    openAsIntended := intended.dialogOpen;
  }

  /** Confirming a delete leaves the confirmation open with its id as
      written, and closes and resets it as intended. */
  method DeleteAsWrittenKeepsPendingId<T>(stored: seq<T>, idOf: T -> string, id: string)
      returns (pendingAsWritten: string, pendingAsIntended: string, openAsWritten: bool)
    ensures pendingAsWritten == id && pendingAsIntended == "" && openAsWritten
  {
    var written := new ListPage<T>(stored);
    written.HandleDelete(id);
    var _ := written.ConfirmDeleteAsWritten(idOf);
    pendingAsWritten := written.pendingId;
    openAsWritten := written.deleteDialogOpen;
    var intended := new ListPage<T>(stored);
    intended.HandleDelete(id);
    intended.ConfirmDelete(idOf);
    pendingAsIntended := intended.pendingId;
  }
}
