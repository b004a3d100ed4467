/** The admin's user edit form: its initial state and the per-row edit of
    one permission flag. The permission rows have the server's record
    shape; a row position past the end of a list becomes a hole, read back
    as a row with every property absent. */
module UpdateUserForm {
  import opened Storage

  /** The user record handed to the form; every property may be absent. */
  datatype UserRecord = UserRecord(name: Maybe<string>, email: Maybe<string>, phone: Maybe<string>,
                                   roleName: Maybe<string>, permissions: Maybe<seq<PermissionDto>>,
                                   missingPermissions: Maybe<seq<PermissionDto>>)

  /** `value || ""` for a string property. */
  function TextOr(v: Maybe<string>): (s: string)
    ensures v.Present? ==> s == v.value
    ensures !v.Present? ==> s == ""
  {
    if v.Present? then v.value else ""
  }

  /** `value || []` for an array property (an array is always truthy). */
  function RowsOr(v: Maybe<seq<PermissionDto>>): (rows: seq<PermissionDto>)
    ensures v.Present? ==> rows == v.value
    ensures !v.Present? ==> rows == []
  {
    if v.Present? then v.value else []
  }

  /** The five flags the checkboxes edit, in their on-screen order. */
  datatype Flag = CanRead | CanAdd | CanUpdate | CanDelete | CanView

  const EditableFlags: seq<Flag> := [CanRead, CanAdd, CanUpdate, CanDelete, CanView]

  function FlagName(f: Flag): string
  {
    match f
    case CanRead => "canRead"
    case CanAdd => "canAdd"
    case CanUpdate => "canUpdate"
    case CanDelete => "canDelete"
    case CanView => "canView"
  }

  /** Every flag is offered once, and the offered names are exactly the
      five `canX` properties of a permission record. */
  lemma EditableFlagsAreTheFive()
    ensures forall f: Flag :: f in EditableFlags
    ensures |EditableFlags| == 5
    ensures forall i, j :: 0 <= i < j < |EditableFlags| ==> FlagName(EditableFlags[i]) != FlagName(EditableFlags[j])
    ensures forall f: Flag :: FlagName(f) in ["canRead", "canAdd", "canUpdate", "canDelete", "canView"]
  {
    forall f: Flag
      ensures f in EditableFlags
    {
      match f
      case CanRead => assert EditableFlags[0] == f;
      case CanAdd => assert EditableFlags[1] == f;
      case CanUpdate => assert EditableFlags[2] == f;
      case CanDelete => assert EditableFlags[3] == f;
      case CanView => assert EditableFlags[4] == f;
    }
  }

  function FlagOf(row: PermissionDto, f: Flag): Maybe<bool>
  {
    match f
    case CanRead => row.canRead
    case CanAdd => row.canAdd
    case CanUpdate => row.canUpdate
    case CanDelete => row.canDelete
    case CanView => row.canView
  }

  /** `{ ...row, [field]: value }`. */
  function WithFlag(row: PermissionDto, f: Flag, value: bool): (r: PermissionDto)
    ensures FlagOf(r, f) == Present(value)
    ensures forall g :: g != f ==> FlagOf(r, g) == FlagOf(row, g)
    ensures r.moduleName == row.moduleName
  {
    match f
    case CanRead => row.(canRead := Present(value))
    case CanAdd => row.(canAdd := Present(value))
    case CanUpdate => row.(canUpdate := Present(value))
    case CanDelete => row.(canDelete := Present(value))
    case CanView => row.(canView := Present(value))
  }

  const HoleRow := PermissionDto(Missing, Missing, Missing, Missing, Missing, Missing)

  /** The element read at `index` of a list (a hole past the end). */
  function RowAt(rows: seq<PermissionDto>, index: nat): PermissionDto
  {
    if index < |rows| then rows[index] else HoleRow
  }

  /** `updated[index] = { ...updated[index], [field]: value }` on a copy. */
  function SetFlagAt(rows: seq<PermissionDto>, index: nat, f: Flag, value: bool): (r: seq<PermissionDto>)
    ensures |r| == if index < |rows| then |rows| else index + 1
    ensures r[index] == WithFlag(RowAt(rows, index), f, value)
    ensures forall i :: 0 <= i < |rows| && i != index ==> r[i] == rows[i]
    ensures forall i :: |rows| <= i < index ==> r[i] == HoleRow
  {
    if index < |rows| then rows[index := WithFlag(rows[index], f, value)]
    else rows + seq(index - |rows|, _ => HoleRow) + [WithFlag(HoleRow, f, value)]
  }

  /** Setting a flag to the value it already has leaves an in-range list as
      it is. */
  lemma SetSameFlagIsNoChange(rows: seq<PermissionDto>, index: nat, f: Flag, value: bool)
    requires index < |rows| && FlagOf(rows[index], f) == Present(value)
    ensures SetFlagAt(rows, index, f, value) == rows
  {
    var r := SetFlagAt(rows, index, f, value);
    assert r[index] == rows[index] by {
      assert FlagOf(r[index], CanRead) == FlagOf(rows[index], CanRead);
      assert FlagOf(r[index], CanAdd) == FlagOf(rows[index], CanAdd);
      assert FlagOf(r[index], CanUpdate) == FlagOf(rows[index], CanUpdate);
      assert FlagOf(r[index], CanDelete) == FlagOf(rows[index], CanDelete);
      assert FlagOf(r[index], CanView) == FlagOf(rows[index], CanView);
    }
  }

  /** Edits of two different flags of one row do not interfere. */
  lemma EditsCommute(rows: seq<PermissionDto>, index: nat, f: Flag, g: Flag, a: bool, b: bool)
    requires index < |rows| && f != g
    ensures SetFlagAt(SetFlagAt(rows, index, f, a), index, g, b) == SetFlagAt(SetFlagAt(rows, index, g, b), index, f, a)
  {
    var left := SetFlagAt(SetFlagAt(rows, index, f, a), index, g, b);
    var right := SetFlagAt(SetFlagAt(rows, index, g, b), index, f, a);
    assert left[index] == right[index] by {
      assert FlagOf(left[index], CanRead) == FlagOf(right[index], CanRead);
      assert FlagOf(left[index], CanAdd) == FlagOf(right[index], CanAdd);
      assert FlagOf(left[index], CanUpdate) == FlagOf(right[index], CanUpdate);
      assert FlagOf(left[index], CanDelete) == FlagOf(right[index], CanDelete);
      assert FlagOf(left[index], CanView) == FlagOf(right[index], CanView);
    }
  }

  /** Which of the two lists an edit addresses. */
  datatype ListKind = Assigned | MissingList

  /** The form state. */
  class UserForm {
    var name: string
    var email: string
    var phone: string
    var roleName: string
    var permissions: seq<PermissionDto>
    var missingPermissions: seq<PermissionDto>

    /** Missing text fields start as "" and missing lists as []. */
    constructor (user: UserRecord)
      ensures name == TextOr(user.name) && email == TextOr(user.email) && phone == TextOr(user.phone)
      ensures roleName == TextOr(user.roleName)
      ensures permissions == RowsOr(user.permissions) && missingPermissions == RowsOr(user.missingPermissions)
    {
      name := TextOr(user.name);
      email := TextOr(user.email);
      phone := TextOr(user.phone);
      roleName := TextOr(user.roleName);
      permissions := RowsOr(user.permissions);
      missingPermissions := RowsOr(user.missingPermissions);
    }

    /** `updatePermission(type, index, field, value)`: only the addressed
        list changes, and in it only the addressed flag of one row. */
    method UpdatePermission(kind: ListKind, index: nat, f: Flag, value: bool)
      modifies this
      ensures kind == Assigned ==>
        permissions == SetFlagAt(old(permissions), index, f, value) && missingPermissions == old(missingPermissions)
      ensures kind == MissingList ==>
        missingPermissions == SetFlagAt(old(missingPermissions), index, f, value) && permissions == old(permissions)
      ensures name == old(name) && email == old(email) && phone == old(phone) && roleName == old(roleName)
    {
      if kind == Assigned {
        permissions := SetFlagAt(permissions, index, f, value);
      } else {
        missingPermissions := SetFlagAt(missingPermissions, index, f, value);
      }
    }
  }
}
