/** The shapes of values the client keeps in its encrypted local storage and
    receives from the server. Encryption itself is not modelled: a slot
    holds a value or nothing, and reading an empty slot yields null. */
module Storage {

  /** A field of a server record as GraphQL's `Maybe` type and an optional
      property allow it: absent, `null`, or a value. */
  datatype Maybe<T> = Missing | Null | Present(value: T)

  /** One server-issued permission record (`PermissionDTO`). Every field
      is optional in the generated schema type. */
  datatype PermissionDto = PermissionDto(
    moduleName: Maybe<string>,
    canRead: Maybe<bool>,
    canAdd: Maybe<bool>,
    canUpdate: Maybe<bool>,
    canDelete: Maybe<bool>,
    canView: Maybe<bool>)

  /** An element of a parsed permission array: `null`, or any other value,
      which is read as a record whose absent properties are undefined. */
  datatype Item = NullItem | Record(dto: PermissionDto)

  /** A value read back from the permission slot (or produced by
      `JSON.parse`): null, a string, an array of items, or any other
      non-array value (a number, a boolean, an object). */
  datatype Json = JNull | JText(text: string) | JList(items: seq<Item>) | JOther
}
