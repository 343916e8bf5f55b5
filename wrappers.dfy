/** Small value types shared by the rest of the model. */
module Wrappers {

  datatype Option<+T> = None | Some(value: T)

  /** One key of a JSON request body: the key is missing, it is present
      with the value null, or it carries a value. */
  datatype Field<+T> = Absent | Null | Given(value: T) {

    /** The column value a supplied key writes: null stays null. */
    function Nullable(): Option<T> {
      if Given? then Some(value) else None
    }
  }

  /** A column with a `defaultValue`: the default replaces a missing key only. */
  function WithDefault<T>(f: Field<T>, default: T): Option<T> {
    match f
    case Absent => Some(default)
    case Null => None
    case Given(v) => Some(v)
  }

  /** A required column under update: a supplied value replaces the stored one. */
  function Overwrite<T>(current: T, f: Field<T>): T
    requires !f.Null?
  {
    if f.Given? then f.value else current
  }

  /** A nullable column under update: a supplied value or null replaces the stored one. */
  function OverwriteNullable<T>(current: Option<T>, f: Field<T>): Option<T> {
    if f.Absent? then current else f.Nullable()
  }

  /** How a column is sent back in JSON: its value, or null. */
  function FromColumn<T>(o: Option<T>): (f: Field<T>)
    ensures f.Nullable() == o && !f.Absent?
  {
    if o.Some? then Given(o.value) else Null
  }

  /** Outcome of the ORM's validation of a body against a schema: the record,
      or an attribute whose `allowNull: false` was violated. The ORM reports
      every such attribute and the handlers show none of them; keeping one
      name is a simplification. */
  datatype Checked<+T> = Ok(value: T) | NotNull(field: string)
}
