/** The two result types shared by every module, and SQL's three-valued logic. */
module Options {

  datatype Option<+T> = None | Some(value: T)

  datatype Result<+T, +E> = Ok(value: T) | Err(error: E)

  // A nullable SQL boolean: None is NULL.
  type SqlBool = Option<bool>

  function SqlOr(a: SqlBool, b: SqlBool): SqlBool {
    if a == Some(true) || b == Some(true) then Some(true)
    else if a == Some(false) && b == Some(false) then Some(false)
    else None
  }

  function SqlNot(a: SqlBool): SqlBool {
    match a
    case Some(v) => Some(!v)
    case None => None
  }

  // `a < b` and `a >= b`, NULL as soon as one side is NULL.
  function SqlLess(a: Option<int>, b: Option<int>): SqlBool {
    if a.Some? && b.Some? then Some(a.value < b.value) else None
  }

  function SqlAtLeast(a: Option<int>, b: Option<int>): SqlBool {
    SqlNot(SqlLess(a, b))
  }

  // A CHECK constraint refuses a row only when it evaluates to FALSE.
  predicate CheckPasses(c: SqlBool) {
    c != Some(false)
  }

  // An IF branch is taken only when its condition evaluates to TRUE.
  predicate IfTaken(c: SqlBool) {
    c == Some(true)
  }
}
