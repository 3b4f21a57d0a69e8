/** Shared vocabulary of the backend model: row identifiers, optional values,
    members of a JSON request body, and the replies a handler sends. */
module Common {

  /** Rows are keyed by UUID strings; a UUID is never the empty string. */
  type Id = s: string | |s| > 0 witness "0"

  datatype Option<+T> = None | Some(value: T)

  /** One member of a JSON request body or query string: the key is missing,
      it is present with `null`, or it carries a value. */
  datatype Field<+T> = Absent | Null | Val(value: T)

  /** JavaScript truthiness of a string member (`if (x)`): present, not null,
      and not the empty string. */
  predicate Truthy(f: Field<string>) {
    f.Val? && f.value != ""
  }

  /** The value of a truthy member, read as a row identifier. */
  function IdOf(f: Field<string>): (id: Id)
    requires Truthy(f)
    ensures id == f.value
  {
    f.value
  }

  /** `x || fallback` on a string member. */
  function OrElse(f: Field<string>, fallback: string): (r: string)
    ensures Truthy(f) ==> r == f.value
    ensures !Truthy(f) ==> r == fallback
  {
    if Truthy(f) then f.value else fallback
  }

  /** A nullable column written from a body member: an absent key keeps the
      current value, null clears it, a value replaces it. */
  function Nullable<T>(current: Option<T>, f: Field<T>): (r: Option<T>)
    ensures f.Absent? ==> r == current
    ensures f.Null? ==> r.None?
    ensures f.Val? ==> r == Some(f.value)
  {
    match f
    case Absent => current
    case Null => None
    case Val(v) => Some(v)
  }

  /** A non-null reference column written from a body member: an absent key
      keeps the current row id; otherwise only a non-empty id is acceptable
      (null breaks the non-null constraint, "" is not a UUID). */
  function SetRef(current: Id, f: Field<string>): (r: Option<Id>)
    ensures f.Absent? ==> r == Some(current)
    ensures !f.Absent? ==> (r.Some? <==> Truthy(f))
    ensures Truthy(f) ==> r == Some(IdOf(f))
  {
    match f
    case Absent => Some(current)
    case Null => None
    case Val(v) => if v != "" then Some(IdOf(f)) else None
  }

  /** What a handler sends: `successResponse` with its HTTP code and payload,
      or `errorResponse` with its HTTP code and message. */
  datatype Reply<+T> = Ok(code: int, data: T) | Err(code: int, message: string)

  const InternalError := "Internal Server Error"
}
