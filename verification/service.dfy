/** Values that stand for the hosted backend's answers and for the page's
    side effects. Every read, write and sign-in of the components is an input
    of one of these shapes; nothing here performs I/O. */
module Service {

  datatype Option<+T> = None | Some(value: T)

  /** What a read (`from(table).select(...)`) hands back in its `data` field:
      the rows, or null (the service reported an error or returned nothing). */
  datatype Fetch<+T> = Rows(rows: seq<T>) | NoData

  /** `if (data) setRows(data)`: the fetched rows replace the held ones, and
      a null answer leaves them as they were. */
  function Latest<T>(read: Fetch<T>, held: seq<T>): (r: seq<T>)
    ensures read.NoData? ==> r == held
    ensures read.Rows? ==> r == read.rows
  {
    match read
    case Rows(rows) => rows
    case NoData => held
  }

  /** What a write or a sign-in hands back in its `error` field: null, or an
      error with a code (a SQLSTATE such as "23505") and a message. */
  datatype Reply = Done | Failed(code: string, message: string)

  /** A toast notification as the page emits it. */
  datatype Toast = Toast(title: string, description: string, destructive: bool)

  /** PostgreSQL's unique_violation. */
  const UniqueViolation := "23505"

  const LoginPath := "/admin/login"
  const DashboardPath := "/admin/dashboard"

  /** The generic failure toast the two public forms share. */
  const GenericError := Toast("Terjadi Kesalahan", "Mohon coba lagi nanti.", true)
}
