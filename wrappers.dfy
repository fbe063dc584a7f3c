/** Failure-carrying values shared by the guest-table builders and the
    voucher composer. A Python exception that ends a request becomes an
    `Err` value carrying the kind of failure. */
module Wrappers {

  datatype Option<+T> = None | Some(value: T)

  /** The exceptions the composing code can raise before the PDF renderer
      is reached. */
  datatype Failure =
    | NoTableData                          // `TABLEDATA["GUESTNAME"]` on `None` (TypeError)
    | MissingColumn(name: string)          // `TABLEDATA[name]` on an absent key (KeyError)
    | ShortColumn(name: string, index: nat) // `TABLEDATA.get(name, [""])[index]` past the end (IndexError)
    | TemplateNotFound(name: string)       // the template file cannot be opened

  datatype Result<+T> = Ok(value: T) | Err(error: Failure) {

    predicate IsFailure() {
      Err?
    }

    function PropagateFailure<U>(): Result<U>
      requires Err?
    {
      Err(error)
    }

    function Extract(): T
      requires Ok?
    {
      value
    }
  }
}
