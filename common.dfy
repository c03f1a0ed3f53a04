/** Small value types shared by the ledger and the client models. */
module Common {

  /** An optional value: `None` stands for JavaScript's `null`/`undefined` or a
      missing map entry. */
  datatype Option<+T> = None | Some(value: T)
}
