/** Values the ledger client passes around that may be absent (`null` / `undefined`). */
module Common {

  datatype Option<+T> = None | Some(value: T)
}
