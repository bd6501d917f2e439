/** Values shared by every part of the client: optional values and account addresses. */
module Common {

  /** A value that may be absent; stands for JavaScript's `null`. */
  datatype Option<+T> = None | Some(value: T)

  /** An account identifier as the wallet and the contract report it (a hex string). */
  type Address = string

  /** JavaScript truthiness of a string-or-null: `null` and `""` are both falsy. */
  predicate Present(s: Option<string>) {
    s.Some? && s.value != ""
  }
}
