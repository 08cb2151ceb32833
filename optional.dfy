/** The nullable values of the application (`string | null` state, a
    missing storage key, an `undefined` response field). */
module Optional {
  datatype Option<+T> = None | Some(value: T)
}
