/** Absent values: the sources' `T | null` and `T | undefined`. */
module Maybe {

  datatype Option<+T> = None | Some(value: T)
}
