/** The null / non-null distinction of a C# reference, as a value. */
module Optional {

  datatype Option<+T> = None | Some(value: T)
}
