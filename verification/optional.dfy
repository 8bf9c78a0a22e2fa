/** The optional fields of the TypeScript records (`error?`, `area?`, ...) and
    the `null` results of the source are modelled with this one datatype. */
module Optional {

  datatype Option<+T> = None | Some(value: T)
}
