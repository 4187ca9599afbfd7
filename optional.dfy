/** The usual Some/None datatype, used for the oracles' failures and for
    Generate's error result (Go's `error`, nil or not). */
module Optional {

  datatype Option<+T> = None | Some(value: T)
}
