/** The conventional optional value, used for the parts of a D-Bus reply or
    payload that may be absent. */
module Options {

  datatype Option<+T> = None | Some(value: T)

}
