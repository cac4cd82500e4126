/** The optional value the model uses wherever the Go code pairs a value
    with an error (`strconv.ParseFloat`) or with a `found` flag. */
module Wrappers {

  datatype Option<+T> = None | Some(value: T)

}
