/** The optional value used for "the file holds a collection, or it is missing"
    and for "the index of the first match, or none". */
module Options {

  datatype Option<+T> = None | Some(value: T)
}
