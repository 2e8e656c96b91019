/** The conventional optional value, standing for JavaScript's `undefined`
    results (a failed `find`, a failed regular-expression match, an absent
    optional field). */
module Options {

  datatype Option<+T> = None | Some(value: T)
}
