/** Optional values. In this model `None` stands for JavaScript's `undefined`
    wherever the player reads an array slot or a map entry that is not there. */
module Wrappers {

  datatype Option<+T> = None | Some(value: T)
}
