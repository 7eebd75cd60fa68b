/** The optional value used for every indicator cell: `None` stands for a cell that pandas
    holds as NaN, whether because the look-back window is not yet full or because the
    arithmetic was 0/0. */
module Wrappers {
  datatype Option<+T> = None | Some(value: T)
}
