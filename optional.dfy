/** An optional value: `None` stands for "no data" (pandas' NaN, a file that does not exist). */
module Optional {
  datatype Option<+T> = None | Some(value: T)
}
