/** The option and list types shared by the modules of the crawler model. */
module Options {
  datatype Option<+T> = None | Some(value: T)

  datatype List<+T> = Nil | Cons(head: T, tail: List<T>)
}
