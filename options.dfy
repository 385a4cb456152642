/** The usual optional value: `None` stands for a Java `null` or for "nothing published". */
module Options {

  datatype Option<+T> = None | Some(value: T)
}
