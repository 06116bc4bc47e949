/** An optional value: `None` stands for a JavaScript value that is absent
    (`undefined`) or falsy where the source tests truthiness. */
module Optional {

  datatype Option<+T> = None | Some(value: T)

}
