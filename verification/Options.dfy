module Options {
  datatype Option<+T> = None | Some(value: T)
  {
    function UnwrapOr(d: T): T
    {
      match this case None => d case Some(v) => v
    }
  }
}
