/** What every part of the model uses. */
module Common {
  datatype Option<+T> = None | Some(value: T)

  function Abs(x: real): real { if x >= 0.0 then x else -x }
}
