/** The run-time values of the modelled Python code: an `int`, a `str` or `None`. */
module Values {

  datatype Value = IntVal(i: int) | StrVal(s: string) | NoneVal
}
