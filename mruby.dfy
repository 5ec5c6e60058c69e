/** The part of the mruby runtime the binding's methods touch: the values a
    method returns and the exceptions `mrb_raise` throws. `mrb_raise` never
    returns, so a method call either returns a value or raises. */
module Mruby {

  /** An `mrb_value` as the binding builds it: a string copied with
      `mrb_str_new_cstr`, a fixnum or a boolean; `Nil` stands for a NULL
      string field when a record field is read back as a value. */
  datatype Value = Nil | Str(s: string) | Fixnum(n: int) | Boolean(b: bool)

  /** The two exception classes the binding raises. */
  datatype ExceptionClass = RuntimeError | ArgumentError

  datatype Exception = Raised(cls: ExceptionClass, message: string)

  /** What a call of a Ruby method implemented in C does: return a value, or
      leave by `mrb_raise`. */
  datatype Outcome = Return(value: Value) | Raise(exc: Exception)
}
