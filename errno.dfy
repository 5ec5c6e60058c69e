/** The errno names the binding's error translation switches on. Their values
    are the generic Linux ones; the model relies only on their being distinct
    positive numbers, so that their negations are distinct status codes. */
module Errno {

  const EINVAL: int := 22
  const EBADE: int := 52
  const ECOMM: int := 70
  const EBADMSG: int := 74
  const ECONNREFUSED: int := 111
}
