/** Translation of a libcriu status code into the exception the binding
    raises (`mrb_criu_error`). */
module Errors {
  import Errno
  import opened Mruby

  /** The messages of the six arms of the switch. The C source writes the
      last three as two adjacent string literals, which the compiler joins
      without a space. */
  const RpcFailed := "RPC has returned fail"
  const ConnectFailed := "Unable to connect to CRIU"
  const SendRecvFailed := "Unable to send/recv msg to/from CRIU"
  const UnsupportedRequest := "CRIU doesn't support this type of request.You should probably update CRIU"
  const UnexpectedResponse := "Unexpected response from CRIU.You should probably update CRIU"
  const UnknownCode := "Unknown error type code.You should probably update CRIU"

  /** The five status codes the switch names. */
  const KnownCodes: set<int> :=
    {-Errno.EBADE, -Errno.ECONNREFUSED, -Errno.ECOMM, -Errno.EINVAL, -Errno.EBADMSG}

  /** The message for a status code: each named code has its own message, and
      every other code, negative or not, gets the generic one. */
  function ErrorMessage(ret: int): (m: string)
    ensures m == RpcFailed <==> ret == -Errno.EBADE
    ensures m == ConnectFailed <==> ret == -Errno.ECONNREFUSED
    ensures m == SendRecvFailed <==> ret == -Errno.ECOMM
    ensures m == UnsupportedRequest <==> ret == -Errno.EINVAL
    ensures m == UnexpectedResponse <==> ret == -Errno.EBADMSG
    ensures m == UnknownCode <==> ret !in KnownCodes
  {
    if ret == -Errno.EBADE then RpcFailed
    else if ret == -Errno.ECONNREFUSED then ConnectFailed
    else if ret == -Errno.ECOMM then SendRecvFailed
    else if ret == -Errno.EINVAL then UnsupportedRequest
    else if ret == -Errno.EBADMSG then UnexpectedResponse
    else UnknownCode
  }

  /** The exception `mrb_criu_error` raises for a status code. It is total:
      every code leads to a raise, never to a return. */
  function CriuError(ret: int): (e: Exception)
    ensures e.cls == RuntimeError
    ensures |e.message| > 0
  {
    Raised(RuntimeError, ErrorMessage(ret))
  }
}
