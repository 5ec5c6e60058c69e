/** The checkpoint/restore engine the binding drives (libcriu). Its internals
    are not part of this model: the engine is a process-global option record
    that remembers the last value set for each option, a log of every call
    made to it, and verbs whose status codes are supplied from outside. */
module Libcriu {
  import opened Wrappers

  /** The engine's option record. `None` is an option nobody has set since
      the last `criu_init_opts`, so the engine uses its own default. */
  datatype Opts = Opts(
    serviceAddress: Option<string>,
    imagesDirFd: Option<int>,
    workDirFd: Option<int>,
    pid: Option<int>,
    shellJob: Option<bool>,
    tcpEstablished: Option<bool>,
    extUnixSk: Option<bool>,
    leaveRunning: Option<bool>,
    evasiveDevices: Option<bool>,
    logFile: Option<string>,
    logLevel: Option<int>)

  const Unset := Opts(None, None, None, None, None, None, None, None, None, None, None)

  /** The three operations that ask the engine to do work. */
  datatype Verb = Dump | Restore | Check

  /** One call into the engine, named after the libcriu function. */
  datatype Call =
    | InitOpts
    | SetServiceAddress(address: string)
    | SetImagesDirFd(fd: int)
    | SetWorkDirFd(fd: int)
    | SetPid(pid: int)
    | SetShellJob(flag: bool)
    | SetTcpEstablished(flag: bool)
    | SetExtUnixSk(flag: bool)
    | SetLeaveRunning(flag: bool)
    | SetEvasiveDevices(flag: bool)
    | SetLogFile(path: string)
    | SetLogLevel(level: int)
    | Invoke(verb: Verb)

  /** The effect of one call on the option record: `criu_init_opts` resets
      every option, a setter overwrites its own option, a verb changes none. */
  function Apply(o: Opts, c: Call): Opts {
    match c
    case InitOpts => Unset
    case SetServiceAddress(a) => o.(serviceAddress := Some(a))
    case SetImagesDirFd(fd) => o.(imagesDirFd := Some(fd))
    case SetWorkDirFd(fd) => o.(workDirFd := Some(fd))
    case SetPid(p) => o.(pid := Some(p))
    case SetShellJob(b) => o.(shellJob := Some(b))
    case SetTcpEstablished(b) => o.(tcpEstablished := Some(b))
    case SetExtUnixSk(b) => o.(extUnixSk := Some(b))
    case SetLeaveRunning(b) => o.(leaveRunning := Some(b))
    case SetEvasiveDevices(b) => o.(evasiveDevices := Some(b))
    case SetLogFile(p) => o.(logFile := Some(p))
    case SetLogLevel(l) => o.(logLevel := Some(l))
    case Invoke(_) => o
  }

  /** The option record after a sequence of calls, made in order. */
  function ApplyAll(o: Opts, cs: seq<Call>): Opts
    decreases |cs|
  {
    if cs == [] then o else ApplyAll(Apply(o, cs[0]), cs[1..])
  }

  lemma ApplyAllSingle(o: Opts, c: Call)
    ensures ApplyAll(o, [c]) == Apply(o, c)
  {
  }

  lemma ApplyAllPair(o: Opts, c1: Call, c2: Call)
    ensures ApplyAll(o, [c1, c2]) == Apply(Apply(o, c1), c2)
  {
    assert [c1, c2][1..] == [c2];
    ApplyAllSingle(Apply(o, c1), c2);
  }

  /** Making calls in two batches is making them all in one. */
  lemma {:induction false} ApplyAllConcat(o: Opts, a: seq<Call>, b: seq<Call>)
    ensures ApplyAll(o, a + b) == ApplyAll(ApplyAll(o, a), b)
    decreases |a|
  {
    if a == [] {
      assert a + b == b;
    } else {
      assert (a + b)[0] == a[0];
      assert (a + b)[1..] == a[1..] + b;
      ApplyAllConcat(Apply(o, a[0]), a[1..], b);
    }
  }

  /** `criu_init_opts` forgets every earlier call: the configuration depends
      only on the calls made since the last reset. */
  lemma InitForgetsHistory(o: Opts, before: seq<Call>, after: seq<Call>)
    ensures ApplyAll(o, before + [InitOpts] + after) == ApplyAll(Unset, after)
  {
    ApplyAllConcat(o, before + [InitOpts], after);
    ApplyAllConcat(o, before, [InitOpts]);
    assert ApplyAll(ApplyAll(o, before), [InitOpts]) == ApplyAll(Unset, []);
  }

  /** The engine. Its option record is always what replaying its call log on
      an unset record gives. */
  class Engine {
    var opts: Opts
    ghost var log: seq<Call>

    ghost predicate Valid()
      reads this
    {
      opts == ApplyAll(Unset, log)
    }

    constructor ()
      ensures Valid() && log == [] && opts == Unset
    {
      opts := Unset;
      log := [];
    }

    /** A configuration call: `criu_init_opts` or one of the `criu_set_*`
        functions. */
    method Configure(c: Call)
      requires Valid()
      modifies this
      ensures Valid()
      ensures log == old(log) + [c]
      ensures opts == Apply(old(opts), c)
    {
      ApplyAllConcat(Unset, log, [c]);
      opts := Apply(opts, c);
      log := log + [c];
    }

    /** `criu_dump`, `criu_restore` or `criu_check`. What the engine answers
        is outside the model, so the answer is a parameter. */
    method Perform(v: Verb, status: int) returns (ret: int)
      requires Valid()
      modifies this
      ensures Valid()
      ensures log == old(log) + [Invoke(v)]
      ensures opts == old(opts)
      ensures ret == status
    {
      ApplyAllConcat(Unset, log, [Invoke(v)]);
      log := log + [Invoke(v)];
      ret := status;
    }
  }
}
