/** The per-object session record of the CRIU binding (`mrb_criu_data`) and
    what each Ruby method of the CRIU class does to it, as functions on
    values: the record afterwards, the calls forwarded to the engine, and the
    method's outcome. The class in module MrbCriu performs exactly these. */
module Session {
  import opened Wrappers
  import opened Mruby
  import Errors
  import Libcriu

  /** The fields of `mrb_criu_data`. The three directory and address strings
      and the log file are C pointers that initialisation sets to NULL. */
  datatype Record = Record(
    socketFile: Option<string>,
    imagesDir: Option<string>,
    workDir: Option<string>,
    pid: int,
    leaveRunning: bool,
    evasiveDevices: bool,
    shellJob: bool,
    tcpEstablished: bool,
    extUnixSk: bool,
    fileLocks: bool,
    logLevel: int,
    imagesFd: int,
    workFd: int,
    logFile: Option<string>)

  /** The sentinel meaning "no log level chosen yet", and the level that
      setting a log file picks in its place. */
  const LogLevelUnset := -1
  const DefaultLogLevel := 4

  /** The fields initialisation sets. It leaves `pid`, the six flags and the
      two descriptors as `malloc` returned them, so nothing is said of them. */
  predicate Initialised(d: Record) {
    && d.socketFile == None
    && d.imagesDir == None
    && d.workDir == None
    && d.logLevel == LogLevelUnset
    && d.logFile == None
  }

  /** The Ruby methods of the CRIU class besides `initialize`, with what the
      outside world contributes to each: `openResult` is what
      `open(path, O_DIRECTORY)` returned, `status` is the engine's answer. */
  datatype Op =
    | SetServiceAddress(address: string)
    | SetImagesDir(path: string, openResult: int)
    | SetWorkDir(path: string, openResult: int)
    | SetPid(pid: int)
    | SetShellJob(flag: bool)
    | SetTcpEstablished(flag: bool)
    | SetExtUnixSk(flag: bool)
    | SetLeaveRunning(flag: bool)
    | SetEvasiveDevices(flag: bool)
    | SetLogFile(path: string)
    | Run(verb: Libcriu.Verb, status: int)

  /** The messages of the argument errors the directory setters raise. */
  const ImagesDirNotFound := "not found image directory."
  const WorkDirNotFound := "not found work directory."

  /** The record after the method. */
  function Updated(d: Record, op: Op): Record {
    match op
    case SetServiceAddress(a) => d.(socketFile := Some(a))
    case SetImagesDir(p, fd) => if fd == -1 then d else d.(imagesDir := Some(p), imagesFd := fd)
    case SetWorkDir(p, fd) => if fd == -1 then d else d.(workDir := Some(p), workFd := fd)
    case SetPid(p) => d.(pid := p)
    case SetShellJob(b) => d.(shellJob := b)
    case SetTcpEstablished(b) => d.(tcpEstablished := b)
    case SetExtUnixSk(b) => d.(extUnixSk := b)
    case SetLeaveRunning(b) => d.(leaveRunning := b)
    case SetEvasiveDevices(b) => d.(evasiveDevices := b)
    case SetLogFile(p) =>
      if d.logLevel == LogLevelUnset then d.(logFile := Some(p), logLevel := DefaultLogLevel)
      else d.(logFile := Some(p))
    case Run(_, _) => d
  }

  /** The calls the method makes into the engine, in order. */
  function Forwarded(d: Record, op: Op): seq<Libcriu.Call> {
    match op
    case SetServiceAddress(a) => [Libcriu.SetServiceAddress(a)]
    case SetImagesDir(_, fd) => if fd == -1 then [] else [Libcriu.SetImagesDirFd(fd)]
    case SetWorkDir(_, fd) => if fd == -1 then [] else [Libcriu.SetWorkDirFd(fd)]
    case SetPid(p) => [Libcriu.SetPid(p)]
    case SetShellJob(b) => [Libcriu.SetShellJob(b)]
    case SetTcpEstablished(b) => [Libcriu.SetTcpEstablished(b)]
    case SetExtUnixSk(b) => [Libcriu.SetExtUnixSk(b)]
    case SetLeaveRunning(b) => [Libcriu.SetLeaveRunning(b)]
    case SetEvasiveDevices(b) => [Libcriu.SetEvasiveDevices(b)]
    case SetLogFile(p) =>
      [Libcriu.SetLogFile(p)] + if d.logLevel == LogLevelUnset then [Libcriu.SetLogLevel(DefaultLogLevel)] else []
    case Run(v, _) => [Libcriu.Invoke(v)]
  }

  /** The outcome of the three verbs: a non-negative engine result is
      returned as it is, a negative one is raised through the translation. */
  function VerbOutcome(status: int): Outcome {
    if status < 0 then Raise(Errors.CriuError(status)) else Return(Fixnum(status))
  }

  /** The method's outcome. A setter that succeeds returns the field it has
      just stored, read back from the record. */
  function Reply(d: Record, op: Op): Outcome {
    var e := Updated(d, op);
    match op
    case SetServiceAddress(_) => Return(Str(e.socketFile.value))
    case SetImagesDir(_, fd) =>
      if fd == -1 then Raise(Raised(ArgumentError, ImagesDirNotFound)) else Return(Fixnum(e.imagesFd))
    case SetWorkDir(_, fd) =>
      if fd == -1 then Raise(Raised(ArgumentError, WorkDirNotFound)) else Return(Fixnum(e.workFd))
    case SetPid(_) => Return(Fixnum(e.pid))
    case SetShellJob(_) => Return(Boolean(e.shellJob))
    case SetTcpEstablished(_) => Return(Boolean(e.tcpEstablished))
    case SetExtUnixSk(_) => Return(Boolean(e.extUnixSk))
    case SetLeaveRunning(_) => Return(Boolean(e.leaveRunning))
    case SetEvasiveDevices(_) => Return(Boolean(e.evasiveDevices))
    case SetLogFile(_) => Return(Str(e.logFile.value))
    case Run(_, status) => VerbOutcome(status)
  }

  // ---------------------------------------------------------------------
  // Field-level view of the record, to state which fields a method writes.

  datatype Field =
    | SocketFile | ImagesDir | WorkDir | Pid
    | LeaveRunning | EvasiveDevices | ShellJob | TcpEstablished | ExtUnixSk | FileLocks
    | LogLevel | ImagesFd | WorkFd | LogFile

  function StrValue(s: Option<string>): Value {
    match s
    case None => Nil
    case Some(v) => Str(v)
  }

  /** A field read as an mruby value. */
  function Get(d: Record, f: Field): Value {
    match f
    case SocketFile => StrValue(d.socketFile)
    case ImagesDir => StrValue(d.imagesDir)
    case WorkDir => StrValue(d.workDir)
    case Pid => Fixnum(d.pid)
    case LeaveRunning => Boolean(d.leaveRunning)
    case EvasiveDevices => Boolean(d.evasiveDevices)
    case ShellJob => Boolean(d.shellJob)
    case TcpEstablished => Boolean(d.tcpEstablished)
    case ExtUnixSk => Boolean(d.extUnixSk)
    case FileLocks => Boolean(d.fileLocks)
    case LogLevel => Fixnum(d.logLevel)
    case ImagesFd => Fixnum(d.imagesFd)
    case WorkFd => Fixnum(d.workFd)
    case LogFile => StrValue(d.logFile)
  }

  /** The fields each method may write, read off the C functions. */
  function Writes(op: Op): set<Field> {
    match op
    case SetServiceAddress(_) => {SocketFile}
    case SetImagesDir(_, _) => {ImagesDir, ImagesFd}
    case SetWorkDir(_, _) => {WorkDir, WorkFd}
    case SetPid(_) => {Pid}
    case SetShellJob(_) => {ShellJob}
    case SetTcpEstablished(_) => {TcpEstablished}
    case SetExtUnixSk(_) => {ExtUnixSk}
    case SetLeaveRunning(_) => {LeaveRunning}
    case SetEvasiveDevices(_) => {EvasiveDevices}
    case SetLogFile(_) => {LogFile, LogLevel}
    case Run(_, _) => {}
  }

  /** A method changes no field outside the ones it writes. In particular
      `file_locks` is never written, and the log level is written by
      `set_log_file` alone. */
  lemma OnlyWrittenFieldsChange(d: Record, op: Op, f: Field)
    requires f !in Writes(op)
    ensures Get(Updated(d, op), f) == Get(d, f)
  {
    if op.SetServiceAddress? || op.SetPid? || op.SetShellJob? || op.SetTcpEstablished? {
      ValueSetterWritesOnlyItsField(d, op, f);
    } else if op.SetExtUnixSk? || op.SetLeaveRunning? || op.SetEvasiveDevices? {
      FlagSetterWritesOnlyItsField(d, op, f);
    } else if op.SetImagesDir? || op.SetWorkDir? {
      DirectorySetterWritesOnlyItsFields(d, op, f);
    } else {
      LogFileAndVerbsWriteOnlyTheirFields(d, op, f);
    }
  }

  lemma ValueSetterWritesOnlyItsField(d: Record, op: Op, f: Field)
    requires op.SetServiceAddress? || op.SetPid? || op.SetShellJob? || op.SetTcpEstablished?
    requires f !in Writes(op)
    ensures Get(Updated(d, op), f) == Get(d, f)
  {
  }

  lemma FlagSetterWritesOnlyItsField(d: Record, op: Op, f: Field)
    requires op.SetExtUnixSk? || op.SetLeaveRunning? || op.SetEvasiveDevices?
    requires f !in Writes(op)
    ensures Get(Updated(d, op), f) == Get(d, f)
  {
  }

  lemma LogFileAndVerbsWriteOnlyTheirFields(d: Record, op: Op, f: Field)
    requires op.SetLogFile? || op.Run?
    requires f !in Writes(op)
    ensures Get(Updated(d, op), f) == Get(d, f)
  {
  }

  lemma DirectorySetterWritesOnlyItsFields(d: Record, op: Op, f: Field)
    requires op.SetImagesDir? || op.SetWorkDir?
    requires f !in Writes(op)
    ensures Get(Updated(d, op), f) == Get(d, f)
  {
  }

  /** The single scalar setters: one field, one engine call, one value. */
  predicate IsScalarSetter(op: Op) {
    op.SetServiceAddress? || op.SetPid? || op.SetShellJob? || op.SetTcpEstablished?
    || op.SetExtUnixSk? || op.SetLeaveRunning? || op.SetEvasiveDevices?
  }

  /** The argument of a scalar setter, as an mruby value. */
  function Argument(op: Op): Value
    requires IsScalarSetter(op)
  {
    match op
    case SetServiceAddress(a) => Str(a)
    case SetPid(p) => Fixnum(p)
    case SetShellJob(b) => Boolean(b)
    case SetTcpEstablished(b) => Boolean(b)
    case SetExtUnixSk(b) => Boolean(b)
    case SetLeaveRunning(b) => Boolean(b)
    case SetEvasiveDevices(b) => Boolean(b)
  }

  /** The value a configuration call carries, as an mruby value. */
  function CallArgument(c: Libcriu.Call): Value {
    match c
    case SetServiceAddress(a) => Str(a)
    case SetImagesDirFd(fd) => Fixnum(fd)
    case SetWorkDirFd(fd) => Fixnum(fd)
    case SetPid(p) => Fixnum(p)
    case SetShellJob(b) => Boolean(b)
    case SetTcpEstablished(b) => Boolean(b)
    case SetExtUnixSk(b) => Boolean(b)
    case SetLeaveRunning(b) => Boolean(b)
    case SetEvasiveDevices(b) => Boolean(b)
    case SetLogFile(p) => Str(p)
    case SetLogLevel(l) => Fixnum(l)
    case InitOpts => Nil
    case Invoke(_) => Nil
  }

  /** A scalar setter stores its argument in its one field, makes exactly one
      engine call carrying that same value, and returns it. */
  lemma ScalarSetterStoresForwardsEchoes(d: Record, op: Op)
    requires IsScalarSetter(op)
    ensures |Writes(op)| == 1
    ensures forall f :: f in Writes(op) ==> Get(Updated(d, op), f) == Argument(op)
    ensures |Forwarded(d, op)| == 1 && CallArgument(Forwarded(d, op)[0]) == Argument(op)
    ensures Reply(d, op) == Return(Argument(op))
  {
  }

  /** A directory setter whose `open` failed raises an argument error and
      changes neither the record nor the engine. */
  lemma DirectoryNotFoundChangesNothing(d: Record, op: Op)
    requires (op.SetImagesDir? || op.SetWorkDir?) && op.openResult == -1
    ensures Updated(d, op) == d
    ensures Forwarded(d, op) == []
    ensures Reply(d, op).Raise? && Reply(d, op).exc.cls == ArgumentError
  {
  }

  /** A directory setter whose `open` succeeded hands the descriptor to the
      engine, stores the path and the descriptor, and returns the descriptor. */
  lemma DirectoryOpenedIsStored(d: Record, op: Op)
    requires (op.SetImagesDir? || op.SetWorkDir?) && op.openResult != -1
    ensures op.SetImagesDir? ==>
      && Forwarded(d, op) == [Libcriu.SetImagesDirFd(op.openResult)]
      && Updated(d, op).imagesDir == Some(op.path) && Updated(d, op).imagesFd == op.openResult
    ensures op.SetWorkDir? ==>
      && Forwarded(d, op) == [Libcriu.SetWorkDirFd(op.openResult)]
      && Updated(d, op).workDir == Some(op.path) && Updated(d, op).workFd == op.openResult
    ensures Reply(d, op) == Return(Fixnum(op.openResult))
  {
  }

  /** `set_log_file` always forwards the file name, forwards the default
      level exactly when the level was still unset, and leaves the level at
      the default or where it was. */
  lemma LogFileDefaultsLevel(d: Record, path: string)
    ensures Forwarded(d, SetLogFile(path))[0] == Libcriu.SetLogFile(path)
    ensures Libcriu.SetLogLevel(DefaultLogLevel) in Forwarded(d, SetLogFile(path)) <==> d.logLevel == LogLevelUnset
    ensures Updated(d, SetLogFile(path)).logFile == Some(path)
    ensures Updated(d, SetLogFile(path)).logLevel == if d.logLevel == LogLevelUnset then DefaultLogLevel else d.logLevel
    ensures Reply(d, SetLogFile(path)) == Return(Str(path))
  {
  }

  /** A second `set_log_file` forwards the file name and no level, and the
      level stays at the default. */
  lemma LogFileTwice(d: Record, first: string, second: string)
    requires d.logLevel == LogLevelUnset
    ensures var e := Updated(d, SetLogFile(first));
      && Forwarded(e, SetLogFile(second)) == [Libcriu.SetLogFile(second)]
      && Updated(e, SetLogFile(second)).logLevel == DefaultLogLevel
  {
  }

  /** The three verbs return a non-negative engine result unchanged and raise
      the translated error for a negative one; the record is untouched and
      the only engine call is the verb itself. */
  lemma VerbReturnsOrRaises(d: Record, v: Libcriu.Verb, status: int)
    ensures Updated(d, Run(v, status)) == d
    ensures Forwarded(d, Run(v, status)) == [Libcriu.Invoke(v)]
    ensures Reply(d, Run(v, status)).Return? <==> status >= 0
    ensures status >= 0 ==> Reply(d, Run(v, status)) == Return(Fixnum(status))
    ensures status < 0 ==> Reply(d, Run(v, status)) == Raise(Raised(RuntimeError, Errors.ErrorMessage(status)))
  {
  }

  // ---------------------------------------------------------------------
  // Agreement between the record and the engine's configuration.

  /** An engine option that has been set holds the local value. */
  predicate Agrees<T(==)>(engine: Option<T>, local: T) {
    engine.Some? ==> engine.value == local
  }

  /** The record and the engine's options tell the same story: the string
      options and the log level are set in the engine exactly when they are
      set locally, and to the same value; every other option the engine has
      been given holds the local value. */
  predicate InSync(d: Record, o: Libcriu.Opts) {
    && o.serviceAddress == d.socketFile
    && o.imagesDirFd == (if d.imagesDir.Some? then Some(d.imagesFd) else None)
    && o.workDirFd == (if d.workDir.Some? then Some(d.workFd) else None)
    && Agrees(o.pid, d.pid)
    && Agrees(o.shellJob, d.shellJob)
    && Agrees(o.tcpEstablished, d.tcpEstablished)
    && Agrees(o.extUnixSk, d.extUnixSk)
    && Agrees(o.leaveRunning, d.leaveRunning)
    && Agrees(o.evasiveDevices, d.evasiveDevices)
    && o.logFile == d.logFile
    && o.logLevel == (if d.logLevel == LogLevelUnset then None else Some(d.logLevel))
  }

  /** Right after initialisation, which resets the engine, the two agree. */
  lemma InitialisedInSync(d: Record)
    requires Initialised(d)
    ensures InSync(d, Libcriu.Unset)
  {
  }

  /** Every method keeps the record and the engine in agreement. */
  lemma StepKeepsSync(d: Record, o: Libcriu.Opts, op: Op)
    requires InSync(d, o)
    ensures InSync(Updated(d, op), Libcriu.ApplyAll(o, Forwarded(d, op)))
  {
    match op
    case SetServiceAddress(a) => SetServiceAddressKeepsSync(d, o, a);
    case SetImagesDir(p, fd) => SetImagesDirKeepsSync(d, o, p, fd);
    case SetWorkDir(p, fd) => SetWorkDirKeepsSync(d, o, p, fd);
    case SetPid(p) => SetPidKeepsSync(d, o, p);
    case SetShellJob(b) => SetShellJobKeepsSync(d, o, b);
    case SetTcpEstablished(b) => SetTcpEstablishedKeepsSync(d, o, b);
    case SetExtUnixSk(b) => SetExtUnixSkKeepsSync(d, o, b);
    case SetLeaveRunning(b) => SetLeaveRunningKeepsSync(d, o, b);
    case SetEvasiveDevices(b) => SetEvasiveDevicesKeepsSync(d, o, b);
    case SetLogFile(p) => SetLogFileKeepsSync(d, o, p);
    case Run(v, status) => RunKeepsSync(d, o, v, status);
  }

  lemma SetServiceAddressKeepsSync(d: Record, o: Libcriu.Opts, a: string)
    requires InSync(d, o)
    ensures InSync(Updated(d, SetServiceAddress(a)), Libcriu.ApplyAll(o, Forwarded(d, SetServiceAddress(a))))
  {
    Libcriu.ApplyAllSingle(o, Libcriu.SetServiceAddress(a));
  }

  lemma SetPidKeepsSync(d: Record, o: Libcriu.Opts, p: int)
    requires InSync(d, o)
    ensures InSync(Updated(d, SetPid(p)), Libcriu.ApplyAll(o, Forwarded(d, SetPid(p))))
  {
    Libcriu.ApplyAllSingle(o, Libcriu.SetPid(p));
  }

  lemma SetShellJobKeepsSync(d: Record, o: Libcriu.Opts, b: bool)
    requires InSync(d, o)
    ensures InSync(Updated(d, SetShellJob(b)), Libcriu.ApplyAll(o, Forwarded(d, SetShellJob(b))))
  {
    Libcriu.ApplyAllSingle(o, Libcriu.SetShellJob(b));
  }

  lemma SetTcpEstablishedKeepsSync(d: Record, o: Libcriu.Opts, b: bool)
    requires InSync(d, o)
    ensures InSync(Updated(d, SetTcpEstablished(b)), Libcriu.ApplyAll(o, Forwarded(d, SetTcpEstablished(b))))
  {
    Libcriu.ApplyAllSingle(o, Libcriu.SetTcpEstablished(b));
  }

  lemma SetExtUnixSkKeepsSync(d: Record, o: Libcriu.Opts, b: bool)
    requires InSync(d, o)
    ensures InSync(Updated(d, SetExtUnixSk(b)), Libcriu.ApplyAll(o, Forwarded(d, SetExtUnixSk(b))))
  {
    Libcriu.ApplyAllSingle(o, Libcriu.SetExtUnixSk(b));
  }

  lemma SetLeaveRunningKeepsSync(d: Record, o: Libcriu.Opts, b: bool)
    requires InSync(d, o)
    ensures InSync(Updated(d, SetLeaveRunning(b)), Libcriu.ApplyAll(o, Forwarded(d, SetLeaveRunning(b))))
  {
    Libcriu.ApplyAllSingle(o, Libcriu.SetLeaveRunning(b));
  }

  lemma SetEvasiveDevicesKeepsSync(d: Record, o: Libcriu.Opts, b: bool)
    requires InSync(d, o)
    ensures InSync(Updated(d, SetEvasiveDevices(b)), Libcriu.ApplyAll(o, Forwarded(d, SetEvasiveDevices(b))))
  {
    Libcriu.ApplyAllSingle(o, Libcriu.SetEvasiveDevices(b));
  }

  lemma SetImagesDirKeepsSync(d: Record, o: Libcriu.Opts, path: string, fd: int)
    requires InSync(d, o)
    ensures InSync(Updated(d, SetImagesDir(path, fd)), Libcriu.ApplyAll(o, Forwarded(d, SetImagesDir(path, fd))))
  {
    if fd != -1 {
      Libcriu.ApplyAllSingle(o, Libcriu.SetImagesDirFd(fd));
    }
  }

  lemma SetWorkDirKeepsSync(d: Record, o: Libcriu.Opts, path: string, fd: int)
    requires InSync(d, o)
    ensures InSync(Updated(d, SetWorkDir(path, fd)), Libcriu.ApplyAll(o, Forwarded(d, SetWorkDir(path, fd))))
  {
    if fd != -1 {
      Libcriu.ApplyAllSingle(o, Libcriu.SetWorkDirFd(fd));
    }
  }

  lemma SetLogFileKeepsSync(d: Record, o: Libcriu.Opts, path: string)
    requires InSync(d, o)
    ensures InSync(Updated(d, SetLogFile(path)), Libcriu.ApplyAll(o, Forwarded(d, SetLogFile(path))))
  {
    if d.logLevel == LogLevelUnset {
      Libcriu.ApplyAllPair(o, Libcriu.SetLogFile(path), Libcriu.SetLogLevel(DefaultLogLevel));
    } else {
      Libcriu.ApplyAllSingle(o, Libcriu.SetLogFile(path));
    }
  }

  lemma RunKeepsSync(d: Record, o: Libcriu.Opts, v: Libcriu.Verb, status: int)
    requires InSync(d, o)
    ensures InSync(Updated(d, Run(v, status)), Libcriu.ApplyAll(o, Forwarded(d, Run(v, status))))
  {
    Libcriu.ApplyAllSingle(o, Libcriu.Invoke(v));
  }

  // ---------------------------------------------------------------------
  // Sequences of method calls on one session.

  /** The record after a sequence of methods. */
  function AfterAll(d: Record, ops: seq<Op>): Record
    decreases |ops|
  {
    if ops == [] then d else AfterAll(Updated(d, ops[0]), ops[1..])
  }

  /** Everything a sequence of methods forwards to the engine, in order. */
  function ForwardedAll(d: Record, ops: seq<Op>): seq<Libcriu.Call>
    decreases |ops|
  {
    if ops == [] then [] else Forwarded(d, ops[0]) + ForwardedAll(Updated(d, ops[0]), ops[1..])
  }

  /** As long as nobody else configures the engine, a session and the engine
      stay in agreement whatever its methods are called with. */
  lemma {:induction false} AllKeepSync(d: Record, o: Libcriu.Opts, ops: seq<Op>)
    requires InSync(d, o)
    ensures InSync(AfterAll(d, ops), Libcriu.ApplyAll(o, ForwardedAll(d, ops)))
    decreases |ops|
  {
    if ops != [] {
      var e := Updated(d, ops[0]);
      StepKeepsSync(d, o, ops[0]);
      Libcriu.ApplyAllConcat(o, Forwarded(d, ops[0]), ForwardedAll(e, ops[1..]));
      AllKeepSync(e, Libcriu.ApplyAll(o, Forwarded(d, ops[0])), ops[1..]);
    }
  }

  /** Whether some method of the sequence is `set_log_file`. */
  predicate SetsLogFile(ops: seq<Op>)
    decreases |ops|
  {
    ops != [] && (ops[0].SetLogFile? || SetsLogFile(ops[1..]))
  }

  /** What one method does to the log level. */
  lemma StepLogLevel(d: Record, op: Op)
    ensures Updated(d, op).logLevel ==
      if d.logLevel == LogLevelUnset && op.SetLogFile? then DefaultLogLevel else d.logLevel
  {
  }

  /** The log level after a sequence of methods: it moves from the sentinel
      to the default at the first `set_log_file`, and otherwise never moves. */
  lemma {:induction false} LogLevelAfterAll(d: Record, ops: seq<Op>)
    ensures AfterAll(d, ops).logLevel ==
      if d.logLevel == LogLevelUnset && SetsLogFile(ops) then DefaultLogLevel else d.logLevel
    decreases |ops|
  {
    if ops != [] {
      StepLogLevel(d, ops[0]);
      LogLevelAfterAll(Updated(d, ops[0]), ops[1..]);
    }
  }

  /** From initialisation on, the log level is the sentinel until a log file
      is set and the default from then on; it never holds anything else. */
  lemma LogLevelSentinelOrDefault(d: Record, ops: seq<Op>)
    requires Initialised(d)
    ensures AfterAll(d, ops).logLevel == if SetsLogFile(ops) then DefaultLogLevel else LogLevelUnset
    ensures AfterAll(d, ops).logLevel in {LogLevelUnset, DefaultLogLevel}
  {
    LogLevelAfterAll(d, ops);
  }

  /** The number of log-level calls among some engine calls. */
  function LevelCalls(cs: seq<Libcriu.Call>): nat
    decreases |cs|
  {
    if cs == [] then 0 else (if cs[0].SetLogLevel? then 1 else 0) + LevelCalls(cs[1..])
  }

  lemma {:induction false} LevelCallsConcat(a: seq<Libcriu.Call>, b: seq<Libcriu.Call>)
    ensures LevelCalls(a + b) == LevelCalls(a) + LevelCalls(b)
    decreases |a|
  {
    if a == [] {
      assert a + b == b;
    } else {
      assert (a + b)[0] == a[0];
      assert (a + b)[1..] == a[1..] + b;
      LevelCallsConcat(a[1..], b);
    }
  }

  /** How many log-level calls one method makes. */
  lemma StepLevelCalls(d: Record, op: Op)
    ensures LevelCalls(Forwarded(d, op)) ==
      if d.logLevel == LogLevelUnset && op.SetLogFile? then 1 else 0
  {
    var cs := Forwarded(d, op);
    if |cs| == 1 {
      assert cs[1..] == [];
    } else if |cs| == 2 {
      assert cs[1..] == [Libcriu.SetLogLevel(DefaultLogLevel)];
      assert LevelCalls(cs[1..]) == 1 by {
        assert cs[1..][1..] == [];
      }
    }
  }

  /** A session forwards a log level at most once: once if the level was
      unset and some method sets a log file, never otherwise. */
  lemma {:induction false} LevelForwardedAtMostOnce(d: Record, ops: seq<Op>)
    ensures LevelCalls(ForwardedAll(d, ops)) ==
      if d.logLevel == LogLevelUnset && SetsLogFile(ops) then 1 else 0
    decreases |ops|
  {
    if ops != [] {
      var e := Updated(d, ops[0]);
      LevelCallsConcat(Forwarded(d, ops[0]), ForwardedAll(e, ops[1..]));
      LevelForwardedAtMostOnce(e, ops[1..]);
      StepLogLevel(d, ops[0]);
      StepLevelCalls(d, ops[0]);
    }
  }
}
