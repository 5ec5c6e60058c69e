/** The CRIU class of the binding: a Ruby object carrying one
    `mrb_criu_data` record, whose methods update the record in place and
    forward every value to the process-global engine. Each method performs
    the step that module Session describes. */
module MrbCriu {
  import opened Wrappers
  import opened Mruby
  import opened Session
  import Errors
  import Libcriu
  import Posix

  class Criu {
    var socketFile: Option<string>
    var imagesDir: Option<string>
    var workDir: Option<string>
    var pid: int
    var leaveRunning: bool
    var evasiveDevices: bool
    var shellJob: bool
    var tcpEstablished: bool
    var extUnixSk: bool
    var fileLocks: bool
    var logLevel: int
    var imagesFd: int
    var workFd: int
    var logFile: Option<string>

    /** The engine is process-global: every CRIU object drives the same one. */
    const engine: Libcriu.Engine

    /** The record as a value. */
    function Contents(): Record
      reads this
    {
      Record(socketFile, imagesDir, workDir, pid, leaveRunning, evasiveDevices, shellJob,
             tcpEstablished, extUnixSk, fileLocks, logLevel, imagesFd, workFd, logFile)
    }

    /** The call changed the record, the engine's log and options, and
        produced the outcome, as `op` does according to module Session. */
    twostate predicate Performs(op: Op, r: Outcome)
      reads this, engine
    {
      && Contents() == Updated(old(Contents()), op)
      && engine.log == old(engine.log) + Forwarded(old(Contents()), op)
      && engine.opts == Libcriu.ApplyAll(old(engine.opts), Forwarded(old(Contents()), op))
      && r == Reply(old(Contents()), op)
    }

    /** `CRIU.new`: a fresh object whose `initialize` runs with no record. */
    constructor (engine: Libcriu.Engine)
      requires engine.Valid()
      modifies engine
      ensures this.engine == engine && engine.Valid()
      ensures Initialised(Contents())
      ensures engine.log == old(engine.log) + [Libcriu.InitOpts]
      ensures engine.opts == Libcriu.Unset
    {
      this.engine := engine;
      new;
      Initialize();
    }

    /** `initialize`: the previous record, if any, is released with a plain
        free (its descriptors stay open, which is why this method has no
        access to them); a new record gets the NULL strings and the log-level
        sentinel, and the engine's options are reset. The record's other
        fields are whatever the allocator left, so nothing is promised of
        them. */
    method Initialize()
      requires engine.Valid()
      modifies this, engine
      ensures engine.Valid()
      ensures Initialised(Contents())
      ensures engine.log == old(engine.log) + [Libcriu.InitOpts]
      ensures engine.opts == Libcriu.Unset
    {
      socketFile := None;
      imagesDir := None;
      workDir := None;
      logLevel := LogLevelUnset;
      logFile := None;
      engine.Configure(Libcriu.InitOpts);
    }

    /** The record's release by the garbage collector: closes the two stored
        descriptors, images first, and touches nothing else. */
    method Free(fds: Posix.Descriptors)
      modifies fds
      ensures fds.closed == old(fds.closed) + [imagesFd, workFd]
    {
      fds.Close(imagesFd);
      fds.Close(workFd);
    }

    method Dump(status: int) returns (r: Outcome)
      requires engine.Valid()
      modifies this, engine
      ensures engine.Valid() && Performs(Op.Run(Libcriu.Dump, status), r)
    {
      var ret := engine.Perform(Libcriu.Dump, status);
      if ret < 0 {
        r := Raise(Errors.CriuError(ret));
      } else {
        r := Return(Fixnum(ret));
      }
    }

    method Restore(status: int) returns (r: Outcome)
      requires engine.Valid()
      modifies this, engine
      ensures engine.Valid() && Performs(Op.Run(Libcriu.Restore, status), r)
    {
      var ret := engine.Perform(Libcriu.Restore, status);
      if ret < 0 {
        r := Raise(Errors.CriuError(ret));
      } else {
        r := Return(Fixnum(ret));
      }
    }

    method Check(status: int) returns (r: Outcome)
      requires engine.Valid()
      modifies this, engine
      ensures engine.Valid() && Performs(Op.Run(Libcriu.Check, status), r)
    {
      var ret := engine.Perform(Libcriu.Check, status);
      if ret < 0 {
        r := Raise(Errors.CriuError(ret));
      } else {
        r := Return(Fixnum(ret));
      }
    }

    method SetServiceAddress(address: string) returns (r: Outcome)
      requires engine.Valid()
      modifies this, engine
      ensures engine.Valid() && Performs(Op.SetServiceAddress(address), r)
    {
      engine.Configure(Libcriu.SetServiceAddress(address));
      socketFile := Some(address);
      r := Return(Str(socketFile.value));
    }

    /** `openResult` is what `open(path, O_DIRECTORY)` returned. */
    method SetImagesDir(path: string, openResult: int) returns (r: Outcome)
      requires engine.Valid()
      modifies this, engine
      ensures engine.Valid() && Performs(Op.SetImagesDir(path, openResult), r)
    {
      if openResult == -1 {
        r := Raise(Raised(ArgumentError, ImagesDirNotFound));
        return;
      }
      engine.Configure(Libcriu.SetImagesDirFd(openResult));
      imagesDir := Some(path);
      imagesFd := openResult;
      r := Return(Fixnum(imagesFd));
    }

    /** `openResult` is what `open(path, O_DIRECTORY)` returned. */
    method SetWorkDir(path: string, openResult: int) returns (r: Outcome)
      requires engine.Valid()
      modifies this, engine
      ensures engine.Valid() && Performs(Op.SetWorkDir(path, openResult), r)
    {
      if openResult == -1 {
        r := Raise(Raised(ArgumentError, WorkDirNotFound));
        return;
      }
      engine.Configure(Libcriu.SetWorkDirFd(openResult));
      workDir := Some(path);
      workFd := openResult;
      r := Return(Fixnum(workFd));
    }

    method SetPid(p: int) returns (r: Outcome)
      requires engine.Valid()
      modifies this, engine
      ensures engine.Valid() && Performs(Op.SetPid(p), r)
    {
      engine.Configure(Libcriu.SetPid(p));
      pid := p;
      r := Return(Fixnum(pid));
    }

    method SetShellJob(flag: bool) returns (r: Outcome)
      requires engine.Valid()
      modifies this, engine
      ensures engine.Valid() && Performs(Op.SetShellJob(flag), r)
    {
      engine.Configure(Libcriu.SetShellJob(flag));
      shellJob := flag;
      r := Return(Boolean(shellJob));
    }

    method SetTcpEstablished(flag: bool) returns (r: Outcome)
      requires engine.Valid()
      modifies this, engine
      ensures engine.Valid() && Performs(Op.SetTcpEstablished(flag), r)
    {
      engine.Configure(Libcriu.SetTcpEstablished(flag));
      tcpEstablished := flag;
      r := Return(Boolean(tcpEstablished));
    }

    method SetExtUnixSk(flag: bool) returns (r: Outcome)
      requires engine.Valid()
      modifies this, engine
      ensures engine.Valid() && Performs(Op.SetExtUnixSk(flag), r)
    {
      engine.Configure(Libcriu.SetExtUnixSk(flag));
      extUnixSk := flag;
      r := Return(Boolean(extUnixSk));
    }

    method SetLeaveRunning(flag: bool) returns (r: Outcome)
      requires engine.Valid()
      modifies this, engine
      ensures engine.Valid() && Performs(Op.SetLeaveRunning(flag), r)
    {
      engine.Configure(Libcriu.SetLeaveRunning(flag));
      leaveRunning := flag;
      r := Return(Boolean(leaveRunning));
    }

    method SetEvasiveDevices(flag: bool) returns (r: Outcome)
      requires engine.Valid()
      modifies this, engine
      ensures engine.Valid() && Performs(Op.SetEvasiveDevices(flag), r)
    {
      engine.Configure(Libcriu.SetEvasiveDevices(flag));
      evasiveDevices := flag;
      r := Return(Boolean(evasiveDevices));
    }

    /** Stores and forwards the log file; if no log level has been chosen
        yet, chooses the default and forwards it too. */
    method SetLogFile(path: string) returns (r: Outcome)
      requires engine.Valid()
      modifies this, engine
      ensures engine.Valid() && Performs(Op.SetLogFile(path), r)
    {
      ghost var before := engine.opts;
      engine.Configure(Libcriu.SetLogFile(path));
      logFile := Some(path);
      if logLevel == LogLevelUnset {
        logLevel := DefaultLogLevel;
        engine.Configure(Libcriu.SetLogLevel(logLevel));
        Libcriu.ApplyAllPair(before, Libcriu.SetLogFile(path), Libcriu.SetLogLevel(DefaultLogLevel));
      }
      r := Return(Str(logFile.value));
    }
  }
}
