/** Clients of the CRIU class: the repository's dump script, and what
    happens to a session when a second one shares the engine. */
module Clients {
  import opened Wrappers
  import opened Mruby
  import opened Session
  import Libcriu
  import MrbCriu

  /** The dump script: a session with a pid, an images directory, a service
      socket and a log file, then `dump`. When the directory opens, the
      engine ends up configured with exactly those values and the default
      log level, and the script's outcome is the dump's. When it does not,
      the script stops at `set_images_dir` with an argument error and the
      engine holds only the pid. */
  method DumpScript(engine: Libcriu.Engine, pid: int, images: string, openResult: int,
                    socket: string, log: string, status: int)
    returns (r: Outcome)
    requires engine.Valid()
    modifies engine
    ensures engine.Valid()
    ensures openResult == -1 ==>
      && r == Raise(Raised(ArgumentError, ImagesDirNotFound))
      && engine.opts == Libcriu.Unset.(pid := Some(pid))
    ensures openResult != -1 ==>
      && r == VerbOutcome(status)
      && engine.opts == Libcriu.Unset.(
           pid := Some(pid), imagesDirFd := Some(openResult), serviceAddress := Some(socket),
           logFile := Some(log), logLevel := Some(DefaultLogLevel))
  {
    var c := new MrbCriu.Criu(engine);
    r := c.SetPid(pid);
    Libcriu.ApplyAllSingle(Libcriu.Unset, Libcriu.SetPid(pid));
    assert c.logLevel == LogLevelUnset;
    ghost var o := engine.opts;
    r := c.SetImagesDir(images, openResult);
    if r.Raise? {
      return;
    }
    Libcriu.ApplyAllSingle(o, Libcriu.SetImagesDirFd(openResult));
    assert c.logLevel == LogLevelUnset;
    r := FinishDump(c, socket, log, status);
  }

  /** The rest of the dump script, on a session whose log level is unset. */
  method FinishDump(c: MrbCriu.Criu, socket: string, log: string, status: int)
    returns (r: Outcome)
    requires c.engine.Valid() && c.logLevel == LogLevelUnset
    modifies c, c.engine
    ensures c.engine.Valid()
    ensures r == VerbOutcome(status)
    ensures c.engine.opts == old(c.engine.opts).(
      serviceAddress := Some(socket), logFile := Some(log), logLevel := Some(DefaultLogLevel))
  {
    var engine := c.engine;
    ghost var o := engine.opts;
    r := c.SetServiceAddress(socket);
    Libcriu.ApplyAllSingle(o, Libcriu.SetServiceAddress(socket));
    assert c.logLevel == LogLevelUnset;
    o := engine.opts;
    r := c.SetLogFile(log);
    Libcriu.ApplyAllPair(o, Libcriu.SetLogFile(log), Libcriu.SetLogLevel(DefaultLogLevel));
    o := engine.opts;
    r := c.Dump(status);
    Libcriu.ApplyAllSingle(o, Libcriu.Invoke(Libcriu.Dump));
  }

  /** Two CRIU objects drive the one engine: creating a second one resets
      the options the first had forwarded, so the first session's record,
      which still names its images directory, no longer agrees with the
      engine. */
  method SecondSessionResetsFirst(engine: Libcriu.Engine, images: string, fd: int)
    returns (first: MrbCriu.Criu)
    requires engine.Valid() && fd != -1
    modifies engine
    ensures engine.Valid() && first.engine == engine
    ensures first.imagesDir == Some(images) && first.imagesFd == fd
    ensures engine.opts == Libcriu.Unset
    ensures !InSync(first.Contents(), engine.opts)
  {
    first := new MrbCriu.Criu(engine);
    var r := first.SetImagesDir(images, fd);
    var second := new MrbCriu.Criu(engine);
  }
}
