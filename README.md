# mruby-criu: a Dafny model of the CRIU binding

mruby-criu adds a `CRIU` class to mruby. The class is a thin binding to libcriu,
the client library of the CRIU checkpoint/restore service. A `CRIU` object
holds one `mrb_criu_data` record. Its setters store a value in that record,
forward the same value to libcriu's process-global option set, and return the
stored value. Its three verbs, `dump`, `restore` and `check`, call the engine.
A negative status from a verb is turned into a `RuntimeError` by a fixed
table of messages.

This project models that core and proves properties of it.

- `Session` (session.dfy) is the record as a value (`Record`) and each Ruby
  method as a step on values. `Updated` gives the record afterwards,
  `Forwarded` the libcriu calls made in order, and `Reply` the method's
  outcome (a returned `mrb_value`, or a raise). The properties are lemmas
  about one step and about any sequence of steps.
- `MrbCriu.Criu` (mrbcriu.dfy) is the CRIU object as a class. Its fields are
  the fields of `mrb_criu_data`, and it holds a reference to the one engine.
  Every method updates the fields in place and calls the engine. Each method
  is verified to do exactly what the matching `Session` step says
  (`Performs`).
- `Libcriu` (libcriu.dfy) is the engine. Its option record keeps the last
  value set for each option, and a ghost log records every call.
  `criu_init_opts` resets all options. The status code a verb returns comes in
  as a parameter.
- `Posix` (posix.dfy) logs `close` calls. What `open(path, O_DIRECTORY)`
  returned is passed to the directory setters as the parameter `openResult`.
- `Errors` (errors.dfy) is `mrb_criu_error`. `Errno` (errno.dfy) holds the
  errno names it switches on, with their generic Linux values. Only the
  facts that these values are distinct and positive matter.
- `Mruby` (mruby.dfy) holds the returned values and the exceptions.
  `mrb_raise` never returns, so a raise is an outcome, not a return.
- `Clients` (examples_client.dfy) runs the repository's dump script against
  the class. It also shows two objects sharing the global engine.

Behaviour of the code that the model keeps as written:

- `initialize` (`Criu.Initialize` and the constructor) sets only the three
  path strings, the log file and the log level. Nothing is promised about
  `pid`, the six flags or the two descriptors afterwards. A previous record
  is released with a plain free, so its descriptors are not closed.
- `set_images_dir` and `set_work_dir` overwrite the stored descriptor without
  closing the old one. They treat only `-1` from `open` as a failure.
- Freeing the record closes whatever `images_fd` and `work_fd` hold, even if
  they were never set.
- Setting a log file while the level is still the sentinel `-1` sets the
  level to 4 and forwards it. No Ruby method sets the log level directly.
- Three of the messages are built from two adjacent C string literals, so
  there is no space after the full stop ("...request.You should probably
  update CRIU").
- No switch arm in `mrb_criu_error` has a `break`. That is harmless, because
  `mrb_raise` does not return.

The binding does not harden its sessions. It does not validate the pid or
require an images directory before `dump` or `restore`. It has no guard that
allows one session at a time, its unknown-code exception does not carry the
code, and it does not release descriptors exactly once. The model follows the
code. `Clients.SecondSessionResetsFirst` shows the
consequence of the missing guard: a second object resets the engine under
the first.

## Model

| member | source | states |
|---|---|---|
| `Errors.ErrorMessage` | src/mrb_criu.c:49-68 | Each of -EBADE, -ECONNREFUSED, -ECOMM, -EINVAL and -EBADMSG gets its own fixed message, in both directions (that message is produced exactly for that code). Every other code gets the "Unknown error type code..." message, and only those codes get it. |
| `Errors.CriuError` | src/mrb_criu.c:49-68 | The translation is total. It always raises a `RuntimeError` with a non-empty message and never returns. |
| `Session.VerbReturnsOrRaises` | src/mrb_criu.c:94-122 | A verb returns exactly when the engine's status is non-negative, and then returns it unchanged. A negative status raises `RuntimeError` with the translated message. The record is untouched, and the only engine call is the verb itself. |
| `Session.ScalarSetterStoresForwardsEchoes` | src/mrb_criu.c:124-245 | `set_service_address`, `set_pid` and the five flag setters each write exactly one field and store their argument in it. Each makes exactly one engine call, carrying the same value, and returns that value. |
| `Session.OnlyWrittenFieldsChange` | src/mrb_criu.c:124-262 | No method changes a field outside the ones its C function assigns. `file_locks` is never written, and the log level is written only by `set_log_file`. |
| `Session.DirectoryNotFoundChangesNothing` | src/mrb_criu.c:137-173 | If `open` returns -1, `set_images_dir`/`set_work_dir` raise an `ArgumentError` and change neither the record nor the engine. |
| `Session.DirectoryOpenedIsStored` | src/mrb_criu.c:137-173 | Otherwise the engine receives the descriptor, the matching path and descriptor fields are set, and the descriptor is returned. |
| `Session.LogFileDefaultsLevel` | src/mrb_criu.c:247-262 | `set_log_file` always forwards the file name first. It forwards level 4 exactly when the level was -1. The level afterwards is 4 if it was -1 and unchanged otherwise. It returns the file name. |
| `Session.LogFileTwice` | src/mrb_criu.c:256-259 | A second `set_log_file` forwards only the file name, and the level stays at 4. |
| `Session.InitialisedInSync` | src/mrb_criu.c:81-89 | A freshly initialised record agrees with the engine just reset by `criu_init_opts`. |
| `Session.StepKeepsSync` | src/mrb_criu.c:124-262 | Every method keeps the record and the engine's options in agreement. Paths, address, log file and log level are set on both sides or neither, with equal values. Every other option the engine holds equals the local field. |
| `Session.AllKeepSync` | src/mrb_criu.c:124-262 | The same holds for any sequence of method calls on one session, as long as nothing else configures the engine. |
| `Session.LogLevelAfterAll` | src/mrb_criu.c:256-258 | After any sequence of calls, the level has moved from -1 to 4 if some call was `set_log_file`. Otherwise it has not moved. |
| `Session.LogLevelSentinelOrDefault` | src/mrb_criu.c:85 | From initialisation on, `log_level` is -1 until a log file is set and 4 from then on. It is never anything else. |
| `Session.LevelForwardedAtMostOnce` | src/mrb_criu.c:256-259 | A session forwards a log level to the engine exactly once if the level was unset and some call sets a log file, and never otherwise. |
| `Libcriu.InitForgetsHistory` | src/mrb_criu.c:89 | After `criu_init_opts`, the engine's configuration depends only on the calls made since then. |
| `MrbCriu.Criu.constructor` | src/mrb_criu.c:70-92 | `CRIU.new`: the path strings and the log file are NULL, `log_level` is -1, and the engine gets exactly one `criu_init_opts` and is reset. |
| `MrbCriu.Criu.Initialize` | src/mrb_criu.c:70-92 | Re-running `initialize` has the same effect on a live object. It cannot close the old descriptors. |
| `MrbCriu.Criu.Free` | src/mrb_criu.c:37-43 | Releasing the record closes `images_fd` and then `work_fd`, and nothing else. |
| `MrbCriu.Criu.Dump` | src/mrb_criu.c:94-102 | Performs the verb step above with `criu_dump`. |
| `MrbCriu.Criu.Restore` | src/mrb_criu.c:104-112 | Performs the verb step above with `criu_restore`. |
| `MrbCriu.Criu.Check` | src/mrb_criu.c:114-122 | Performs the verb step above with `criu_check`. |
| `MrbCriu.Criu.SetServiceAddress` | src/mrb_criu.c:124-135 | Performs the `set_service_address` step: record, engine call, returned string. |
| `MrbCriu.Criu.SetImagesDir` | src/mrb_criu.c:137-154 | Performs the `set_images_dir` step, including the raise when `open` failed. |
| `MrbCriu.Criu.SetWorkDir` | src/mrb_criu.c:156-173 | Performs the `set_work_dir` step, including the raise when `open` failed. |
| `MrbCriu.Criu.SetPid` | src/mrb_criu.c:175-185 | Performs the `set_pid` step. |
| `MrbCriu.Criu.SetShellJob` | src/mrb_criu.c:187-197 | Performs the `set_shell_job` step. |
| `MrbCriu.Criu.SetTcpEstablished` | src/mrb_criu.c:199-209 | Performs the `set_tcp_established` step. |
| `MrbCriu.Criu.SetExtUnixSk` | src/mrb_criu.c:211-221 | Performs the `set_ext_unix_sk` step. |
| `MrbCriu.Criu.SetLeaveRunning` | src/mrb_criu.c:223-233 | Performs the `set_leave_running` step. |
| `MrbCriu.Criu.SetEvasiveDevices` | src/mrb_criu.c:235-245 | Performs the `set_evasive_devices` step. |
| `MrbCriu.Criu.SetLogFile` | src/mrb_criu.c:247-262 | Performs the `set_log_file` step, including the conditional update and forwarding of the default level. |
| `Clients.DumpScript` | example/dump.rb:1-16 | The dump script leaves the engine configured with exactly the pid, the images descriptor, the socket, the log file and level 4, and returns what the dump returns. If the directory does not open, it stops with the argument error and the engine holds only the pid. |
| `Clients.SecondSessionResetsFirst` | src/mrb_criu.c:89 | Creating a second object resets the global engine. The first object's record still names its images directory but no longer agrees with the engine. |

## Left out

- The mruby glue has no logic and is not modelled: `mrb_get_args` marshalling, `mrb_str_new_cstr`/`mrb_fixnum_value` boxing, `DATA_PTR`/`DATA_TYPE`, the GC arena, and class and method registration (src/mrb_criu.c:18, 264-287).
- libcriu's internals and its defaults for unset options are not modelled. The engine only records configuration. The status a verb returns is a parameter.
- The real semantics of `open` and `close` are not modelled. `open`'s result is a parameter, and `close` is only logged.
- Deallocation is not modelled. `mrb_free` of the record, and the fact that the stored `char *` fields point into Ruby strings the collector may reclaim, are outside the model. Strings are stored as values.
- C `int` width is not modelled. `pid`, descriptors, status codes and the log level are unbounded integers, and the conversion from an mruby integer to a C `int` in `mrb_get_args` is left out.
- Fields that initialisation leaves uninitialised (`pid`, the six flags, `images_fd`, `work_fd`) are unconstrained. Nothing is proved about what release closes when they were never set.
- `file_locks` has no setter in the code. It is kept as a field that nothing writes.
- Hardened behaviour that the code does not implement is not modelled. That covers pid validation, a missing-images-directory error, a single-session guard, release-exactly-once and closing a replaced descriptor.
- `set_service_binary` and `restore_child`, used by example/restore_child.rb, are not defined by the binding, so they are not modelled.
- tasks/staticify.rb is build plumbing and not part of this model.
- There is no concurrency in the code, so none is modelled.
