# notify kernel module: a Dafny model

This project models `mymodule.c`, the notification half of a small Linux kernel module.

A kernel thread (`mykthread`) sleeps on a wait queue. Each time it is woken without a pending signal, it does the following:

- it takes the read side of `myevent_lock`;
- it looks at the event id `myevent_id2`, which a detector elsewhere publishes;
- it drops the lock;
- if the id is non-zero, it calls `run_umode_handler`.

`run_umode_handler` launches the user-mode program named in the sysctl string `myevent_str`:

- argv is `[handler, NULL]`;
- the environment is `HOME=/`, `PATH=...` and `TROUBLED_DS=<id>`;
- the `TROUBLED_DS` entry is printed into a 32-byte buffer that is kmalloc'ed for the purpose and freed afterwards.

Two procfs files read and write the `max_proc` and `max_mem_percent` thresholds as decimal text.

The model is imperative, like the source. The class `MyModule.NotifyModule` holds:

- the module's state: both thresholds, the handler string and the event id;
- a trace of the kernel calls the module makes (`effects`);
- a ghost flag saying whether the worker holds the read lock.

The methods are proved against specification functions:

- `DispatchEffects` and `WakeEffects` give the trace of one dispatch and one wake;
- `ParseThreshold` gives the value a write stores;
- `ReadText` gives the text a read produces.

The properties the source promises are lemmas about those functions: lock discipline, when and how often the handler is launched, the argument and environment vectors, the buffer size, and threshold round trips.

Files:

- `decimal.dfy` (module `Decimal`): the `%u` and `%d` conversions of `sprintf`, and `simple_strtoul` with base 10. Also their round trips and width bounds.
- `effects.dfy` (module `Effects`): the recorded kernel calls, and selecting the effects of one kind from a trace.
- `mymodule.dfy` (modules `MyModule` and `Walkthrough`): the module itself, plus three verified scenarios built from its methods: writes of "150abc" and "xyz" followed by a read of the process threshold; two wakes that see the same non-zero event id; and a wake with a signal pending.

Modelling choices:

- **Event id not cleared.** One might expect the worker to read and clear the event id. The code does not: `mykthread` only copies `myevent_id2` (mymodule.c:92-95). The model follows the code:
  - `WakeStep` ensures `eventId == old(eventId)`;
  - `RepeatedWakesRelaunch` proves that n wakes with the same non-zero id, a non-empty handler and a successful kmalloc each time launch the same command line n times.
- **Signed event id.** The event id is an `unsigned int`, but `run_umode_handler` takes an `int`. `AsInt32` models that conversion (two's complement), so `TROUBLED_DS` can be negative.
- **Threshold parsing.** `simple_strtoul` skips no white space and accepts no sign. It accumulates in an `unsigned long`, and the result is truncated to the 32-bit threshold. The model takes `unsigned long` as 64 bits wide. On a 32-bit kernel it is 32 bits. The stored threshold is the same either way: `TruncateWrapped` shows that wrapping at 64 bits and then truncating to 32 bits is truncating to 32 bits.
- **Environment inputs.** Three things come from the environment and become parameters:
  - whether `kmalloc` succeeds (`allocOk`);
  - what `call_usermodehelper` returns (`helperStatus`, ignored as in the source);
  - whether a signal is pending when the thread wakes (`signalPending`).
- **Characters.** One `char` stands for one byte.

## Model

| member | source | states |
|---|---|---|
| Decimal.FormatUnsigned | mymodule.c:137 | `%u` text is a non-empty run of decimal digits with no leading zero: it is exactly "0" for 0, and starts with '0' for no other value |
| Decimal.FormatSigned | mymodule.c:119 | `%d` text starts with '-' exactly when the value is negative; every other character is a digit |
| Decimal.StrToUL | mymodule.c:150 | simple_strtoul's result is below 2^64, and equals the value of the leading digits whenever that value fits |
| Decimal.ParseFormatted | mymodule.c:137 | the digits `%u` prints, followed by anything that is not a digit, parse back to the number printed |
| Decimal.ParseFormattedSigned | mymodule.c:119 | the text `%d` prints reads back as the same integer, negative values included |
| Decimal.UnsignedWidth | mymodule.c:137 | `%u` of an unsigned int prints at most ten digits |
| Decimal.SignedWidth | mymodule.c:119 | `%d` of an int prints at most eleven characters |
| Decimal.TruncateWrapped | mymodule.c:150 | wrapping at 64 bits and then storing into 32 bits is the same as truncating to 32 bits |
| MyModule.AsInt32 | mymodule.c:93-95 | the int handed to run_umode_handler has the same 32 bits as the unsigned id, and is negative exactly when the top bit is set |
| MyModule.TroubledDs | mymodule.c:117-119 | the TROUBLED_DS entry has no NUL, starts with "TROUBLED_DS=", and with its NUL fits the 32-byte buffer for every int |
| MyModule.TroubledDsRoundTrip | mymodule.c:119 | the value of TROUBLED_DS reads back as the event id |
| MyModule.DispatchEffects | mymodule.c:107-130 | one dispatch makes one to four kernel calls, and the first is the entry with the given id |
| MyModule.WakeEffects | mymodule.c:88-98 | a wake with a signal pending makes no call; otherwise the first two calls take and drop the read lock |
| MyModule.ParseThreshold | mymodule.c:148-150 | the stored threshold is the leading digits' value mod 2^32; it is 0 when the input does not start with a digit, and the value itself when that fits in 32 bits |
| MyModule.ReadText | mymodule.c:137 | the read text is 2 to 11 characters ending in a newline, and parsing it gives back the threshold printed |
| MyModule.UpToNul | mymodule.c:126-127 | the C string a buffer holds is the prefix before its first NUL, and contains no NUL |
| MyModule.UpToNulOfTerminated | mymodule.c:119-126 | a buffer holding text then a NUL is read as exactly that text, whatever follows |
| MyModule.DispatchOfKind | mymodule.c:107-130 | for each kind, the calls of that kind in a dispatch: one entry; one kmalloc for a non-empty handler; one launch and one kfree when that kmalloc also succeeds; no lock call |
| MyModule.EmptyHandlerLaunchesNothing | mymodule.c:113 | an empty handler name: the dispatch allocates, launches and frees nothing |
| MyModule.DispatchLaunchesOnce | mymodule.c:115-129 | a non-empty handler name: one 32-byte kmalloc, right after the entry; if it succeeds, exactly one launch follows it, of the handler with argv [handler, NULL] and env [HOME=/, PATH=..., TROUBLED_DS=%d, NULL], then one kfree, last (four calls in all); if it fails, no launch and no kfree (two calls) |
| MyModule.DispatchLeavesLockAlone | mymodule.c:107-130 | a dispatch neither takes nor drops the event lock, and it is entered exactly once |
| MyModule.WakeOfKind | mymodule.c:88-98 | selecting by kind from a wake yields the lock's own calls, then the dispatch's |
| MyModule.WakeReleasesThenDispatches | mymodule.c:88-98 | a wake takes and drops the lock before anything else, takes no lock after that, dispatches once exactly when the id seen is non-zero, and launches the handler exactly when the id is non-zero, the name is non-empty and kmalloc succeeds |
| MyModule.RepeatedWakesRelaunch | mymodule.c:84-100 | since the id is never cleared, n wakes with the same non-zero id, a non-empty handler name and a successful kmalloc each time launch the same command line n times |
| MyModule.ThresholdRoundTrip | mymodule.c:133-153 | writing a threshold's `%u` text, with any non-digit suffix, stores that threshold; reading it back gives the same text plus a newline |
| MyModule.NotifyModule.constructor | mymodule.c:28-34 | the module starts with the given thresholds and event id, an empty handler name, no recorded calls and the lock free |
| MyModule.NotifyModule.SetHandler | mymodule.c:34-42 | a store through the sysctl entry replaces the handler name |
| MyModule.NotifyModule.ReadLockAcquire | mymodule.c:90 | taking the read lock records it, and the lock is then held |
| MyModule.NotifyModule.ReadLockRelease | mymodule.c:94-97 | dropping the read lock records it, and the lock is then free |
| MyModule.NotifyModule.ReadEventId | mymodule.c:92-93 | myevent_id2 is read only while the read lock is held, and the value read is the current event id |
| MyModule.NotifyModule.RunUmodeHandler | mymodule.c:107-130 | run_umode_handler, called without the lock, appends exactly the calls DispatchEffects gives |
| MyModule.NotifyModule.LaunchWithBuffer | mymodule.c:119-129 | with the buffer allocated, the calls made are the launch with the vectors LaunchOf gives, then kfree |
| MyModule.NotifyModule.WakeStep | mymodule.c:84-100 | one loop iteration: it terminates exactly when a signal is pending; otherwise it returns to waiting having appended exactly WakeEffects; the lock is free afterwards and the event id unchanged |
| Walkthrough.TwoWakesLaunchTwice | mymodule.c:84-100 | two successful wakes with the same non-zero id and a non-empty handler name launch the same command line twice |
| MyModule.NotifyModule.ReadProc | mymodule.c:133-139 | read_func_proc writes ReadText(max_proc) and a NUL into the page, returns its length, and leaves the rest of the page alone |
| MyModule.NotifyModule.ReadMem | mymodule.c:156-162 | read_func_mem does the same for max_mem_percent |
| MyModule.NotifyModule.WriteProc | mymodule.c:142-153 | write_func_proc stores ParseThreshold of the first count characters into max_proc, and returns count |
| MyModule.NotifyModule.WriteMem | mymodule.c:165-176 | write_func_mem does the same for max_mem_percent |
| MyModule.PrintInto | mymodule.c:137 | sprintf copies the text into the page, NUL-terminates it, returns its length, and changes nothing after the NUL |
| MyModule.PrintTroubledDs | mymodule.c:119-126 | the buffer starts with the TROUBLED_DS text of the id and its NUL, and the C string the kernel reads from the buffer as the envp entry is exactly that text |
| MyModule.FillEnvp | mymodule.c:123-126 | envp becomes [HOME=/, PATH=..., the entry, NULL] |
| MyModule.CopyFromUser | mymodule.c:148 | the local buffer holds the first count characters the writer supplied |

## Left out

- Thread lifecycle (mymodule.c:58, 73-86, 102-104):
  - `kernel_thread`, `daemonize` and `allow_signal`;
  - the wait queue and `schedule`;
  - the state changes around the loop.
  Only one iteration after `schedule()` returns is modelled (`WakeStep`), and a pending signal is a parameter.
- WakeStep: the source reads `myevent_id2` twice under the lock, once for the test and once for the copy (mymodule.c:92-93). The model reads it once (`ReadEventId`), because nothing can change it while the read lock is held.
- Concurrency:
  - the detector that sets `myevent_id2` is declared only as `extern` (mymodule.c:27-31). Its code is not part of the source and is not modelled;
  - `myevent_lock` is not a real reader–writer lock. The model records its use and tracks, as a ghost flag, whether the worker holds it.
- Module init and exit (mymodule.c:44-68): registering the sysctl table and the procfs entries, and removing them.
- `proc_dostring` (mymodule.c:36-42) is not modelled. `SetHandler` stores any string of fewer than 256 characters with no NUL, which is the string `myevent_str` can then hold.
- The `kmalloc` failure and the `call_usermodehelper` result are not decided by the model. The first is a parameter. The second is taken as a parameter and ignored, as the source ignores it. The launch itself is recorded in the trace, not performed.
- Failure of `copy_from_user` is not modelled: the copy always succeeds.
- WriteProc: `char buf[count]` (mymodule.c:145) is a variable-length stack array with no bound. A large `count` can overflow the kernel stack, and `count == 0` gives a zero-length array. The model's `new char[count]` always succeeds.
- WriteMem: the same unbounded `char buf[count]` (mymodule.c:168) is not modelled either.
- The `wait` argument `0` of `call_usermodehelper` (mymodule.c:127) is not recorded in the `UsermodeHelper` effect.
- `notify.c`, the user-space handler program the module launches, is not part of this model.
- WriteProc: `buf[count]` in the source is not NUL-terminated, so `simple_strtoul` may read past its end. The model parses only the `count` characters written, a weaker reading than the source's undefined behaviour.
- WriteMem: the same over-read of the unterminated `buf[count]` as WriteProc is not modelled; the model parses only the `count` characters written.
- WriteProc: the returned `count` is not truncated to the handler's `int` return type.
- WriteMem: the returned `count` is not truncated to the `int` return type either.
- ReadProc and ReadMem ignore the procfs `start`, `off`, `count` and `eof` arguments, as the source does. The page is assumed to have room for the text.
- `DispatchEffects` starts with an entry-marker effect (`HandlerCall`). It records that run_umode_handler was entered and corresponds to no kernel call.
