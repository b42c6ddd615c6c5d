/**
  The notification kernel module: a worker that, on each wake, looks at the event id the
  detector published and hands it to a user-mode handler program, plus the two procfs
  threshold files. The kernel primitives it calls are recorded in an effect trace.
*/
module MyModule {
  import opened Decimal
  import opened Effects

  /** The size of the buffer kmalloc'ed for the TROUBLED_DS entry. */
  const KMALLOC_SIZE: nat := 32
  /** sizeof(myevent_str): the handler name plus its terminating NUL. */
  const HANDLER_CAPACITY: nat := 256
  const HOME_ENV: string := "HOME=/"
  const PATH_ENV: string := "PATH=/sbin:/usr/sbin:/bin:/usr/bin"
  const TROUBLED_DS_PREFIX: string := "TROUBLED_DS="
  /** Room a read handler needs in its page: ten digits, the newline and the NUL sprintf adds. */
  const READ_TEXT_CAPACITY: nat := 12

  /** The C string held in myevent_str; the empty string is what `myevent_str[0] == 0` tests for. */
  type HandlerName = s: string | |s| < HANDLER_CAPACITY && '\0' !in s witness ""

  datatype WorkerState = Waiting | Terminated

  /** The `unsigned int` event id passed as run_umode_handler's `int` parameter: same 32 bits. */
  function AsInt32(u: uint32): (x: int32)
    ensures x % UINT32_MODULUS == u
    ensures u < 0x8000_0000 <==> x >= 0
  {
    if u < 0x8000_0000 then u else u - 0x1_0000_0000
  }

  /** What `sprintf(buffer, "TROUBLED_DS=%d", event_id)` writes, without its NUL. */
  function TroubledDs(id: int32): (s: string)
    ensures |s| + 1 <= KMALLOC_SIZE
    ensures '\0' !in s
    ensures |TROUBLED_DS_PREFIX| < |s| && s[..|TROUBLED_DS_PREFIX|] == TROUBLED_DS_PREFIX
  {
    SignedWidth(id);
    var s := TROUBLED_DS_PREFIX + FormatSigned(id);
    assert forall i | 0 <= i < |s| :: s[i] != '\0' by {
      forall i | 0 <= i < |s| ensures s[i] != '\0' {
        if i >= |TROUBLED_DS_PREFIX| {
          assert s[i] == FormatSigned(id)[i - |TROUBLED_DS_PREFIX|];
        }
      }
    }
    s
  }

  /** The handler recovers the event id from the value of its TROUBLED_DS variable. */
  lemma TroubledDsRoundTrip(id: int32)
    ensures ParseSigned(TroubledDs(id)[|TROUBLED_DS_PREFIX|..]) == id
  {
    assert TroubledDs(id)[|TROUBLED_DS_PREFIX|..] == FormatSigned(id);
    ParseFormattedSigned(id);
  }

  function HandlerArgv(handler: string): seq<CStr> {
    [Str(handler), Null]
  }

  function HandlerEnvp(id: int32): seq<CStr> {
    [Str(HOME_ENV), Str(PATH_ENV), Str(TroubledDs(id)), Null]
  }

  /** The launch request run_umode_handler makes for a non-empty handler. */
  function LaunchOf(handler: string, id: int32): Effect {
    UsermodeHelper(handler, HandlerArgv(handler), HandlerEnvp(id))
  }

  /** The effects of one run_umode_handler(id) with handler name `handler`; `allocOk` says whether kmalloc succeeds. */
  function DispatchEffects(handler: string, id: int32, allocOk: bool): (es: seq<Effect>)
    ensures 1 <= |es| <= 4 && es[0] == HandlerCall(id)
  {
    [HandlerCall(id)] +
    if handler == [] then []
    else [Kmalloc(KMALLOC_SIZE, allocOk)] + if allocOk then [LaunchOf(handler, id)] + [Kfree] else []
  }

  /** The effects of one wake of the worker that sees `seen` in myevent_id2. */
  function WakeEffects(signalPending: bool, seen: uint32, handler: string, allocOk: bool): (es: seq<Effect>)
    ensures signalPending ==> es == []
    ensures !signalPending ==> 2 <= |es| && es[..2] == [ReadLock, ReadUnlock]
  {
    if signalPending then []
    else [ReadLock] + ([ReadUnlock] + if seen != 0 then DispatchEffects(handler, AsInt32(seen), allocOk) else [])
  }

  /** The value a threshold write stores: simple_strtoul's result truncated to `unsigned int`. */
  function ParseThreshold(input: string): (v: uint32)
    ensures v == ParseUnsigned(input) % UINT32_MODULUS
    ensures DigitRun(input) == 0 ==> v == 0
    ensures ParseUnsigned(input) < UINT32_MODULUS ==> v == ParseUnsigned(input)
  {
    TruncateWrapped(ParseUnsigned(input));
    StrToUL(input) % UINT32_MODULUS
  }

  /** What `sprintf(page, "%u\n", v)` writes, without its NUL. */
  function ReadText(v: uint32): (s: string)
    ensures 2 <= |s| < READ_TEXT_CAPACITY && s[|s| - 1] == '\n'
    ensures ParseThreshold(s) == v
  {
    UnsignedWidth(v);
    ParseFormatted(v, "\n");
    FormatUnsigned(v) + "\n"
  }

  /** The C string at the start of `s`: everything before the first NUL. */
  function UpToNul(s: seq<char>): (r: string)
    ensures |r| <= |s| && r == s[..|r|] && '\0' !in r
    ensures |r| < |s| ==> s[|r|] == '\0'
  {
    if s == [] || s[0] == '\0' then [] else [s[0]] + UpToNul(s[1..])
  }

  lemma {:induction false} UpToNulOfTerminated(text: string, tail: seq<char>)
    requires '\0' !in text
    ensures UpToNul(text + ['\0'] + tail) == text
  {
    if text != [] {
      assert (text + ['\0'] + tail)[1..] == text[1..] + ['\0'] + tail;
      UpToNulOfTerminated(text[1..], tail);
    }
  }

  /** Every kind of effect, selected from a dispatch, comes out in the dispatcher's order. */
  lemma DispatchOfKind(handler: string, id: int32, allocOk: bool, k: Kind)
    ensures OfKind(DispatchEffects(handler, id, allocOk), k) ==
      (if k == Call then [HandlerCall(id)] else []) +
      if handler == [] then [] else
        (if k == Alloc then [Kmalloc(KMALLOC_SIZE, allocOk)] else []) +
        if !allocOk then [] else
          (if k == Launch then [LaunchOf(handler, id)] else []) + (if k == Free then [Kfree] else [])
  {
    var launch := LaunchOf(handler, id);
    var rest := if allocOk then [launch] + [Kfree] else [];
    var tail := if handler == [] then [] else [Kmalloc(KMALLOC_SIZE, allocOk)] + rest;
    OfKindCons(HandlerCall(id), tail, k);
    if handler != [] {
      OfKindCons(Kmalloc(KMALLOC_SIZE, allocOk), rest, k);
      if allocOk {
        OfKindCons(launch, [Kfree], k);
        OfKindSingle(Kfree, k);
      }
    }
  }

  /** An empty handler name: the dispatcher is entered, but allocates, launches and frees nothing. */
  lemma EmptyHandlerLaunchesNothing(id: int32, allocOk: bool)
    ensures DispatchEffects([], id, allocOk) == [HandlerCall(id)]
    ensures OfKind(DispatchEffects([], id, allocOk), Alloc) == []
    ensures OfKind(DispatchEffects([], id, allocOk), Launch) == []
    ensures OfKind(DispatchEffects([], id, allocOk), Free) == []
  {
    DispatchOfKind([], id, allocOk, Alloc);
    DispatchOfKind([], id, allocOk, Launch);
    DispatchOfKind([], id, allocOk, Free);
  }

  /**
    A non-empty handler name: exactly one allocation of 32 bytes is attempted, right after the
    entry; when it succeeds, exactly one launch follows it, of the handler with argv
    [handler, NULL] and the fixed environment, and then the buffer is freed, last; when it
    fails, nothing is launched or freed.
  */
  lemma DispatchLaunchesOnce(handler: string, id: int32, allocOk: bool)
    requires handler != []
    ensures var es := DispatchEffects(handler, id, allocOk);
      && OfKind(es, Alloc) == [Kmalloc(KMALLOC_SIZE, allocOk)]
      && OfKind(es, Launch) == (if allocOk then [UsermodeHelper(handler, [Str(handler), Null],
           [Str(HOME_ENV), Str(PATH_ENV), Str(TROUBLED_DS_PREFIX + FormatSigned(id)), Null])] else [])
      && OfKind(es, Free) == (if allocOk then [Kfree] else [])
      && |es| == (if allocOk then 4 else 2)
      && es[1] == Kmalloc(KMALLOC_SIZE, allocOk)
      && (allocOk ==> es[2] == LaunchOf(handler, id) && es[3] == Kfree)
  {
    DispatchOfKind(handler, id, allocOk, Alloc);
    DispatchOfKind(handler, id, allocOk, Launch);
    DispatchOfKind(handler, id, allocOk, Free);
    assert LaunchOf(handler, id) == UsermodeHelper(handler, [Str(handler), Null],
      [Str(HOME_ENV), Str(PATH_ENV), Str(TROUBLED_DS_PREFIX + FormatSigned(id)), Null]);
  }

  /** The dispatcher neither takes nor drops the event lock, and it is entered exactly once. */
  lemma DispatchLeavesLockAlone(handler: string, id: int32, allocOk: bool)
    ensures var es := DispatchEffects(handler, id, allocOk);
      OfKind(es, Lock) == [] && OfKind(es, Unlock) == [] && OfKind(es, Call) == [HandlerCall(id)]
  {
    DispatchOfKind(handler, id, allocOk, Lock);
    DispatchOfKind(handler, id, allocOk, Unlock);
    DispatchOfKind(handler, id, allocOk, Call);
  }

  /** Every kind of effect, selected from a wake without a signal: the lock's own, then the dispatcher's. */
  lemma WakeOfKind(seen: uint32, handler: string, allocOk: bool, k: Kind)
    ensures var tail := if seen != 0 then DispatchEffects(handler, AsInt32(seen), allocOk) else [];
      && WakeEffects(false, seen, handler, allocOk)[2..] == tail
      && OfKind(WakeEffects(false, seen, handler, allocOk), k) ==
        (if k == Lock then [ReadLock] else []) + (if k == Unlock then [ReadUnlock] else []) + OfKind(tail, k)
  {
    var tail := if seen != 0 then DispatchEffects(handler, AsInt32(seen), allocOk) else [];
    OfKindCons(ReadLock, [ReadUnlock] + tail, k);
    OfKindCons(ReadUnlock, tail, k);
  }

  /**
    A wake with no signal pending takes the read lock and releases it before anything else
    happens: no lock effect follows, and the handler is entered once, with the id seen, exactly
    when that id is non-zero.
  */
  lemma WakeReleasesThenDispatches(seen: uint32, handler: string, allocOk: bool)
    ensures var es := WakeEffects(false, seen, handler, allocOk);
      && es[..2] == [ReadLock, ReadUnlock]
      && OfKind(es[2..], Lock) == [] && OfKind(es[2..], Unlock) == []
      && OfKind(es, Call) == (if seen != 0 then [HandlerCall(AsInt32(seen))] else [])
      && OfKind(es, Launch) == (if seen != 0 && handler != [] && allocOk
                                then [LaunchOf(handler, AsInt32(seen))] else [])
  {
    var es := WakeEffects(false, seen, handler, allocOk);
    assert OfKind(es[2..], Lock) == [] && OfKind(es[2..], Unlock) == [] by {
      WakeOfKind(seen, handler, allocOk, Lock);
      if seen != 0 {
        DispatchOfKind(handler, AsInt32(seen), allocOk, Lock);
        DispatchOfKind(handler, AsInt32(seen), allocOk, Unlock);
      }
    }
    assert OfKind(es, Call) == (if seen != 0 then [HandlerCall(AsInt32(seen))] else []) by {
      WakeOfKind(seen, handler, allocOk, Call);
      if seen != 0 {
        DispatchOfKind(handler, AsInt32(seen), allocOk, Call);
      }
    }
    assert OfKind(es, Launch) == (if seen != 0 && handler != [] && allocOk
                                  then [LaunchOf(handler, AsInt32(seen))] else []) by {
      WakeOfKind(seen, handler, allocOk, Launch);
      if seen != 0 {
        DispatchOfKind(handler, AsInt32(seen), allocOk, Launch);
      }
    }
  }

  /**
    The worker never clears the event id, so while it stays set every wake launches the
    handler again: n wakes with the same id launch the same command line n times.
  */
  lemma {:induction false} RepeatedWakesRelaunch(seen: uint32, handler: string, n: nat)
    requires seen != 0 && handler != []
    ensures OfKind(Repeat(WakeEffects(false, seen, handler, true), n), Launch)
         == Repeat([LaunchOf(handler, AsInt32(seen))], n)
  {
    if n > 0 {
      var step := WakeEffects(false, seen, handler, true);
      var launches := [LaunchOf(handler, AsInt32(seen))];
      assert OfKind(step, Launch) == launches by {
        WakeReleasesThenDispatches(seen, handler, true);
      }
      calc {
        OfKind(Repeat(step, n), Launch);
        OfKind(step + Repeat(step, n - 1), Launch);
        { OfKindAppend(step, Repeat(step, n - 1), Launch); }
        OfKind(step, Launch) + OfKind(Repeat(step, n - 1), Launch);
        { RepeatedWakesRelaunch(seen, handler, n - 1); }
        launches + Repeat(launches, n - 1);
      }
    }
  }

  /** A threshold written as the decimal text of `n`, followed by anything but a digit, reads back as `n`. */
  lemma ThresholdRoundTrip(n: uint32, rest: string)
    requires rest == [] || !IsDigit(rest[0])
    ensures ParseThreshold(FormatUnsigned(n) + rest) == n
    ensures ReadText(ParseThreshold(FormatUnsigned(n) + rest)) == FormatUnsigned(n) + "\n"
  {
    ParseFormatted(n, rest);
  }

  /** The module's state: the stored thresholds, the handler name and the detector's event id. */
  class NotifyModule {
    var maxProc: uint32        // max_proc
    var maxMemPercent: uint32  // max_mem_percent
    var handler: HandlerName   // myevent_str
    var eventId: uint32        // myevent_id2, written by the detector
    var effects: seq<Effect>   // the kernel calls made so far
    ghost var readLockHeld: bool

    /** The globals at load time: myevent_str is all zero; the others are the detector's. */
    constructor (maxProc0: uint32, maxMemPercent0: uint32, eventId0: uint32)
      ensures maxProc == maxProc0 && maxMemPercent == maxMemPercent0 && eventId == eventId0
      ensures handler == [] && effects == [] && !readLockHeld
    {
      maxProc, maxMemPercent, eventId := maxProc0, maxMemPercent0, eventId0;
      handler := [];
      effects := [];
      readLockHeld := false;
    }

    /** A store into myevent_str through its sysctl entry, as far as the dispatcher sees it. */
    method SetHandler(name: HandlerName)
      modifies this`handler
      ensures handler == name
    {
      handler := name;
    }

    method ReadLockAcquire()
      requires !readLockHeld
      modifies this`effects, this`readLockHeld
      ensures readLockHeld && effects == old(effects) + [ReadLock]
    {
      effects := effects + [ReadLock];
      readLockHeld := true;
    }

    method ReadLockRelease()
      requires readLockHeld
      modifies this`effects, this`readLockHeld
      ensures !readLockHeld && effects == old(effects) + [ReadUnlock]
    {
      effects := effects + [ReadUnlock];
      readLockHeld := false;
    }

    /** A read of myevent_id2, which the worker may only make while it holds the read lock. */
    method ReadEventId() returns (v: uint32)
      requires readLockHeld
      ensures v == eventId
    {
      v := eventId;
    }

    /**
      run_umode_handler(id). `allocOk` is whether kmalloc succeeds and `helperStatus`
      what call_usermodehelper returns, which the source ignores. Must not run under the lock.
    */
    method RunUmodeHandler(id: int32, allocOk: bool, helperStatus: int)
      requires !readLockHeld
      modifies this`effects
      ensures effects == old(effects) + DispatchEffects(handler, id, allocOk)
    {
      ghost var before := effects;
      effects := effects + [HandlerCall(id)];
      var i := 0;
      var argv := new CStr[2];
      var envp := new CStr[4];
      if handler == [] {
        return;
      }
      argv[i] := Str(handler);
      i := i + 1;
      effects := effects + [Kmalloc(KMALLOC_SIZE, allocOk)];
      if !allocOk {
        assert effects == before + ([HandlerCall(id)] + [Kmalloc(KMALLOC_SIZE, allocOk)]);
        return;
      }
      var buffer := new char[KMALLOC_SIZE];
      LaunchWithBuffer(id, buffer, argv, i, envp, helperStatus);
      assert effects == before + ([HandlerCall(id)] + ([Kmalloc(KMALLOC_SIZE, allocOk)] + ([LaunchOf(handler, id)] + [Kfree])));
    }

    /**
      The rest of run_umode_handler once kmalloc has returned `buffer`: print the TROUBLED_DS
      entry into it, terminate argv at `i`, fill envp, launch the handler, free the buffer.
    */
    method LaunchWithBuffer(id: int32, buffer: array<char>, argv: array<CStr>, i: int,
                            envp: array<CStr>, helperStatus: int)
      requires buffer.Length == KMALLOC_SIZE && argv.Length == 2 && envp.Length == 4
      requires i == 1 && argv[0] == Str(handler)
      requires argv != envp
      modifies buffer, argv, envp, this`effects
      ensures effects == old(effects) + [LaunchOf(handler, id), Kfree]
    {
      var entry := PrintTroubledDs(id, buffer);
      argv[i] := Null;
      assert argv[..] == HandlerArgv(handler) by {
        assert argv[..] == [argv[0], argv[1]];
      }
      FillEnvp(envp, entry);
      var value := helperStatus;
      assert UsermodeHelper(argv[0].text, argv[..], envp[..]) == LaunchOf(handler, id);
      effects := effects + [UsermodeHelper(argv[0].text, argv[..], envp[..])];
      effects := effects + [Kfree];
    }

    /**
      One iteration of mykthread's loop after schedule() returns. The event id is read under
      the read lock and is left as it was: the worker does not clear it.
    */
    method WakeStep(signalPending: bool, allocOk: bool, helperStatus: int) returns (next: WorkerState)
      requires !readLockHeld
      modifies this`effects, this`readLockHeld
      ensures next == (if signalPending then Terminated else Waiting)
      ensures effects == old(effects) + WakeEffects(signalPending, eventId, handler, allocOk)
      ensures !readLockHeld && eventId == old(eventId)
    {
      if signalPending {
        return Terminated;
      }
      ghost var before := effects;
      ghost var tail: seq<Effect> := [];
      ReadLockAcquire();
      var seen := ReadEventId();
      if seen != 0 {
        ReadLockRelease();
        RunUmodeHandler(AsInt32(seen), allocOk, helperStatus);
        tail := DispatchEffects(handler, AsInt32(seen), allocOk);
      } else {
        ReadLockRelease();
      }
      assert effects == before + [ReadLock] + [ReadUnlock] + tail;
      assert before + [ReadLock] + [ReadUnlock] + tail == before + ([ReadLock] + ([ReadUnlock] + tail));
      return Waiting;
    }

    /** read_func_proc: `sprintf(page, "%u\n", max_proc)`, returning the length printed. */
    method ReadProc(page: array<char>) returns (len: nat)
      requires READ_TEXT_CAPACITY <= page.Length
      modifies page
      ensures len == |ReadText(maxProc)| && page[..len] == ReadText(maxProc) && page[len] == '\0'
      ensures page[len + 1..] == old(page[len + 1..])
    {
      len := PrintInto(page, ReadText(maxProc));
    }

    /** read_func_mem: `sprintf(page, "%u\n", max_mem_percent)`, returning the length printed. */
    method ReadMem(page: array<char>) returns (len: nat)
      requires READ_TEXT_CAPACITY <= page.Length
      modifies page
      ensures len == |ReadText(maxMemPercent)| && page[..len] == ReadText(maxMemPercent) && page[len] == '\0'
      ensures page[len + 1..] == old(page[len + 1..])
    {
      len := PrintInto(page, ReadText(maxMemPercent));
    }

    /** write_func_proc: parse the first `count` bytes of the user's buffer into max_proc. */
    method WriteProc(buffer: seq<char>, count: nat) returns (written: nat)
      requires count <= |buffer|
      modifies this`maxProc
      ensures maxProc == ParseThreshold(buffer[..count]) && written == count
    {
      var buf := new char[count];
      CopyFromUser(buf, buffer);
      maxProc := ParseThreshold(buf[..]);
      written := count;
    }

    /** write_func_mem: parse the first `count` bytes of the user's buffer into max_mem_percent. */
    method WriteMem(buffer: seq<char>, count: nat) returns (written: nat)
      requires count <= |buffer|
      modifies this`maxMemPercent
      ensures maxMemPercent == ParseThreshold(buffer[..count]) && written == count
    {
      var buf := new char[count];
      CopyFromUser(buf, buffer);
      maxMemPercent := ParseThreshold(buf[..]);
      written := count;
    }
  }

  /** sprintf's store of `text` and its terminating NUL at the start of `page`. */
  method PrintInto(page: array<char>, text: string) returns (len: nat)
    requires |text| < page.Length
    modifies page
    ensures len == |text| && page[..len] == text && page[len] == '\0'
    ensures page[len + 1..] == old(page[len + 1..])
  {
    forall k | 0 <= k < |text| {
      page[k] := text[k];
    }
    page[|text|] := '\0';
    len := |text|;
  }

  /** `envp[i++] = HOME; envp[i++] = PATH; envp[i++] = entry; envp[i] = 0;` */
  method FillEnvp(envp: array<CStr>, entry: string)
    requires envp.Length == 4
    modifies envp
    ensures envp[..] == [Str(HOME_ENV), Str(PATH_ENV), Str(entry), Null]
  {
    var i := 0;
    envp[i] := Str(HOME_ENV);
    i := i + 1;
    envp[i] := Str(PATH_ENV);
    i := i + 1;
    envp[i] := Str(entry);
    i := i + 1;
    envp[i] := Null;
  }

  /**
    sprintf(buffer, "TROUBLED_DS=%d", id), then the string the kernel sees when it reads
    `buffer` as the NUL-terminated entry of envp.
  */
  method PrintTroubledDs(id: int32, buffer: array<char>) returns (entry: string)
    requires buffer.Length == KMALLOC_SIZE
    modifies buffer
    ensures entry == TroubledDs(id)
    ensures buffer[..|entry| + 1] == entry + ['\0'] && entry == UpToNul(buffer[..])
  {
    var text := TroubledDs(id);
    var printed := PrintInto(buffer, text);
    entry := UpToNul(buffer[..]);
    assert buffer[..] == text + ['\0'] + buffer[printed + 1..] by {
      assert buffer[..] == buffer[..printed] + [buffer[printed]] + buffer[printed + 1..];
    }
    UpToNulOfTerminated(text, buffer[printed + 1..]);
  }

  /** copy_from_user(dst, src, dst.Length), assumed to succeed. */
  method CopyFromUser(dst: array<char>, src: seq<char>)
    requires dst.Length <= |src|
    modifies dst
    ensures dst[..] == src[..dst.Length]
  {
    forall k | 0 <= k < dst.Length {
      dst[k] := src[k];
    }
  }
}

/**
  Three verified scenarios built from the methods above: writes of "150abc" and "xyz" followed by a read of the
  process threshold; two wakes that see the same non-zero event id; and a wake with a
  signal pending.
*/
module Walkthrough {
  import opened Decimal
  import opened Effects
  import opened MyModule

  /** Writes of "150abc" and "xyz", then a read of the process threshold. */
  method ThresholdScenario() {
    assert FormatUnsigned(150) == "150" by {
      assert FormatUnsigned(1) == "1";
      assert FormatUnsigned(15) == FormatUnsigned(1) + "5";
    }
    var m := new NotifyModule(0, 0, 0);
    var written := m.WriteProc("150abc", 6);
    assert m.maxProc == 150 && written == 6 by {
      assert "150abc"[..6] == FormatUnsigned(150) + "abc";
      ThresholdRoundTrip(150, "abc");
    }
    written := m.WriteMem("xyz", 3);
    assert m.maxMemPercent == 0 by {
      assert DigitRun("xyz"[..3]) == 0;
    }
    var page := new char[4096];
    var len := m.ReadProc(page);
    assert page[..len] == ReadText(150) == "150\n";
  }

  /**
    A non-empty handler and a non-zero event id: two wakes leave the trace of two identical
    steps, so by RepeatedWakesRelaunch the handler is launched twice with the same id.
  */
  method DispatchScenario(name: HandlerName, id: uint32)
    requires name != [] && id != 0
  {
    var m := new NotifyModule(0, 0, id);
    m.SetHandler(name);
    ghost var step := WakeEffects(false, id, name, true);
    var state := m.WakeStep(false, true, 0);
    assert m.effects == step by {
      assert [] + step == step;
    }
    state := m.WakeStep(false, true, 0);
    assert state == Waiting && m.effects == step + step;
    TwoWakesLaunchTwice(id, name);
    assert OfKind(m.effects, Launch) == [LaunchOf(name, AsInt32(id)), LaunchOf(name, AsInt32(id))];
  }

  /** Two successful wakes with the same non-zero id and a non-empty handler launch it twice. */
  lemma TwoWakesLaunchTwice(id: uint32, name: string)
    requires name != [] && id != 0
    ensures var step := WakeEffects(false, id, name, true);
      OfKind(step + step, Launch) == [LaunchOf(name, AsInt32(id)), LaunchOf(name, AsInt32(id))]
  {
    var step := WakeEffects(false, id, name, true);
    var launch := LaunchOf(name, AsInt32(id));
    assert Repeat(step, 2) == step + step by {
      assert Repeat(step, 1) == step + [] == step;
    }
    assert Repeat([launch], 2) == [launch, launch] by {
      assert Repeat([launch], 1) == [launch] + [] == [launch];
    }
    RepeatedWakesRelaunch(id, name, 2);
  }

  /** A pending signal ends the worker before it takes the lock, whatever the event id. */
  method SignalScenario(name: HandlerName, id: uint32) {
    var m := new NotifyModule(0, 0, id);
    m.SetHandler(name);
    var state := m.WakeStep(true, true, 0);
    assert m.effects == [] + [] == [];
    assert state == Terminated;
  }
}
