/**
  The kernel calls the module makes, recorded as a trace of effects instead of being
  performed: taking and dropping the event lock, entering the dispatcher, `kmalloc`,
  `kfree` and `call_usermodehelper`.
*/
module Effects {

  /** A `char *` slot of an argument or environment vector: NULL, or a NUL-terminated string. */
  datatype CStr = Null | Str(text: string)

  datatype Effect =
    | ReadLock                 // read_lock(&myevent_lock)
    | ReadUnlock               // read_unlock(&myevent_lock)
    | HandlerCall(eventId: int)   // run_umode_handler(eventId) is entered
    | Kmalloc(size: nat, ok: bool)  // kmalloc(size, GFP_KERNEL), successful or not
    | Kfree                    // kfree of the buffer kmalloc returned
    | UsermodeHelper(path: string, argv: seq<CStr>, envp: seq<CStr>)  // call_usermodehelper

  datatype Kind = Lock | Unlock | Call | Alloc | Free | Launch

  function KindOf(e: Effect): Kind {
    match e
    case ReadLock => Lock
    case ReadUnlock => Unlock
    case HandlerCall(_) => Call
    case Kmalloc(_, _) => Alloc
    case Kfree => Free
    case UsermodeHelper(_, _, _) => Launch
  }

  /** The effects of kind `k` in `es`, in their order. */
  function OfKind(es: seq<Effect>, k: Kind): seq<Effect>
  {
    if |es| == 0 then [] else (if KindOf(es[0]) == k then [es[0]] else []) + OfKind(es[1..], k)
  }

  /** `n` copies of `es`, one after another. */
  function Repeat(es: seq<Effect>, n: nat): seq<Effect>
  {
    if n == 0 then [] else es + Repeat(es, n - 1)
  }

  /** Selecting by kind distributes over concatenation of traces. */
  lemma {:induction false} OfKindAppend(a: seq<Effect>, b: seq<Effect>, k: Kind)
    ensures OfKind(a + b, k) == OfKind(a, k) + OfKind(b, k)
  {
    if |a| == 0 {
      assert a + b == b;
    } else {
      var head := if KindOf(a[0]) == k then [a[0]] else [];
      calc {
        OfKind(a + b, k);
        head + OfKind((a + b)[1..], k);
        { assert (a + b)[1..] == a[1..] + b; }
        head + OfKind(a[1..] + b, k);
        { OfKindAppend(a[1..], b, k); }
        head + (OfKind(a[1..], k) + OfKind(b, k));
      }
    }
  }

  lemma OfKindSingle(e: Effect, k: Kind)
    ensures OfKind([e], k) == if KindOf(e) == k then [e] else []
  {
    assert [e][1..] == [];
  }

  /** Selecting by kind from a trace that starts with one given effect. */
  lemma OfKindCons(e: Effect, rest: seq<Effect>, k: Kind)
    ensures OfKind([e] + rest, k) == (if KindOf(e) == k then [e] else []) + OfKind(rest, k)
  {
    OfKindAppend([e], rest, k);
    OfKindSingle(e, k);
  }
}
