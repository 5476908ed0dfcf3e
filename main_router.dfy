/**
 * The frontend's main router: a module-level slot that is set once during
 * boot (`setMainRouter`) and read through a guarded getter
 * (`getMainRouter`), and `MainRouterProxy`, the object exported as
 * `mainRouter` that forwards every router operation to whatever router the
 * slot holds at the time of the call.
 *
 * A thrown `Error(message)` is the outcome `Thrown(message)`. The router
 * behind the proxy is a stand-in that records every call forwarded to it
 * and answers each query from a fixed table, since the real router and
 * its event emitter are not part of this model.
 */
module MainRouter {
  import opened Optional

  const NotFound := "mainRouter is not found."
  const AlreadyExists := "mainRouter is already exists."

  /** A call either returns a value or throws an `Error` with a message. */
  datatype Outcome<T> = Ok(value: T) | Thrown(message: string)

  // ----- The slot as a value -----

  /** `getMainRouter` on a slot holding `h`. */
  function GetMainRouter<T>(h: Option<T>): (r: Outcome<T>)
    ensures r.Thrown? <==> h.None?
    ensures r.Thrown? ==> r.message == NotFound
    ensures r.Ok? ==> h == Some(r.value)
  {
    if h.None? then Thrown(NotFound) else Ok(h.value)
  }

  /** `setMainRouter(r)` on a slot holding `h`: the new slot and the outcome. */
  function SetMainRouter<T>(h: Option<T>, r: T): (res: (Option<T>, Outcome<()>))
    ensures res.1.Thrown? <==> h.Some?
    ensures res.1.Thrown? ==> res.0 == h && res.1.message == AlreadyExists
    ensures res.1.Ok? ==> res.0 == Some(r)
  {
    if h.Some? then (h, Thrown(AlreadyExists)) else (Some(r), Ok(()))
  }

  /** A use of the slot: a read or an attempt to set it. */
  datatype SlotOp<T> = Get | Set(router: T)

  /** The slot after a sequence of operations, starting from `h`. */
  function Replay<T>(h: Option<T>, ops: seq<SlotOp<T>>): Option<T>
    decreases |ops|
  {
    if ops == [] then h
    else
      var next := if ops[0].Set? then SetMainRouter(h, ops[0].router).0 else h;
      Replay(next, ops[1..])
  }

  /** The router of the first set in `ops`, if there is one. */
  function FirstSet<T>(ops: seq<SlotOp<T>>): Option<T>
    decreases |ops|
  {
    if ops == [] then None
    else if ops[0].Set? then Some(ops[0].router)
    else FirstSet(ops[1..])
  }

  /** The outcomes of the operations of `ops`, in order, starting from `h`. */
  function Outcomes<T>(h: Option<T>, ops: seq<SlotOp<T>>): seq<Outcome<Option<T>>>
    decreases |ops|
  {
    if ops == [] then []
    else
      var (next, out) := match ops[0]
        case Get => (h, match GetMainRouter(h) case Ok(r) => Ok(Some(r)) case Thrown(m) => Thrown(m))
        case Set(r) => (SetMainRouter(h, r).0, match SetMainRouter(h, r).1 case Ok(_) => Ok(None) case Thrown(m) => Thrown(m));
      [out] + Outcomes(next, ops[1..])
  }

  /** A held router never changes: every later set is refused. */
  lemma {:induction false} HeldNeverChanges<T>(r: T, ops: seq<SlotOp<T>>)
    ensures Replay(Some(r), ops) == Some(r)
    decreases |ops|
  {
    if ops != [] {
      HeldNeverChanges(r, ops[1..]);
    }
  }

  /** From the empty slot, the router held after any run is the one of the first set. */
  lemma {:induction false} FirstSetWins<T>(ops: seq<SlotOp<T>>)
    ensures Replay(None, ops) == FirstSet(ops)
    decreases |ops|
  {
    if ops != [] {
      if ops[0].Set? {
        HeldNeverChanges(ops[0].router, ops[1..]);
      } else {
        FirstSetWins(ops[1..]);
      }
    }
  }

  /**
   * Every read answers from the slot as it is: `mainRouter is not found.`
   * before the first set, the first set router after it.
   */
  lemma {:induction false} ReadsSeeFirstSet<T>(ops: seq<SlotOp<T>>, i: nat)
    requires i < |ops| && ops[i].Get?
    ensures |Outcomes(None, ops)| == |ops|
    ensures FirstSet(ops[..i]).None? ==> Outcomes(None, ops)[i] == Thrown(NotFound)
    ensures FirstSet(ops[..i]).Some? ==> Outcomes(None, ops)[i] == Ok(FirstSet(ops[..i]))
  {
    OutcomesLength(None, ops);
    OutcomeAt(None, ops, i);
    FirstSetWins(ops[..i]);
  }

  /** Every set after the first successful one throws `mainRouter is already exists.`. */
  lemma {:induction false} LaterSetsThrow<T>(ops: seq<SlotOp<T>>, i: nat)
    requires i < |ops| && ops[i].Set? && FirstSet(ops[..i]).Some?
    ensures |Outcomes(None, ops)| == |ops|
    ensures Outcomes(None, ops)[i] == Thrown(AlreadyExists)
  {
    OutcomesLength(None, ops);
    OutcomeAt(None, ops, i);
    FirstSetWins(ops[..i]);
  }

  lemma {:induction false} OutcomesLength<T>(h: Option<T>, ops: seq<SlotOp<T>>)
    ensures |Outcomes(h, ops)| == |ops|
    decreases |ops|
  {
    if ops != [] {
      var next := if ops[0].Set? then SetMainRouter(h, ops[0].router).0 else h;
      OutcomesLength(next, ops[1..]);
    }
  }

  /** The `i`-th outcome is that of the `i`-th operation on the slot left by the ones before it. */
  lemma {:induction false} OutcomeAt<T>(h: Option<T>, ops: seq<SlotOp<T>>, i: nat)
    requires i < |ops|
    ensures |Outcomes(h, ops)| == |ops|
    ensures var before := Replay(h, ops[..i]);
      Outcomes(h, ops)[i] == Outcomes(before, [ops[i]])[0]
    decreases i
  {
    OutcomesLength(h, ops);
    if i > 0 {
      var next := if ops[0].Set? then SetMainRouter(h, ops[0].router).0 else h;
      OutcomeAt(next, ops[1..], i - 1);
      assert ops[1..][..i - 1] == ops[..i][1..];
      assert ops[1..][i - 1] == ops[i];
    } else {
      assert ops[..0] == [];
    }
  }

  // ----- The router behind the proxy -----

  /** A listener function, known by its identity. */
  datatype Listener = Listener(id: nat)

  /** A `navHook` function, known by its identity. */
  datatype NavHook = NavHook(id: nat)

  /** Whatever value a router answers a query with. */
  datatype Reply = Reply(id: nat)

  /** The `IRouter` operations the proxy forwards (all except the `navHook` property). */
  datatype Call =
    | Current
    | CurrentRef
    | CurrentRoute
    | GetCurrentKey
    | GetCurrentPath
    | Push(path: string, flag: Option<string>)
    | Replace(path: string, key: Option<string>)
    | Resolve(path: string)
    | Init
    | EventNames
    | Listeners(event: string)
    | ListenerCount(event: string)
    | Emit(event: string, args: seq<string>)
    | On(event: string, fn: Listener, context: Option<string>)
    | AddListener(event: string, fn: Listener, context: Option<string>)
    | Once(event: string, fn: Listener, context: Option<string>)
    | RemoveListener(event: string, given: Option<Listener>, context: Option<string>, once: Option<bool>)
    | Off(event: string, given: Option<Listener>, context: Option<string>, once: Option<bool>)
    | RemoveAllListeners(which: Option<string>)

  /** A router that records the calls it receives and answers from `answer`. */
  class Router {
    var navHook: Option<NavHook>
    var received: seq<Call>
    const answer: Call -> Reply

    constructor (answer: Call -> Reply)
      ensures navHook == None && received == [] && this.answer == answer
    {
      navHook, received, this.answer := None, [], answer;
    }

    method Handle(c: Call) returns (r: Reply)
      modifies this
      ensures r == answer(c)
      ensures received == old(received) + [c] && navHook == old(navHook)
    {
      received := received + [c];
      r := answer(c);
    }
  }

  // ----- The slot -----

  /** The module-level `mainRouterHolder`. */
  class MainRouterHolder {
    var holder: Option<Router>

    /** `let mainRouterHolder: IRouter | null = null` (line 197). */
    constructor ()
      ensures holder == None
    {
      holder := None;
    }

    /** `getMainRouter` (lines 42-49). */
    method Get() returns (r: Outcome<Router>)
      ensures r == GetMainRouter(holder)
    {
      if holder.None? {
        return Thrown(NotFound);
      }
      return Ok(holder.value);
    }

    /** `setMainRouter` (lines 55-61). */
    method Set(router: Router) returns (r: Outcome<()>)
      modifies this
      ensures (holder, r) == SetMainRouter(old(holder), router)
    {
      if holder.Some? {
        return Thrown(AlreadyExists);
      }
      holder := Some(router);
      return Ok(());
    }
  }

  // ----- The proxy -----

  /** `MainRouterProxy`, with `getMainRouter` on `supplier` as its supplier. */
  class MainRouterProxy {
    const supplier: MainRouterHolder

    /** Lines 71-73. */
    constructor (supplier: MainRouterHolder)
      ensures this.supplier == supplier
    {
      this.supplier := supplier;
    }

    /** The router the slot holds, as the set of objects a forwarded call may change. */
    function Held(): set<object>
      reads supplier
    {
      if supplier.holder.Some? then {supplier.holder.value} else {}
    }

    /** `this.supplier().<call>`: the held router handles `c`, or the call throws. */
    method Forward(c: Call) returns (r: Outcome<Reply>)
      modifies Held()
      ensures supplier.holder == old(supplier.holder)
      ensures supplier.holder.None? ==> r == Thrown(NotFound)
      ensures supplier.holder.Some? ==>
        var t := supplier.holder.value;
        && r == Ok(t.answer(c))
        && t.received == old(t.received) + [c]
        && t.navHook == old(t.navHook)
    {
      var held := supplier.Get();
      match held
      case Thrown(m) =>
        r := Thrown(m);
      case Ok(t) =>
        var a := t.Handle(c);
        r := Ok(a);
    }

    /** A call whose own result is dropped (a `void` method). */
    method ForwardVoid(c: Call) returns (r: Outcome<()>)
      modifies Held()
      ensures supplier.holder == old(supplier.holder)
      ensures r == if supplier.holder.None? then Thrown(NotFound) else Ok(())
      ensures supplier.holder.Some? ==>
        var t := supplier.holder.value;
        t.received == old(t.received) + [c] && t.navHook == old(t.navHook)
    {
      var f := Forward(c);
      r := if f.Thrown? then Thrown(f.message) else Ok(());
    }

    /** A chaining call: forward, then answer with the proxy itself (lines 142-194). */
    method ForwardChain(c: Call) returns (r: Outcome<MainRouterProxy>)
      modifies Held()
      ensures supplier.holder == old(supplier.holder)
      ensures r == if supplier.holder.None? then Thrown(NotFound) else Ok(this)
      ensures supplier.holder.Some? ==>
        var t := supplier.holder.value;
        t.received == old(t.received) + [c] && t.navHook == old(t.navHook)
    {
      var f := Forward(c);
      r := if f.Thrown? then Thrown(f.message) else Ok(this);
    }

    /** The `navHook` getter (lines 87-89). */
    method GetNavHook() returns (r: Outcome<Option<NavHook>>)
      ensures supplier.holder.None? ==> r == Thrown(NotFound)
      ensures supplier.holder.Some? ==> r == Ok(supplier.holder.value.navHook)
    {
      var held := supplier.Get();
      match held
      case Thrown(m) =>
        r := Thrown(m);
      case Ok(t) =>
        r := Ok(t.navHook);
    }

    /** The `navHook` setter (lines 91-93): writes through to the held router. */
    method SetNavHook(value: Option<NavHook>) returns (r: Outcome<()>)
      modifies Held()
      ensures supplier.holder == old(supplier.holder)
      ensures r == if supplier.holder.None? then Thrown(NotFound) else Ok(())
      ensures supplier.holder.Some? ==>
        var t := supplier.holder.value;
        t.navHook == value && t.received == old(t.received)
    {
      var held := supplier.Get();
      match held
      case Thrown(m) =>
        r := Thrown(m);
      case Ok(t) =>
        t.navHook := value;
        r := Ok(());
    }

    // The getters and query methods of lines 75-85, 95-101, 111-113 and 119-140.

    method Current() returns (r: Outcome<Reply>)
      modifies Held()
      ensures supplier.holder == old(supplier.holder)
      ensures supplier.holder.None? ==> r == Thrown(NotFound)
      ensures supplier.holder.Some? ==> r == Ok(supplier.holder.value.answer(Call.Current))
      ensures supplier.holder.Some? ==> supplier.holder.value.received == old(supplier.holder.value.received) + [Call.Current]
      ensures supplier.holder.Some? ==> supplier.holder.value.navHook == old(supplier.holder.value.navHook)
    {
      r := Forward(Call.Current);
    }

    method CurrentRef() returns (r: Outcome<Reply>)
      modifies Held()
      ensures supplier.holder == old(supplier.holder)
      ensures supplier.holder.None? ==> r == Thrown(NotFound)
      ensures supplier.holder.Some? ==> r == Ok(supplier.holder.value.answer(Call.CurrentRef))
      ensures supplier.holder.Some? ==> supplier.holder.value.received == old(supplier.holder.value.received) + [Call.CurrentRef]
      ensures supplier.holder.Some? ==> supplier.holder.value.navHook == old(supplier.holder.value.navHook)
    {
      r := Forward(Call.CurrentRef);
    }

    method CurrentRoute() returns (r: Outcome<Reply>)
      modifies Held()
      ensures supplier.holder == old(supplier.holder)
      ensures supplier.holder.None? ==> r == Thrown(NotFound)
      ensures supplier.holder.Some? ==> r == Ok(supplier.holder.value.answer(Call.CurrentRoute))
      ensures supplier.holder.Some? ==> supplier.holder.value.received == old(supplier.holder.value.received) + [Call.CurrentRoute]
      ensures supplier.holder.Some? ==> supplier.holder.value.navHook == old(supplier.holder.value.navHook)
    {
      r := Forward(Call.CurrentRoute);
    }

    method GetCurrentKey() returns (r: Outcome<Reply>)
      modifies Held()
      ensures supplier.holder == old(supplier.holder)
      ensures supplier.holder.None? ==> r == Thrown(NotFound)
      ensures supplier.holder.Some? ==> r == Ok(supplier.holder.value.answer(Call.GetCurrentKey))
      ensures supplier.holder.Some? ==> supplier.holder.value.received == old(supplier.holder.value.received) + [Call.GetCurrentKey]
      ensures supplier.holder.Some? ==> supplier.holder.value.navHook == old(supplier.holder.value.navHook)
    {
      r := Forward(Call.GetCurrentKey);
    }

    method GetCurrentPath() returns (r: Outcome<Reply>)
      modifies Held()
      ensures supplier.holder == old(supplier.holder)
      ensures supplier.holder.None? ==> r == Thrown(NotFound)
      ensures supplier.holder.Some? ==> r == Ok(supplier.holder.value.answer(Call.GetCurrentPath))
      ensures supplier.holder.Some? ==> supplier.holder.value.received == old(supplier.holder.value.received) + [Call.GetCurrentPath]
      ensures supplier.holder.Some? ==> supplier.holder.value.navHook == old(supplier.holder.value.navHook)
    {
      r := Forward(Call.GetCurrentPath);
    }

    method Resolve(path: string) returns (r: Outcome<Reply>)
      modifies Held()
      ensures supplier.holder == old(supplier.holder)
      ensures supplier.holder.None? ==> r == Thrown(NotFound)
      ensures supplier.holder.Some? ==> r == Ok(supplier.holder.value.answer(Call.Resolve(path)))
      ensures supplier.holder.Some? ==> supplier.holder.value.received == old(supplier.holder.value.received) + [Call.Resolve(path)]
      ensures supplier.holder.Some? ==> supplier.holder.value.navHook == old(supplier.holder.value.navHook)
    {
      r := Forward(Call.Resolve(path));
    }

    method EventNames() returns (r: Outcome<Reply>)
      modifies Held()
      ensures supplier.holder == old(supplier.holder)
      ensures supplier.holder.None? ==> r == Thrown(NotFound)
      ensures supplier.holder.Some? ==> r == Ok(supplier.holder.value.answer(Call.EventNames))
      ensures supplier.holder.Some? ==> supplier.holder.value.received == old(supplier.holder.value.received) + [Call.EventNames]
      ensures supplier.holder.Some? ==> supplier.holder.value.navHook == old(supplier.holder.value.navHook)
    {
      r := Forward(Call.EventNames);
    }

    method Listeners(event: string) returns (r: Outcome<Reply>)
      modifies Held()
      ensures supplier.holder == old(supplier.holder)
      ensures supplier.holder.None? ==> r == Thrown(NotFound)
      ensures supplier.holder.Some? ==> r == Ok(supplier.holder.value.answer(Call.Listeners(event)))
      ensures supplier.holder.Some? ==> supplier.holder.value.received == old(supplier.holder.value.received) + [Call.Listeners(event)]
      ensures supplier.holder.Some? ==> supplier.holder.value.navHook == old(supplier.holder.value.navHook)
    {
      r := Forward(Call.Listeners(event));
    }

    method ListenerCount(event: string) returns (r: Outcome<Reply>)
      modifies Held()
      ensures supplier.holder == old(supplier.holder)
      ensures supplier.holder.None? ==> r == Thrown(NotFound)
      ensures supplier.holder.Some? ==> r == Ok(supplier.holder.value.answer(Call.ListenerCount(event)))
      ensures supplier.holder.Some? ==> supplier.holder.value.received == old(supplier.holder.value.received) + [Call.ListenerCount(event)]
      ensures supplier.holder.Some? ==> supplier.holder.value.navHook == old(supplier.holder.value.navHook)
    {
      r := Forward(Call.ListenerCount(event));
    }

    method Emit(event: string, args: seq<string>) returns (r: Outcome<Reply>)
      modifies Held()
      ensures supplier.holder == old(supplier.holder)
      ensures supplier.holder.None? ==> r == Thrown(NotFound)
      ensures supplier.holder.Some? ==> r == Ok(supplier.holder.value.answer(Call.Emit(event, args)))
      ensures supplier.holder.Some? ==> supplier.holder.value.received == old(supplier.holder.value.received) + [Call.Emit(event, args)]
      ensures supplier.holder.Some? ==> supplier.holder.value.navHook == old(supplier.holder.value.navHook)
    {
      r := Forward(Call.Emit(event, args));
    }

    // The `void` methods of lines 103-109 and 115-117.

    method Push(path: string, flag: Option<string>) returns (r: Outcome<()>)
      modifies Held()
      ensures supplier.holder == old(supplier.holder)
      ensures r == if supplier.holder.None? then Thrown(NotFound) else Ok(())
      ensures supplier.holder.Some? ==> supplier.holder.value.received == old(supplier.holder.value.received) + [Call.Push(path, flag)]
      ensures supplier.holder.Some? ==> supplier.holder.value.navHook == old(supplier.holder.value.navHook)
    {
      r := ForwardVoid(Call.Push(path, flag));
    }

    method Replace(path: string, key: Option<string>) returns (r: Outcome<()>)
      modifies Held()
      ensures supplier.holder == old(supplier.holder)
      ensures r == if supplier.holder.None? then Thrown(NotFound) else Ok(())
      ensures supplier.holder.Some? ==> supplier.holder.value.received == old(supplier.holder.value.received) + [Call.Replace(path, key)]
      ensures supplier.holder.Some? ==> supplier.holder.value.navHook == old(supplier.holder.value.navHook)
    {
      r := ForwardVoid(Call.Replace(path, key));
    }

    method Init() returns (r: Outcome<()>)
      modifies Held()
      ensures supplier.holder == old(supplier.holder)
      ensures r == if supplier.holder.None? then Thrown(NotFound) else Ok(())
      ensures supplier.holder.Some? ==> supplier.holder.value.received == old(supplier.holder.value.received) + [Call.Init]
      ensures supplier.holder.Some? ==> supplier.holder.value.navHook == old(supplier.holder.value.navHook)
    {
      r := ForwardVoid(Call.Init);
    }

    // The chaining methods of lines 142-194: each answers with the proxy, not the router.

    method On(event: string, fn: Listener, context: Option<string>) returns (r: Outcome<MainRouterProxy>)
      modifies Held()
      ensures supplier.holder == old(supplier.holder)
      ensures r == if supplier.holder.None? then Thrown(NotFound) else Ok(this)
      ensures supplier.holder.Some? ==> supplier.holder.value.received == old(supplier.holder.value.received) + [Call.On(event, fn, context)]
      ensures supplier.holder.Some? ==> supplier.holder.value.navHook == old(supplier.holder.value.navHook)
    {
      r := ForwardChain(Call.On(event, fn, context));
    }

    method AddListener(event: string, fn: Listener, context: Option<string>) returns (r: Outcome<MainRouterProxy>)
      modifies Held()
      ensures supplier.holder == old(supplier.holder)
      ensures r == if supplier.holder.None? then Thrown(NotFound) else Ok(this)
      ensures supplier.holder.Some? ==> supplier.holder.value.received == old(supplier.holder.value.received) + [Call.AddListener(event, fn, context)]
      ensures supplier.holder.Some? ==> supplier.holder.value.navHook == old(supplier.holder.value.navHook)
    {
      r := ForwardChain(Call.AddListener(event, fn, context));
    }

    method Once(event: string, fn: Listener, context: Option<string>) returns (r: Outcome<MainRouterProxy>)
      modifies Held()
      ensures supplier.holder == old(supplier.holder)
      ensures r == if supplier.holder.None? then Thrown(NotFound) else Ok(this)
      ensures supplier.holder.Some? ==> supplier.holder.value.received == old(supplier.holder.value.received) + [Call.Once(event, fn, context)]
      ensures supplier.holder.Some? ==> supplier.holder.value.navHook == old(supplier.holder.value.navHook)
    {
      r := ForwardChain(Call.Once(event, fn, context));
    }

    method RemoveListener(event: string, fn: Option<Listener>, context: Option<string>, once: Option<bool>)
      returns (r: Outcome<MainRouterProxy>)
      modifies Held()
      ensures supplier.holder == old(supplier.holder)
      ensures r == if supplier.holder.None? then Thrown(NotFound) else Ok(this)
      ensures supplier.holder.Some? ==>
        supplier.holder.value.received == old(supplier.holder.value.received) + [Call.RemoveListener(event, fn, context, once)]
      ensures supplier.holder.Some? ==> supplier.holder.value.navHook == old(supplier.holder.value.navHook)
    {
      r := ForwardChain(Call.RemoveListener(event, fn, context, once));
    }

    method Off(event: string, fn: Option<Listener>, context: Option<string>, once: Option<bool>)
      returns (r: Outcome<MainRouterProxy>)
      modifies Held()
      ensures supplier.holder == old(supplier.holder)
      ensures r == if supplier.holder.None? then Thrown(NotFound) else Ok(this)
      ensures supplier.holder.Some? ==>
        supplier.holder.value.received == old(supplier.holder.value.received) + [Call.Off(event, fn, context, once)]
      ensures supplier.holder.Some? ==> supplier.holder.value.navHook == old(supplier.holder.value.navHook)
    {
      r := ForwardChain(Call.Off(event, fn, context, once));
    }

    method RemoveAllListeners(event: Option<string>) returns (r: Outcome<MainRouterProxy>)
      modifies Held()
      ensures supplier.holder == old(supplier.holder)
      ensures r == if supplier.holder.None? then Thrown(NotFound) else Ok(this)
      ensures supplier.holder.Some? ==>
        supplier.holder.value.received == old(supplier.holder.value.received) + [Call.RemoveAllListeners(event)]
      ensures supplier.holder.Some? ==> supplier.holder.value.navHook == old(supplier.holder.value.navHook)
    {
      r := ForwardChain(Call.RemoveAllListeners(event));
    }
  }

  // ----- Boot -----

  /** The module's initial state: an empty slot and `mainRouter` reading from it (lines 197-199). */
  method Boot() returns (slot: MainRouterHolder, mainRouter: MainRouterProxy)
    ensures fresh(slot) && fresh(mainRouter)
    ensures slot.holder == None && mainRouter.supplier == slot
  {
    slot := new MainRouterHolder();
    mainRouter := new MainRouterProxy(slot);
  }

  /**
   * Boot, a proxy call before the router is set, the set, a second set,
   * and the same call again: the first call throws `not found`, the second
   * set throws `already exists`, and the later call reaches the first router.
   * A worked example only; the general facts are `FirstSetWins`,
   * `LaterSetsThrow`, `ReadsSeeFirstSet` and the contracts of `Forward`.
   */
  method SetOnceScenario(answer: Call -> Reply, path: string)
    returns (early: Outcome<()>, second: Outcome<()>, late: Outcome<()>, log: seq<Call>)
    ensures early == Thrown(NotFound)
    ensures second == Thrown(AlreadyExists)
    ensures late == Ok(())
    ensures log == [Push(path, None)]
  {
    var slot, mainRouter := Boot();
    early := mainRouter.Push(path, None);
    var first := new Router(answer);
    var other := new Router(answer);
    var stored := slot.Set(first);
    second := slot.Set(other);
    late := mainRouter.Push(path, None);
    log := first.received;
  }

  /**
   * A chain of listener calls through the proxy answers with the proxy each
   * time, and the held router sees the calls in order. A worked example
   * only; the general fact is the contract of `ForwardChain`.
   */
  method ChainScenario(answer: Call -> Reply, fn: Listener)
    returns (same: bool, log: seq<Call>)
    ensures same
    ensures log == [On("push", fn, None), Off("push", Some(fn), None, None)]
  {
    var slot, mainRouter := Boot();
    var router := new Router(answer);
    var stored := slot.Set(router);
    var a := mainRouter.On("push", fn, None);
    var b := a.value.Off("push", Some(fn), None, None);
    same := a == Ok(mainRouter) && b == Ok(mainRouter);
    log := router.received;
  }

  /**
   * The navHook written through the proxy is the one read back, from the
   * held router. A worked example only; the general facts are the contracts
   * of `SetNavHook` and `GetNavHook`.
   */
  method NavHookScenario(answer: Call -> Reply, hook: NavHook)
    returns (read: Outcome<Option<NavHook>>, direct: Option<NavHook>)
    ensures read == Ok(Some(hook)) && direct == Some(hook)
  {
    var slot, mainRouter := Boot();
    var router := new Router(answer);
    var stored := slot.Set(router);
    var w := mainRouter.SetNavHook(Some(hook));
    read := mainRouter.GetNavHook();
    direct := router.navHook;
  }
}
