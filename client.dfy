/** The transport package (`client/client.go`): the parameter filter applied to
    every request, and the process-wide connection held in three package
    globals (`socketAddr`, the `sync.Once` and `clientInstance`).

    The foreign calls are oracles passed in as parameters: `DialResult` is what
    connecting to the Unix socket would produce if the initialiser ran, and
    `RpcReply` is what the client library returns for a request handed to it. */
module Client {
  import opened Results

  // ---------------------------------------------------------------------------
  // Parameter values and BuildParams

  /** The dynamic values the facade puts in a parameter map (`map[string]any`). */
  datatype Value = Nil | Str(s: string) | Int(i: int) | Bool(b: bool) | StrList(items: seq<string>)

  type Params = map<string, Value>

  /** The two kinds of value that are never transmitted: `nil` and the empty string. */
  predicate Dropped(v: Value) {
    v.Nil? || v == Str("")
  }

  /** The wire parameter map for the argument map `args`. */
  function WireParams(args: Params): Params {
    map k | k in args && !Dropped(args[k]) :: args[k]
  }

  /** `BuildParams`: fill a fresh map while visiting the entries of `args` in an
      arbitrary order (Go's map iteration order is unspecified). */
  method BuildParams(args: Params) returns (params: Params)
    ensures params == WireParams(args)
  {
    params := map[];
    var pending := args.Keys;
    while pending != {}
      invariant pending <= args.Keys
      invariant params == map k | k in args.Keys - pending && !Dropped(args[k]) :: args[k]
      decreases pending
    {
      var k :| k in pending;
      var v := args[k];
      if v.Nil? {
        // nil values are skipped
      } else if v.Str? {
        if v.s != "" {
          params := params[k := v];
        }
      } else {
        params := params[k := v];
      }
      pending := pending - {k};
    }
  }

  /** A key is sent exactly when its value is present and not the empty string. */
  lemma WireParamsKeys(args: Params)
    ensures forall k :: k in WireParams(args) <==> k in args && !args[k].Nil? && args[k] != Str("")
  {
  }

  /** Every key that is sent carries its argument unchanged, and no key is invented. */
  lemma WireParamsValues(args: Params)
    ensures WireParams(args).Keys <= args.Keys
    ensures forall k :: k in WireParams(args) ==> WireParams(args)[k] == args[k]
  {
  }

  /** Zero, false, non-empty strings and every list (even an empty one) are kept. */
  lemma WireParamsKeepsNonEmpty(args: Params, k: string)
    requires k in args
    requires args[k].Int? || args[k].Bool? || args[k].StrList? || (args[k].Str? && args[k].s != "")
    ensures k in WireParams(args) && WireParams(args)[k] == args[k]
  {
  }

  /** Filtering twice is filtering once. */
  lemma WireParamsIdempotent(args: Params)
    ensures WireParams(WireParams(args)) == WireParams(args)
  {
  }

  // ---------------------------------------------------------------------------
  // The shared connection as a state machine

  const DefaultSocketAddress: string := "/var/tmp/mimo.sock"

  /** The address `GetClient` connects to: the configured one, or the default when none is set. */
  function EffectiveAddress(socketAddr: string): (addr: string)
    ensures addr != ""
    ensures socketAddr != "" ==> addr == socketAddr
    ensures socketAddr == "" ==> addr == DefaultSocketAddress
  {
    if socketAddr == "" then DefaultSocketAddress else socketAddr
  }

  /** An established `*spdk.Client`, known only by its identity. */
  datatype Handle = Handle(id: nat)

  /** Result of the foreign connect call; the error is its cause. */
  type DialResult = Result<Handle, string>

  /** A decoded JSON result as the daemon returns it. */
  datatype Json =
    | JNull
    | JBool(b: bool)
    | JNumber(n: int)
    | JString(s: string)
    | JArray(elems: seq<Json>)
    | JObject(members: map<string, Json>)

  /** What the daemon answers to one request: a result, or its error cause. */
  type RpcReply = Result<Json, string>

  datatype ClientError =
    | ConnectFailed(addr: string, cause: string)  // "failed to connect RPC (addr): cause"
    | CallFailed(methodName: string, cause: string)   // "RPC call failed (method): cause"
    | NilClient                                    // Call reached with a nil client after a failed init

  /** The three package globals; `done` is the state of the `sync.Once`. */
  datatype Globals = Globals(socketAddr: string, done: bool, instance: Option<Handle>)

  /** The state at program start: no address, initialiser not run, no client. */
  const Initial: Globals := Globals("", false, None)

  /** `clientInstance` is only ever set by the initialiser. */
  predicate Consistent(g: Globals) {
    !g.done ==> g.instance.None?
  }

  /** What one `GetClient` returns, and the address the initialiser dialled if it ran. */
  datatype Connection = Connection(client: Option<Handle>, err: Option<ClientError>, dialed: Option<string>)

  /** A request as it is handed to the client library to send on the connection. */
  datatype Wire = Wire(methodName: string, params: Params)

  /** `GetClient`: the initialiser runs only while the once is not done; `err`
      is local to the call, so only the call that ran a failing initialiser sees it. */
  function GetClientStep(g: Globals, dial: DialResult): (Globals, Connection) {
    if g.done then (g, Connection(g.instance, None, None))
    else
      var addr := EffectiveAddress(g.socketAddr);
      match dial
      case Ok(h) => (g.(done := true, instance := Some(h)), Connection(Some(h), None, Some(addr)))
      case Err(cause) => (g.(done := true), Connection(None, Some(ConnectFailed(addr, cause)), Some(addr)))
  }

  /** `Call`: get the client, then send the request on it. */
  function CallStep(g: Globals, methodName: string, params: Params, dial: DialResult, reply: RpcReply)
    : (Globals, Connection, Option<Wire>, Result<Json, ClientError>)
  {
    var (g', c) := GetClientStep(g, dial);
    if c.err.Some? then (g', c, None, Err(c.err.value))
    else if c.client.None? then (g', c, None, Err(NilClient))
    else
      match reply
      case Ok(j) => (g', c, Some(Wire(methodName, params)), Ok(j))
      case Err(cause) => (g', c, Some(Wire(methodName, params)), Err(CallFailed(methodName, cause)))
  }

  // ---------------------------------------------------------------------------
  // Sequences of calls

  datatype Event =
    | SetAddress(addr: string)
    | GetClient(dial: DialResult)
    | Call(methodName: string, params: Params, dial: DialResult, reply: RpcReply)
    | Close

  datatype Reply =
    | AddressSet
    | Got(conn: Connection)
    | Called(conn: Connection, sent: Option<Wire>, result: Result<Json, ClientError>)
    | Closed(handle: Option<Handle>)   // the client whose Close was invoked, if any

  function Step(g: Globals, e: Event): (Globals, Reply) {
    match e
    case SetAddress(a) => (g.(socketAddr := a), AddressSet)
    case GetClient(dial) =>
      var (g', c) := GetClientStep(g, dial);
      (g', Got(c))
    case Call(m, p, dial, reply) =>
      var (g', c, sent, r) := CallStep(g, m, p, dial, reply);
      (g', Called(c, sent, r))
    case Close => (g, Closed(g.instance))
  }

  /** Run the events in order from `g`: the final state and one reply per event. */
  function Run(g: Globals, es: seq<Event>): (r: (Globals, seq<Reply>))
    ensures |r.1| == |es|
    decreases |es|
  {
    if es == [] then (g, [])
    else
      var (g1, r1) := Step(g, es[0]);
      var (gn, rs) := Run(g1, es[1..]);
      (gn, [r1] + rs)
  }

  /** Events that go through the once. */
  predicate Connects(e: Event) {
    e.GetClient? || e.Call?
  }

  predicate HasConnect(es: seq<Event>) {
    exists i :: 0 <= i < |es| && Connects(es[i])
  }

  /** The address configured after `es`, starting from `addr`. */
  function LastAddress(es: seq<Event>, addr: string): string
    decreases |es|
  {
    if es == [] then addr
    else LastAddress(es[1..], if es[0].SetAddress? then es[0].addr else addr)
  }

  predicate Dialed(r: Reply) {
    (r.Got? || r.Called?) && r.conn.dialed.Some?
  }

  /** Number of replies whose call ran the initialiser. */
  function Dials(rs: seq<Reply>): nat {
    if rs == [] then 0 else (if Dialed(rs[0]) then 1 else 0) + Dials(rs[1..])
  }

  lemma {:induction false} RunAppend(g: Globals, a: seq<Event>, b: seq<Event>)
    ensures Run(g, a + b) == (Run(Run(g, a).0, b).0, Run(g, a).1 + Run(Run(g, a).0, b).1)
    decreases |a|
  {
    if a == [] {
      assert a + b == b;
      assert Run(g, a) == (g, []);
      assert [] + Run(g, b).1 == Run(g, b).1;
    } else {
      var (g1, r1) := Step(g, a[0]);
      assert (a + b)[0] == a[0];
      assert (a + b)[1..] == a[1..] + b;
      RunAppend(g1, a[1..], b);
      assert Run(g, a + b) == (Run(g1, a[1..] + b).0, [r1] + Run(g1, a[1..] + b).1);
      assert Run(g, a) == (Run(g1, a[1..]).0, [r1] + Run(g1, a[1..]).1);
      var mid := Run(g1, a[1..]).0;
      assert [r1] + (Run(g1, a[1..]).1 + Run(mid, b).1) == ([r1] + Run(g1, a[1..]).1) + Run(mid, b).1;
    }
  }

  lemma {:induction false} DialsAppend(a: seq<Reply>, b: seq<Reply>)
    ensures Dials(a + b) == Dials(a) + Dials(b)
  {
    if a == [] {
      assert a + b == b;
    } else {
      assert (a + b)[1..] == a[1..] + b;
      DialsAppend(a[1..], b);
    }
  }

  /** Every step keeps `clientInstance` unset until the once has run. */
  lemma StepConsistent(g: Globals, e: Event)
    requires Consistent(g)
    ensures Consistent(Step(g, e).0)
  {
  }

  /** Before anything connects, only the address changes; Close reports no client. */
  lemma {:induction false} BeforeConnect(g: Globals, es: seq<Event>)
    requires !g.done && g.instance.None?
    requires !HasConnect(es)
    ensures Run(g, es).0 == g.(socketAddr := LastAddress(es, g.socketAddr))
    ensures Dials(Run(g, es).1) == 0
    decreases |es|
  {
    if es != [] {
      assert !Connects(es[0]);
      assert !HasConnect(es[1..]) by {
        forall i | 0 <= i < |es[1..]| ensures !Connects(es[1..][i]) {
          assert es[1..][i] == es[i + 1];
        }
      }
      BeforeConnect(Step(g, es[0]).0, es[1..]);
    }
  }

  /** Once the initialiser has run, the connection is frozen: later address
      changes are recorded but never reach the instance, no call dials again,
      and every later call gets the stored instance with no error (a nil
      instance after a failed init). */
  lemma {:induction false} SettledIsFrozen(g: Globals, es: seq<Event>)
    requires g.done
    ensures Run(g, es).0 == g.(socketAddr := LastAddress(es, g.socketAddr))
    ensures forall i :: 0 <= i < |es| && (Run(g, es).1[i].Got? || Run(g, es).1[i].Called?) ==>
      Run(g, es).1[i].conn == Connection(g.instance, None, None)
    ensures forall i :: 0 <= i < |es| && Run(g, es).1[i].Closed? ==> Run(g, es).1[i].handle == g.instance
    // After a failed initialisation no call reaches the library: each reports a nil client.
    ensures forall i :: 0 <= i < |es| && es[i].Call? && g.instance.None? ==>
      Run(g, es).1[i] == Called(Connection(None, None, None), None, Err(NilClient))
    // After a successful one every call is sent on the stored instance and
    // reports the daemon's answer.
    ensures forall i :: 0 <= i < |es| && es[i].Call? && g.instance.Some? ==>
      && Run(g, es).1[i].Called?
      && Run(g, es).1[i].sent == Some(Wire(es[i].methodName, es[i].params))
      && Run(g, es).1[i].result == match es[i].reply
                                   case Ok(j) => Ok(j)
                                   case Err(cause) => Err(CallFailed(es[i].methodName, cause))
    ensures Dials(Run(g, es).1) == 0
    decreases |es|
  {
    if es != [] {
      var g1 := Step(g, es[0]).0;
      SettledIsFrozen(g1, es[1..]);
      var rs := Run(g, es).1;
      assert rs == [Step(g, es[0]).1] + Run(g1, es[1..]).1;
      forall i | 1 <= i < |es| ensures rs[i] == Run(g1, es[1..]).1[i - 1] && es[i] == es[1..][i - 1] { }
    }
  }

  /** The initialiser runs at most once over any sequence of calls, and exactly
      once if some call goes through the once while it has not yet run. */
  lemma {:induction false} InitialiserRunsAtMostOnce(g: Globals, es: seq<Event>)
    requires Consistent(g)
    ensures Dials(Run(g, es).1) == if g.done || !HasConnect(es) then 0 else 1
    decreases |es|
  {
    if g.done {
      SettledIsFrozen(g, es);
    } else if !HasConnect(es) {
      BeforeConnect(g, es);
    } else {
      var (g1, r1) := Step(g, es[0]);
      InitialiserRunsAtMostOnce(g1, es[1..]);
      if Connects(es[0]) {
        assert g1.done;
      } else {
        assert !g1.done;
        assert HasConnect(es[1..]) by {
          var i :| 0 <= i < |es| && Connects(es[i]);
          assert i > 0 && es[1..][i - 1] == es[i];
        }
      }
    }
  }

  /** The first call that goes through the once dials the address configured
      at that moment (or the default); its outcome fixes the instance, a
      failure is reported to that call only, and every later call sees the
      instance fixed there (nil after a failure) with no connection error.
      After a failure the first `Call` reports it and every later `Call`
      fails with a nil client, neither sending anything. */
  lemma FirstConnect(g: Globals, pre: seq<Event>, e: Event, post: seq<Event>)
    requires !g.done && g.instance.None?
    requires !HasConnect(pre) && Connects(e)
    ensures var addr := EffectiveAddress(LastAddress(pre, g.socketAddr));
            var rs := Run(g, pre + [e] + post).1;
            && |rs| == |pre| + 1 + |post|
            && (rs[|pre|].Got? || rs[|pre|].Called?)
            && rs[|pre|].conn == (match e.dial
                                  case Ok(h) => Connection(Some(h), None, Some(addr))
                                  case Err(cause) => Connection(None, Some(ConnectFailed(addr, cause)), Some(addr)))
            && (forall i :: |pre| < i < |rs| && (rs[i].Got? || rs[i].Called?) ==>
                 rs[i].conn == Connection(if e.dial.Ok? then Some(e.dial.value) else None, None, None))
            && (e.Call? && e.dial.Err? ==>
                 rs[|pre|] == Called(rs[|pre|].conn, None, Err(ConnectFailed(addr, e.dial.error))))
            && (e.Call? && e.dial.Ok? ==>
                 rs[|pre|].Called? && rs[|pre|].sent == Some(Wire(e.methodName, e.params)))
            && (forall i :: |pre| < i < |rs| && (pre + [e] + post)[i].Call? && e.dial.Err? ==>
                 rs[i] == Called(Connection(None, None, None), None, Err(NilClient)))
  {
    var g1 := Run(g, pre).0;
    BeforeConnect(g, pre);
    RunAppend(g, pre, [e] + post);
    assert pre + [e] + post == pre + ([e] + post);
    var g2 := Step(g1, e).0;
    assert Run(g1, [e] + post).1 == [Step(g1, e).1] + Run(g2, post).1 by {
      assert ([e] + post)[1..] == post;
    }
    SettledIsFrozen(g2, post);
    var rs := Run(g, pre + [e] + post).1;
    forall i | |pre| < i < |rs|
      ensures rs[i] == Run(g2, post).1[i - |pre| - 1]
      ensures (pre + [e] + post)[i] == post[i - |pre| - 1]
    { }
  }

  /** Close never changes the globals, so closing twice is closing once. */
  lemma CloseNeverResets(g: Globals, es: seq<Event>)
    ensures Run(g, es + [Close]).0 == Run(g, es).0
    ensures Run(g, es + [Close, Close]).0 == Run(g, es).0
  {
    RunAppend(g, es, [Close]);
    RunAppend(g, es, [Close, Close]);
  }

  // ---------------------------------------------------------------------------
  // The package globals as an object

  /** The package-level state of `client/client.go`. */
  class Client {
    var socketAddr: string
    var done: bool
    var instance: Option<Handle>

    function State(): Globals
      reads this
    {
      Globals(socketAddr, done, instance)
    }

    ghost predicate Valid()
      reads this
    {
      Consistent(State())
    }

    /** The globals' zero values at program start. */
    constructor ()
      ensures Valid() && State() == Initial
    {
      socketAddr, done, instance := "", false, None;
    }

    method SetSocketAddress(addr: string)
      requires Valid()
      modifies this
      ensures Valid()
      ensures State() == Step(old(State()), SetAddress(addr)).0
    {
      socketAddr := addr;
    }

    method GetClient(dial: DialResult) returns (client: Option<Handle>, err: Option<ClientError>)
      requires Valid()
      modifies this
      ensures Valid()
      ensures var (g, c) := GetClientStep(old(State()), dial);
              State() == g && client == c.client && err == c.err
    {
      err := None;
      if !done {
        done := true;
        var addr := socketAddr;
        if addr == "" {
          addr := DefaultSocketAddress;
        }
        match dial
        case Err(cause) =>
          err := Some(ConnectFailed(addr, cause));
        case Ok(h) =>
          instance := Some(h);
      }
      if err.Some? {
        return None, err;
      }
      return instance, None;
    }

    /** Closes the instance if there is one; the globals are left as they are,
        so a later GetClient still returns the closed instance. */
    method Close() returns (closed: Option<Handle>)
      ensures closed == instance
      ensures Step(State(), Event.Close) == (State(), Closed(closed))
    {
      closed := None;
      if instance.Some? {
        closed := instance;
      }
    }

    method Call(methodName: string, params: Params, dial: DialResult, reply: RpcReply)
      returns (result: Result<Json, ClientError>)
      requires Valid()
      modifies this
      ensures Valid()
      ensures var (g, _, _, r) := CallStep(old(State()), methodName, params, dial, reply);
              State() == g && result == r
    {
      var client, err := GetClient(dial);
      if err.Some? {
        return Err(err.value);
      }
      if client.None? {
        return Err(NilClient);
      }
      match reply
      case Err(cause) =>
        result := Err(CallFailed(methodName, cause));
      case Ok(j) =>
        result := Ok(j);
    }
  }
}
