/** The request builder of lib/request.js: the world of servers it can be
    pointed at, the verb table it exposes, and the `Test` record each verb
    returns, with the chainable `.req` hook. */
module RequestBuilder {
  import opened Wrappers
  import opened JsValues
  import PortPool

  type ServerId = nat

  /** A node server: whether it is an `https.Server`, and the port it
      listens on (`None` when `server.address()` returns null). */
  datatype ServerState = ServerState(secure: bool, port: Option<nat>)

  /** The state the builder and its tests act on: the servers by identity,
      the port pool, and the counters that stand for fresh object
      identities and fresh uuids. */
  datatype World = World(
    servers: map<ServerId, ServerState>,
    nextServer: ServerId,
    pool: PortPool.Pool,
    nextPid: PortPool.Pid)

  /** Fresh identities really are fresh, and the pool is well formed. */
  ghost predicate Consistent(w: World) {
    && (forall id :: id in w.servers ==> id < w.nextServer)
    && (forall pid :: pid in w.pool.claims ==> pid < w.nextPid)
    && PortPool.Valid(w.pool)
  }

  /** What `chai.request(app)` may be given: a request handler function, a
      server, a base URL string, or any other value. */
  datatype App = FnApp(handler: nat) | ServerApp(server: ServerId) | UrlApp(url: string) | OtherApp

  /** A server reference points at a server of the world. */
  predicate Refers(w: World, app: App) {
    app.ServerApp? ==> app.server in w.servers
  }

  /** The name under which a method is exposed: `delete` becomes `del`. */
  function VerbName(m: string): string {
    if m == "delete" then "del" else m
  }

  /** The builder's verb table, built in the order of `methods`; a later
      method exposed under the same name replaces an earlier one. */
  function VerbTable(methods: seq<string>): (t: map<string, string>)
    ensures t.Keys == set m | m in methods :: VerbName(m)
    ensures forall name :: name in t ==> t[name] in methods && VerbName(t[name]) == name
    decreases |methods|
  {
    if |methods| == 0 then map[]
    else
      var last := methods[|methods| - 1];
      var t := VerbTable(methods[..|methods| - 1]);
      assert forall m :: m in methods <==> m in methods[..|methods| - 1] || m == last;
      t[VerbName(last) := last]
  }

  /** Two methods share a name only if they are `del` and `delete`. */
  lemma VerbNameCollision(a: string, b: string)
    requires a != b && VerbName(a) == VerbName(b)
    ensures {a, b} == {"del", "delete"}
  {
  }

  /** Unless the list holds both `del` and `delete`, every method has its
      own entry, under its own name except `delete`, which is only `del`. */
  lemma VerbTableEntries(methods: seq<string>)
    requires !("del" in methods && "delete" in methods)
    ensures forall m :: m in methods ==> VerbName(m) in VerbTable(methods) && VerbTable(methods)[VerbName(m)] == m
    ensures "delete" in methods ==> "delete" !in VerbTable(methods) && VerbTable(methods)["del"] == "delete"
  {
  }

  /** `chai.request(app)`: the server its tests target, and its verb table. */
  datatype Builder = Builder(server: App, verbs: map<string, string>)

  /** `chai.request(app)`: a handler function is wrapped, once, into a new
      plain-http server that is not listening; anything else is kept as is. */
  function NewBuilder(w: World, app: App, methods: seq<string>): (r: (World, Builder))
    ensures r.1.verbs == VerbTable(methods)
    ensures !app.FnApp? ==> r.0 == w && r.1.server == app
    ensures app.FnApp? ==>
      && r.1.server.ServerApp?
      && (Consistent(w) ==> r.1.server.server !in w.servers)
      && r.0.servers == w.servers[r.1.server.server := ServerState(false, None)]
      && r.0.pool == w.pool && r.0.nextPid == w.nextPid
    ensures Consistent(w) ==> Consistent(r.0)
    ensures Consistent(w) && Refers(w, app) ==> Refers(r.0, r.1.server)
  {
    var server := if app.FnApp? then ServerApp(w.nextServer) else app;
    var w' := if app.FnApp? then
      w.(servers := w.servers[w.nextServer := ServerState(false, None)], nextServer := w.nextServer + 1)
    else w;
    (w', Builder(server, VerbTable(methods)))
  }

  /** A method of `Request` the builder knows about: only what the model
      needs to follow it to the transport (the configuration the hook adds
      is abstracted to a string map). `url` is `None` for `undefined`. */
  datatype Request = Request(verb: string, url: Option<string>, settings: map<string, string>)

  /** What a two-argument hook does with the continuation it is handed:
      call it with an error argument (`undefined` for none), or never call it. */
  datatype Continuation = Continue(error: JsVal) | NeverContinues

  /** A `.req` hook: its declared arity (`cb.length`), what it does to the
      request, the value it throws (`None` when it returns normally; a
      two-argument hook that throws does so before continuing), and, when it
      takes two arguments, how it continues. */
  datatype Hook = Hook(arity: nat, prepare: Request -> Request, thrown: Option<JsVal>, next: Continuation)

  /** `Test`: the target, the original method name, the path, the hook
      stored by `.req`, and the `_pid` recorded when a port was claimed. */
  datatype Test = Test(app: App, verb: string, path: string, hook: Option<Hook>, pid: Option<PortPool.Pid>)

  /** `builder[name](path)`: a fresh test against the builder's server for
      the method exposed as `name`; `None` when there is no such verb. */
  function Invoke(b: Builder, name: string, path: string): (r: Option<Test>)
    ensures r.Some? <==> name in b.verbs
    ensures r.Some? ==>
      && r.value.app == b.server && r.value.path == path
      && r.value.verb == b.verbs[name]
      && r.value.hook.None? && r.value.pid.None?
  {
    if name in b.verbs then Some(Test(b.server, b.verbs[name], path, None, None)) else None
  }

  /** Every method of the list is callable through the builder under its
      exposed name and yields a test for the same server, the original
      method name and the given path. */
  lemma BuilderVerbsMakeTests(w: World, app: App, methods: seq<string>, m: string, path: string)
    requires !("del" in methods && "delete" in methods)
    requires m in methods
    ensures var (w', b) := NewBuilder(w, app, methods);
      Invoke(b, VerbName(m), path) == Some(Test(b.server, m, path, None, None))
  {
  }

  /** `.req(cb)`: the same test with `cb` as its hook, nothing else changed. */
  function WithHook(t: Test, cb: Hook): (r: Test)
    ensures r.hook == Some(cb)
    ensures r.app == t.app && r.verb == t.verb && r.path == t.path && r.pid == t.pid
  {
    t.(hook := Some(cb))
  }

  /** Chaining `.req` twice keeps only the last hook. */
  lemma LastHookWins(t: Test, first: Hook, second: Hook)
    ensures WithHook(WithHook(t, first), second) == WithHook(t, second)
  {
  }
}
