/** Running a test (`Test.prototype.res` in lib/request.js): resolving the
    target to a URL (`serverAddress`), claiming and listening on a port for a
    server that is not listening, running the `.req` hook, handing the
    request to the transport, delivering the response and, when a port was
    claimed, closing the server and releasing the port.
    The transport is the parameter `send`; whether the user's response
    callback throws is the parameter `callbackThrows`; `busy` is the set of
    ports in use outside the pool. */
module RequestLifecycle {
  import opened Wrappers
  import opened Decimal
  import opened JsValues
  import PortPool
  import opened RequestBuilder

  /** Scheme, loopback host and colon: what precedes the port of a local URL. */
  function Origin(secure: bool): string {
    if secure then "https://127.0.0.1:" else "http://127.0.0.1:"
  }

  /** The URL of a local server: `proto://127.0.0.1:port` followed directly by the path. */
  function LocalUrl(secure: bool, port: nat, path: string): string {
    Origin(secure) + NatToString(port) + path
  }

  /** Reads a local URL back into scheme, port and path; the port is the
      longest run of digits after the colon. */
  function ParseLocalUrl(url: string): Option<(bool, nat, string)> {
    if HasPrefix(url, Origin(true)) then ParsePortAndPath(true, url[|Origin(true)|..])
    else if HasPrefix(url, Origin(false)) then ParsePortAndPath(false, url[|Origin(false)|..])
    else None
  }

  predicate HasPrefix(s: string, prefix: string) {
    |s| >= |prefix| && s[..|prefix|] == prefix
  }

  function ParsePortAndPath(secure: bool, rest: string): Option<(bool, nat, string)> {
    var (digits, path) := SplitDigits(rest);
    if digits == [] then None else Some((secure, DigitsValue(digits), path))
  }

  lemma ParseAfterOrigin(secure: bool, rest: string)
    ensures ParseLocalUrl(Origin(secure) + rest) == ParsePortAndPath(secure, rest)
  {
    var url := Origin(secure) + rest;
    assert url[..|Origin(secure)|] == Origin(secure);
    assert url[|Origin(secure)|..] == rest;
    if !secure {
      assert url[4] != Origin(true)[4];
    }
  }

  /** A local URL gives back its scheme, port and path, provided the path
      does not begin with a digit (the URL inserts no separator). */
  lemma LocalUrlRoundTrip(secure: bool, port: nat, path: string)
    requires path == [] || !IsDigit(path[0])
    ensures ParseLocalUrl(LocalUrl(secure, port, path)) == Some((secure, port, path))
  {
    var digits := NatToString(port);
    assert LocalUrl(secure, port, path) == Origin(secure) + (digits + path);
    ParseAfterOrigin(secure, digits + path);
    SplitDigitsOfConcat(digits, path);
    DigitsValueOfNatToString(port);
    assert ParsePortAndPath(secure, digits + path) == Some((secure, port, path));
  }

  /** Because no separator is inserted, a path starting with digits makes
      two different servers' URLs coincide. */
  lemma LocalUrlAmbiguousForDigitPaths()
    ensures LocalUrl(false, 80, "80") == LocalUrl(false, 8080, "")
  {
  }

  /** What `serverAddress` hands its callback, or the TypeError it throws. */
  datatype Address = Url(url: string) | ClaimFailed(error: string) | NoAddressMethod

  /** The world after `serverAddress`, the `_pid` it recorded, and the address. */
  datatype Resolution = Resolution(world: World, pid: Option<PortPool.Pid>, addr: Address)

  /** `serverAddress(app, path, cb)`. A URL string is followed directly by
      the path. A listening server gives a local URL on its port. A server
      that is not listening gets a fresh pid, a port claimed under it, and
      listens there. Anything else has no `address` method. */
  function ServerAddress(w: World, app: App, path: string, busy: set<nat>): (r: Resolution)
    requires Refers(w, app)
    ensures app.UrlApp? ==> r == Resolution(w, None, Url(app.url + path))
    ensures app.FnApp? || app.OtherApp? ==> r == Resolution(w, None, NoAddressMethod)
    ensures app.ServerApp? && w.servers[app.server].port.Some? ==>
      r == Resolution(w, None, Url(LocalUrl(w.servers[app.server].secure, w.servers[app.server].port.value, path)))
    ensures app.ServerApp? && w.servers[app.server].port.None? ==>
      && r.pid == Some(w.nextPid) && r.world.nextPid == w.nextPid + 1
      && r.world.nextServer == w.nextServer
      && match PortPool.Claim(w.pool, w.nextPid, busy)
         case Err(e) => r.addr == ClaimFailed(e) && r.world.servers == w.servers && r.world.pool == w.pool
         case Ok((pool', port)) =>
           && r.addr == Url(LocalUrl(w.servers[app.server].secure, port, path))
           && r.world.pool == pool'
           && r.world.servers == w.servers[app.server := w.servers[app.server].(port := Some(port))]
  {
    match app
    case UrlApp(base) => Resolution(w, None, Url(base + path))
    case ServerApp(id) =>
      var server := w.servers[id];
      if server.port.Some? then Resolution(w, None, Url(LocalUrl(server.secure, server.port.value, path)))
      else
        var pid := w.nextPid;
        var w1 := w.(nextPid := pid + 1);
        (match PortPool.Claim(w.pool, pid, busy)
         case Err(e) => Resolution(w1, Some(pid), ClaimFailed(e))
         case Ok((pool', port)) =>
           Resolution(w1.(pool := pool', servers := w.servers[id := server.(port := Some(port))]),
                      Some(pid), Url(LocalUrl(server.secure, port, path))))
    case _ => Resolution(w, None, NoAddressMethod)
  }

  /** A hook that throws stops the run, whatever its arity. Otherwise a
      two-argument hook decides when the request goes out; any other hook
      runs and the request goes out right after; without a hook it goes out
      directly. A continuation called with a truthy error throws it. */
  datatype Dispatch = SendNow(req: Request) | HookThrew(error: JsVal) | Waiting

  function RunHook(hook: Option<Hook>, req: Request): Dispatch {
    match hook
    case None => SendNow(req)
    case Some(h) =>
      if h.thrown.Some? then HookThrew(h.thrown.value)
      else if h.arity == 2 then
        match h.next
        case Continue(err) => if Truthy(err) then HookThrew(err) else SendNow(h.prepare(req))
        case NeverContinues => Waiting
      else SendNow(h.prepare(req))
  }

  /** The request the hook leaves behind. */
  function Prepared(hook: Option<Hook>, req: Request): Request {
    if hook.Some? then hook.value.prepare(req) else req
  }

  /** The hook lets the request go out. */
  predicate HookProceeds(hook: Option<Hook>) {
    || hook.None?
    || (&& hook.value.thrown.None?
        && (hook.value.arity != 2 || (hook.value.next.Continue? && !Truthy(hook.value.next.error))))
  }

  datatype ResOutcome<R> =
    | Responded(response: R)      // the callback ran and returned
    | CallbackThrew(response: R)  // the callback ran and threw
    | HookError(error: JsVal)     // the hook threw, or its continuation was called with an error
    | WaitingOnHook               // a two-argument hook never continued
    | ClaimError(reason: string)  // no port could be claimed
    | TransportError(reason: string) // the request failed; the callback never ran
    | AddressTypeError            // the target has no `address` method

  /** The world afterwards, the test (with the `_pid` it may have recorded),
      the request handed to the transport, and what happened. */
  datatype ResResult<R> = ResResult(world: World, test: Test, sent: Option<Request>, outcome: ResOutcome<R>)

  /** `app.close(); harbor.release(pid)` when `pid` is set. */
  function CloseAndRelease(w: World, app: App, pid: Option<PortPool.Pid>): World {
    if pid.None? then w
    else
      var servers := if app.ServerApp? && app.server in w.servers
        then w.servers[app.server := w.servers[app.server].(port := None)] else w.servers;
      w.(servers := servers, pool := PortPool.Release(w.pool, pid.value))
  }

  /** From `new Request(method, url)` to the end of the response callback,
      cleaning up under `cleanupPid`. The transport either answers with a
      response or fails; `req.end` runs the callback, and with it the
      clean-up, only on a response. */
  function Execute<R>(w: World, t: Test, url: Option<string>, send: Request -> Result<R>,
                      callbackThrows: bool, cleanupPid: Option<PortPool.Pid>): (r: ResResult<R>)
    ensures r.world == (if r.outcome.Responded? then CloseAndRelease(w, t.app, cleanupPid) else w)
    ensures r.test == t
    ensures r.sent.Some? <==> WasSent(r.outcome)
    ensures r.sent.Some? <==> HookProceeds(t.hook)
    ensures r.sent.Some? ==> r.sent.value == Prepared(t.hook, Request(t.verb, url, map[]))
    ensures r.outcome.Responded? ==> send(r.sent.value) == Ok(r.outcome.response)
    ensures r.outcome.TransportError? ==> send(r.sent.value) == Err(r.outcome.reason)
  {
    match RunHook(t.hook, Request(t.verb, url, map[]))
    case HookThrew(e) => ResResult(w, t, None, HookError(e))
    case Waiting => ResResult(w, t, None, WaitingOnHook)
    case SendNow(req) =>
      match send(req)
      case Err(e) => ResResult(w, t, Some(req), TransportError(e))
      case Ok(response) =>
        if callbackThrows then ResResult(w, t, Some(req), CallbackThrew(response))
        else ResResult(CloseAndRelease(w, t.app, cleanupPid), t, Some(req), Responded(response))
  }

  /** The request went out: the transport either answered or failed. */
  predicate WasSent<R>(o: ResOutcome<R>) {
    o.Responded? || o.CallbackThrew? || o.TransportError?
  }

  /** `.res(cb)` as lib/request.js writes it: the error `serverAddress`
      reports is ignored (the request is built with an undefined URL), and
      the clean-up after the response tests `_pid`, which a previous run of
      the same test may have left set. */
  function ResAsWritten<R>(w: World, t: Test, busy: set<nat>, send: Request -> Result<R>, callbackThrows: bool): (r: ResResult<R>)
    requires Refers(w, t.app)
    ensures var a := ServerAddress(w, t.app, t.path, busy);
      r.test == (if a.pid.Some? then t.(pid := a.pid) else t)
    ensures r.sent.Some? <==> WasSent(r.outcome)
    ensures r.sent.Some? ==>
      var a := ServerAddress(w, t.app, t.path, busy);
      && !a.addr.NoAddressMethod?
      && r.sent.value == Prepared(t.hook, Request(t.verb, if a.addr.Url? then Some(a.addr.url) else None, map[]))
    ensures r.outcome.Responded? ==> send(r.sent.value) == Ok(r.outcome.response)
    ensures r.outcome.Responded? && r.test.pid.Some? ==>
      && r.test.pid.value !in r.world.pool.claims
      && (t.app.ServerApp? ==> t.app.server in r.world.servers && r.world.servers[t.app.server].port.None?)
  {
    var r := ServerAddress(w, t.app, t.path, busy);
    var t' := if r.pid.Some? then t.(pid := r.pid) else t;
    match r.addr
    case NoAddressMethod => ResResult(r.world, t', None, AddressTypeError)
    case ClaimFailed(_) => Execute(r.world, t', None, send, callbackThrows, t'.pid)
    case Url(u) => Execute(r.world, t', Some(u), send, callbackThrows, t'.pid)
  }

  /** `.res(cb)` with the two defects corrected: a claim error stops the run
      and is reported, and the clean-up uses the pid claimed by this run. */
  function Res<R>(w: World, t: Test, busy: set<nat>, send: Request -> Result<R>, callbackThrows: bool): (r: ResResult<R>)
    requires Refers(w, t.app)
    ensures r.test.app == t.app && r.test.verb == t.verb && r.test.path == t.path && r.test.hook == t.hook
    ensures r.sent.Some? <==> WasSent(r.outcome)
    ensures r.sent.Some? ==>
      var a := ServerAddress(w, t.app, t.path, busy);
      a.addr.Url? && r.sent.value == Prepared(t.hook, Request(t.verb, Some(a.addr.url), map[]))
    ensures r.outcome.Responded? ==> send(r.sent.value) == Ok(r.outcome.response)
    ensures r.outcome.TransportError? ==>
      send(r.sent.value) == Err(r.outcome.reason) && r.world == ServerAddress(w, t.app, t.path, busy).world
    ensures ServerAddress(w, t.app, t.path, busy).addr.Url? ==>
      (r.sent.Some? <==> HookProceeds(t.hook))
  {
    var a := ServerAddress(w, t.app, t.path, busy);
    var t' := if a.pid.Some? then t.(pid := a.pid) else t;
    match a.addr
    case NoAddressMethod => ResResult(a.world, t', None, AddressTypeError)
    case ClaimFailed(e) => ResResult(a.world, t', None, ClaimError(e))
    case Url(u) => Execute(a.world, t', Some(u), send, callbackThrows, a.pid)
  }

  // ---------------------------------------------------------------- lifecycle properties

  /** A URL target is never touched: nothing is claimed, nothing listens or
      closes, and the request goes to the base URL followed by the path. */
  lemma ResLeavesUrlTargetsAlone<R>(w: World, t: Test, busy: set<nat>, send: Request -> Result<R>, callbackThrows: bool)
    requires t.app.UrlApp?
    ensures var r := Res(w, t, busy, send, callbackThrows);
      && r.world == w && r.test == t
      && (r.sent.Some? ==> r.sent.value == Prepared(t.hook, Request(t.verb, Some(t.app.url + t.path), map[])))
  {
  }

  /** A server that already listens is used on its own port and never
      closed, and no pid or port is claimed. */
  lemma ResLeavesListeningServersAlone<R>(w: World, t: Test, busy: set<nat>, send: Request -> Result<R>, callbackThrows: bool)
    requires t.app.ServerApp? && t.app.server in w.servers && w.servers[t.app.server].port.Some?
    ensures var r := Res(w, t, busy, send, callbackThrows);
      var s := w.servers[t.app.server];
      && r.world == w && r.test == t
      && (r.sent.Some? ==> r.sent.value == Prepared(t.hook, Request(t.verb, Some(LocalUrl(s.secure, s.port.value, t.path)), map[])))
  {
  }

  /** A server that is not listening is given the lowest free port of the
      pool for the request; once the transport has answered and the callback
      returned, the server is closed again and the port released, so the
      only trace left is the uuid consumed. */
  lemma ResEphemeralServerRoundTrip<R>(w: World, t: Test, busy: set<nat>, send: Request -> Result<R>)
    requires Consistent(w)
    requires t.app.ServerApp? && t.app.server in w.servers && w.servers[t.app.server].port.None?
    requires PortPool.Claim(w.pool, w.nextPid, busy).Ok?
    requires HookProceeds(t.hook)
    ensures var r := Res(w, t, busy, send, false);
      var port := PortPool.Claim(w.pool, w.nextPid, busy).value.1;
      var req := Prepared(t.hook, Request(t.verb, Some(LocalUrl(w.servers[t.app.server].secure, port, t.path)), map[]));
      && r.sent == Some(req)
      && port !in PortPool.ClaimedPorts(w.pool) && port !in busy
      && r.test.pid == Some(w.nextPid)
      && (send(req).Ok? ==> r.outcome == Responded(send(req).value) && r.world == w.(nextPid := w.nextPid + 1))
  {
  }

  /** When no port can be claimed, nothing is sent, no server listens, the
      pool is unchanged, and the claim error is reported. */
  lemma ResReportsClaimFailure<R>(w: World, t: Test, busy: set<nat>, send: Request -> Result<R>, callbackThrows: bool)
    requires t.app.ServerApp? && t.app.server in w.servers && w.servers[t.app.server].port.None?
    requires PortPool.Claim(w.pool, w.nextPid, busy).Err?
    ensures var r := Res(w, t, busy, send, callbackThrows);
      && r.outcome == ClaimError(PortPool.NoFreePort) && r.sent.None?
      && r.world == w.(nextPid := w.nextPid + 1)
  {
  }

  /** If the run stops after the port was claimed but before clean-up (the
      hook throws or never continues, the transport fails, or the callback
      throws), the server stays listening on the claimed port and the port
      stays claimed. */
  lemma ResInterruptedKeepsPort<R>(w: World, t: Test, busy: set<nat>, send: Request -> Result<R>, callbackThrows: bool)
    requires t.app.ServerApp? && t.app.server in w.servers && w.servers[t.app.server].port.None?
    requires PortPool.Claim(w.pool, w.nextPid, busy).Ok?
    requires var port := PortPool.Claim(w.pool, w.nextPid, busy).value.1;
      || !HookProceeds(t.hook) || callbackThrows
      || send(Prepared(t.hook, Request(t.verb, Some(LocalUrl(w.servers[t.app.server].secure, port, t.path)), map[]))).Err?
    ensures var r := Res(w, t, busy, send, callbackThrows);
      var port := PortPool.Claim(w.pool, w.nextPid, busy).value.1;
      && !r.outcome.Responded?
      && r.world.servers[t.app.server].port == Some(port)
      && w.nextPid in r.world.pool.claims && r.world.pool.claims[w.nextPid] == port
  {
  }

  /** After a response has been delivered and the callback returned,
      every server and the pool are as they were before the run. */
  lemma ResRestoresServersAndPool<R>(w: World, t: Test, busy: set<nat>, send: Request -> Result<R>, callbackThrows: bool)
    requires Consistent(w) && Refers(w, t.app)
    ensures var r := Res(w, t, busy, send, callbackThrows);
      r.outcome.Responded? ==> r.world.servers == w.servers && r.world.pool == w.pool
  {
  }

  /** Once a URL is known, the hook decides what happens: a hook that
      throws, of any arity, stops the run with what it threw; a two-argument
      hook that continues with a truthy error throws it and one that never
      continues leaves the run waiting. In these cases nothing is sent and
      the world stays as address resolution left it; in every other case the
      request the hook prepared is sent. */
  lemma ResHookDispatch<R>(w: World, t: Test, busy: set<nat>, send: Request -> Result<R>, callbackThrows: bool)
    requires Refers(w, t.app) && ServerAddress(w, t.app, t.path, busy).addr.Url?
    ensures var r := Res(w, t, busy, send, callbackThrows);
      && (var h := t.hook; h.Some? && h.value.thrown.Some? ==> r.outcome == HookError(h.value.thrown.value))
      && (var h := t.hook; h.Some? && h.value.thrown.None? && h.value.arity == 2 && h.value.next.NeverContinues? ==>
            r.outcome == WaitingOnHook)
      && (var h := t.hook;
            (h.Some? && h.value.thrown.None? && h.value.arity == 2 && h.value.next.Continue? && Truthy(h.value.next.error))
            ==> r.outcome == HookError(h.value.next.error))
      && (!HookProceeds(t.hook) ==> r.sent.None? && r.world == ServerAddress(w, t.app, t.path, busy).world)
      && (HookProceeds(t.hook) ==>
            && r.sent.Some?
            && var answer := send(r.sent.value);
               r.outcome == (if answer.Err? then TransportError(answer.error)
                             else if callbackThrows then CallbackThrew(answer.value) else Responded(answer.value)))
  {
  }

  /** A run keeps the world consistent, whatever happens. */
  lemma ResPreservesConsistency<R>(w: World, t: Test, busy: set<nat>, send: Request -> Result<R>, callbackThrows: bool)
    requires Consistent(w) && Refers(w, t.app)
    ensures Consistent(Res(w, t, busy, send, callbackThrows).world)
  {
    var a := ServerAddress(w, t.app, t.path, busy);
    ServerAddressPreservesConsistency(w, t.app, t.path, busy);
    CloseAndReleasePreservesConsistency(a.world, t.app, a.pid);
  }

  /** Resolving an address keeps the world consistent. */
  lemma ServerAddressPreservesConsistency(w: World, app: App, path: string, busy: set<nat>)
    requires Consistent(w) && Refers(w, app)
    ensures Consistent(ServerAddress(w, app, path, busy).world)
  {
    if app.ServerApp? && w.servers[app.server].port.None? {
      PortPool.ClaimPreservesValid(w.pool, w.nextPid, busy);
    }
  }

  /** Closing and releasing keeps the world consistent. */
  lemma CloseAndReleasePreservesConsistency(w: World, app: App, pid: Option<PortPool.Pid>)
    requires Consistent(w)
    ensures Consistent(CloseAndRelease(w, app, pid))
  {
    if pid.Some? {
      PortPool.ReleasePreservesValid(w.pool, pid.value);
    }
  }

  // ---------------------------------------------------------------- the code as written

  /** On a test's first run, when a URL is obtained, the code as written and
      the corrected run behave identically. */
  lemma AsWrittenAgreesOnFirstRun<R>(w: World, t: Test, busy: set<nat>, send: Request -> Result<R>, callbackThrows: bool)
    requires Refers(w, t.app) && t.pid.None?
    requires !ServerAddress(w, t.app, t.path, busy).addr.ClaimFailed?
    ensures ResAsWritten(w, t, busy, send, callbackThrows) == Res(w, t, busy, send, callbackThrows)
  {
  }

  /** As written, a failed claim is not reported: the request is built with
      an undefined URL and handed to the transport. Whatever the transport
      makes of it, no claim error surfaces; if it answers, the server, which
      never listened, is closed and the unclaimed pid released. */
  lemma AsWrittenSendsWithoutUrl<R>(w: World, t: Test, busy: set<nat>, send: Request -> Result<R>)
    requires t.app.ServerApp? && t.app.server in w.servers && w.servers[t.app.server].port.None?
    requires PortPool.Claim(w.pool, w.nextPid, busy).Err?
    requires t.hook.None?
    ensures var r := ResAsWritten(w, t, busy, send, false);
      var answer := send(Request(t.verb, None, map[]));
      && r.sent == Some(Request(t.verb, None, map[]))
      && !r.outcome.ClaimError?
      && (answer.Ok? ==> && r.outcome == Responded(answer.value)
                         && r.world.servers == w.servers && w.nextPid !in r.world.pool.claims)
      && (answer.Err? ==> r.outcome == TransportError(answer.error))
  {
  }

  /** As written, a test that once claimed a port keeps its `_pid`; run
      again against its server after something else made the server
      listen, it closes that server once the transport answers, which the
      corrected run never does. */
  lemma AsWrittenStalePidClosesListeningServer<R>(w: World, t: Test, busy: set<nat>, send: Request -> Result<R>)
    requires t.app.ServerApp? && t.app.server in w.servers && w.servers[t.app.server].port.Some?
    requires t.pid.Some? && HookProceeds(t.hook)
    requires var s := w.servers[t.app.server];
      send(Prepared(t.hook, Request(t.verb, Some(LocalUrl(s.secure, s.port.value, t.path)), map[]))).Ok?
    ensures ResAsWritten(w, t, busy, send, false).world.servers[t.app.server].port.None?
    ensures Res(w, t, busy, send, false).world.servers[t.app.server].port.Some?
  {
  }

  /** The sequence that leaves the stale pid: a first run against a server
      that is not listening records a pid, and the record outlives the run. */
  lemma FirstRunRecordsPid<R>(w: World, t: Test, busy: set<nat>, send: Request -> Result<R>, callbackThrows: bool)
    requires t.app.ServerApp? && t.app.server in w.servers && w.servers[t.app.server].port.None?
    ensures ResAsWritten(w, t, busy, send, callbackThrows).test.pid == Some(w.nextPid)
  {
  }
}
