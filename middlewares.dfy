/**
 * The backend's HTTP middleware chain (backend/middlewares/): composing
 * middlewares around a handler, the CORS middleware and the request logger.
 *
 * A handler is a value describing how it was built. A base handler (one of
 * the controllers, whose own work is not part of this model) is described by
 * its name, the header operations it performs and the status code it writes,
 * if any. What a request leaves behind is
 * collected in a `ResponseWriter`: the response headers and status, plus the
 * names of the base handlers that ran and the lines the logger printed.
 */
module Middlewares {
  import opened Values

  datatype Middleware = Cors | Logger

  /** A change a handler makes to the response headers: `Header().Set(key,
      value)` or `Header().Del(key)`. */
  datatype HeaderOp = SetOp(key: string, value: string) | DelOp(key: string)

  datatype Handler =
    | Base(name: string, ops: seq<HeaderOp>, writes: Option<int>)
    | Wrap(middleware: Middleware, inner: Handler)

  /** `ApplyMiddleware(h, m1, …, mn)` = `mn(…(m1(h)))`: each middleware wraps
      the result of the previous ones. */
  function Apply(h: Handler, mws: seq<Middleware>): Handler
    decreases |mws|
  {
    if |mws| == 0 then h else Wrap(mws[|mws| - 1], Apply(h, mws[..|mws| - 1]))
  }

  /** The middlewares wrapped around the base handler, innermost first. */
  function Layers(h: Handler): seq<Middleware> {
    match h
    case Base(_, _, _) => []
    case Wrap(m, inner) => Layers(inner) + [m]
  }

  /** The base handler at the centre of `h`. */
  function Core(h: Handler): (b: Handler)
    ensures b.Base?
  {
    match h
    case Base(_, _, _) => h
    case Wrap(_, inner) => Core(inner)
  }

  /** The first middleware a request reaches, if any. */
  function Outermost(h: Handler): Option<Middleware> {
    if h.Wrap? then Some(h.middleware) else None
  }

  /** The loop of `ApplyMiddleware`. */
  method ApplyMiddleware(h: Handler, mws: seq<Middleware>) returns (r: Handler)
    ensures r == Apply(h, mws)
    ensures Layers(r) == Layers(h) + mws
    ensures Core(r) == Core(h)
    ensures |mws| > 0 ==> Outermost(r) == Some(mws[|mws| - 1])
  {
    r := h;
    for i := 0 to |mws|
      invariant Layers(r) == Layers(h) + mws[..i]
      invariant Core(r) == Core(h)
      invariant i > 0 ==> Outermost(r) == Some(mws[i - 1])
    {
      assert mws[..i + 1] == mws[..i] + [mws[i]];
      r := Wrap(mws[i], r);
    }
    assert mws[..|mws|] == mws;
    ApplyMiddlewareIsApply(h, mws, r);
  }

  /** The recursive definition agrees with the loop's invariant: the given
      middlewares end up stacked outside the handler in the order given. */
  lemma {:induction false} ApplyLayers(h: Handler, mws: seq<Middleware>)
    ensures Layers(Apply(h, mws)) == Layers(h) + mws
    ensures Core(Apply(h, mws)) == Core(h)
    decreases |mws|
  {
    if |mws| > 0 {
      var prefix := mws[..|mws| - 1];
      ApplyLayers(h, prefix);
      assert mws == prefix + [mws[|mws| - 1]];
    }
  }

  /** Applying two lists in turn is applying their concatenation. */
  lemma {:induction false} ApplyConcat(h: Handler, a: seq<Middleware>, b: seq<Middleware>)
    ensures Apply(Apply(h, a), b) == Apply(h, a + b)
    decreases |b|
  {
    if |b| > 0 {
      var prefix := b[..|b| - 1];
      assert (a + b)[..|a + b| - 1] == a + prefix;
      assert (a + b)[|a + b| - 1] == b[|b| - 1];
      ApplyConcat(h, a, prefix);
    } else {
      assert a + b == a;
    }
  }

  /** A handler is determined by its base and its layers. */
  lemma {:induction false} LayersDetermineHandler(h: Handler, g: Handler)
    requires Core(h) == Core(g) && Layers(h) == Layers(g)
    ensures h == g
  {
    match h
    case Base(_, _, _) =>
    case Wrap(m, inner) =>
      if g.Wrap? {
        assert Layers(inner) == Layers(h)[..|Layers(h)| - 1];
        assert Layers(g.inner) == Layers(g)[..|Layers(g)| - 1];
        LayersDetermineHandler(inner, g.inner);
      }
  }

  /** The loop computes the recursive definition. */
  lemma ApplyMiddlewareIsApply(h: Handler, mws: seq<Middleware>, r: Handler)
    requires Layers(r) == Layers(h) + mws && Core(r) == Core(h)
    ensures r == Apply(h, mws)
  {
    ApplyLayers(h, mws);
    LayersDetermineHandler(r, Apply(h, mws));
  }

  /** The chain every route in backend/main.go is built with:
      `ApplyMiddleware(controller, Logger, CorsMiddleware)`. CORS ends up
      outermost, so it sees each request before the logger does. */
  function MainChain(controller: Handler): Handler {
    Apply(controller, [Logger, Cors])
  }

  lemma {:induction false} MainChainShape(b: Handler)
    requires b.Base?
    ensures MainChain(b) == Wrap(Cors, Wrap(Logger, b))
    ensures Outermost(MainChain(b)) == Some(Cors)
  {
    assert [Logger, Cors][..1] == [Logger];
    assert [Logger][..0] == [];
    assert Apply(b, []) == b;
    assert Apply(b, [Logger]) == Wrap(Logger, b);
  }

  // ---------------------------------------------------------------------
  // Serving a request

  datatype Request = Request(verb: string, uri: string)

  /** What the logger prints, without the client address and the duration. */
  datatype LogEntry = LogEntry(status: int, verb: string, uri: string)

  /** What a request has done so far. `status` is the code sent with
      `WriteHeader`, `None` while no code has been sent. */
  datatype Exchange = Exchange(
    header: map<string, seq<string>>,
    status: Option<int>,
    served: seq<string>,
    log: seq<LogEntry>)

  const Fresh := Exchange(map[], None, [], [])

  const AllowOrigin := "Access-Control-Allow-Origin"
  const AllowMethods := "Access-Control-Allow-Methods"
  const AllowHeaders := "Access-Control-Allow-Headers"
  const CorsKeys := {AllowOrigin, AllowMethods, AllowHeaders}
  const StatusOK := 200
  const StatusNoContent := 204

  /** `Header().Set(k, v)`: the key's values are replaced by `[v]`
      (the keys used here are already in canonical form). */
  function SetHeader(x: Exchange, k: string, v: string): (y: Exchange)
    ensures y.header.Keys == x.header.Keys + {k} && y.header[k] == [v]
    ensures forall j :: j in x.header && j != k ==> y.header[j] == x.header[j]
    ensures y.status == x.status && y.served == x.served && y.log == x.log
  {
    x.(header := x.header[k := [v]])
  }

  /** `Header().Del(k)`: the key and its values are removed. */
  function DelHeader(x: Exchange, k: string): (y: Exchange)
    ensures y.header.Keys == x.header.Keys - {k}
    ensures forall j :: j in x.header && j != k ==> y.header[j] == x.header[j]
    ensures y.status == x.status && y.served == x.served && y.log == x.log
  {
    x.(header := x.header - {k})
  }

  function Perform(x: Exchange, op: HeaderOp): Exchange {
    match op
    case SetOp(k, v) => SetHeader(x, k, v)
    case DelOp(k) => DelHeader(x, k)
  }

  /** The keys a list of header operations sets or deletes. */
  function Touched(ops: seq<HeaderOp>): set<string> {
    set i | 0 <= i < |ops| :: ops[i].key
  }

  /** The header operations performed in order. Only the keys they touch can
      change; every other header keeps its values. */
  function PerformAll(x: Exchange, ops: seq<HeaderOp>): (y: Exchange)
    ensures y.header.Keys <= x.header.Keys + Touched(ops)
    ensures forall k :: k in x.header && k !in Touched(ops) ==> k in y.header && y.header[k] == x.header[k]
    ensures y.status == x.status && y.served == x.served && y.log == x.log
    decreases |ops|
  {
    if |ops| == 0 then x
    else
      var prefix := ops[..|ops| - 1];
      assert Touched(ops) == Touched(prefix) + {ops[|ops| - 1].key} by {
        assert forall i :: 0 <= i < |prefix| ==> prefix[i] == ops[i];
      }
      Perform(PerformAll(x, prefix), ops[|ops| - 1])
  }

  /** `WriteHeader(code)`: only the first call has an effect. */
  function WriteStatus(x: Exchange, code: int): (y: Exchange)
    ensures x.status.None? ==> y.status == Some(code)
    ensures x.status.Some? ==> y.status == x.status
    ensures y.header == x.header && y.served == x.served && y.log == x.log
  {
    if x.status.None? then x.(status := Some(code)) else x
  }

  function CorsHeaders(x: Exchange): Exchange {
    SetHeader(SetHeader(SetHeader(x,
      AllowOrigin, "*"),
      AllowMethods, "GET, POST, PUT, DELETE, OPTIONS"),
      AllowHeaders, "Origin, Content-Type, Authorization")
  }

  /** Serving `h`: the new exchange, and the last status code `h` passed to
      `WriteHeader` on the writer it was given (which the logger records). */
  function Serve(h: Handler, r: Request, x: Exchange): (Exchange, Option<int>)
    decreases h, 1
  {
    match h
    case Base(name, ops, writes) =>
      var y := PerformAll(x, ops).(served := x.served + [name]);
      if writes.Some? then (WriteStatus(y, writes.value), writes) else (y, None)
    case Wrap(Cors, next) => ServeCors(next, r, x)
    case Wrap(Logger, next) => ServeLogger(next, r, x)
  }

  /** `CorsMiddleware(next)`. */
  function ServeCors(next: Handler, r: Request, x: Exchange): (Exchange, Option<int>)
    decreases next, 2
  {
    var y := CorsHeaders(x);
    if r.verb == "OPTIONS" then (WriteStatus(y, StatusNoContent), Some(StatusNoContent))
    else Serve(next, r, y)
  }

  /** `Logger(next)`: the captured status starts at 200 and follows every
      `WriteHeader` call made through the wrapping writer. */
  function ServeLogger(next: Handler, r: Request, x: Exchange): (Exchange, Option<int>)
    decreases next, 2
  {
    var (y, written) := Serve(next, r, x);
    var status := if written.Some? then written.value else StatusOK;
    (y.(log := y.log + [LogEntry(status, r.verb, r.uri)]), written)
  }

  /** The response writer of one request, with the trace of what ran. */
  class ResponseWriter {
    var header: map<string, seq<string>>
    var status: Option<int>
    var served: seq<string>
    var log: seq<LogEntry>

    function Snapshot(): Exchange
      reads this
    {
      Exchange(header, status, served, log)
    }

    constructor ()
      ensures Snapshot() == Fresh
    {
      header, status, served, log := map[], None, [], [];
    }

    method Set(k: string, v: string)
      modifies this
      ensures Snapshot() == SetHeader(old(Snapshot()), k, v)
    {
      header := header[k := [v]];
    }

    method Del(k: string)
      modifies this
      ensures Snapshot() == DelHeader(old(Snapshot()), k)
    {
      header := header - {k};
    }

    method WriteHeader(code: int)
      modifies this
      ensures Snapshot() == WriteStatus(old(Snapshot()), code)
    {
      if status.None? {
        status := Some(code);
      }
    }
  }

  /** Runs `h` on `r`, writing to `w`; returns the last code it wrote. */
  method ServeHTTP(h: Handler, w: ResponseWriter, r: Request) returns (written: Option<int>)
    modifies w
    ensures (w.Snapshot(), written) == Serve(h, r, old(w.Snapshot()))
    decreases h, 1
  {
    match h
    case Base(name, ops, writes) =>
      ghost var x := w.Snapshot();
      for i := 0 to |ops|
        invariant w.Snapshot() == PerformAll(x, ops[..i])
      {
        assert ops[..i + 1][..i] == ops[..i];
        match ops[i]
        case SetOp(k, v) => w.Set(k, v);
        case DelOp(k) => w.Del(k);
      }
      assert ops[..|ops|] == ops;
      w.served := w.served + [name];
      written := writes;
      if writes.Some? {
        w.WriteHeader(writes.value);
      }
    case Wrap(Cors, next) =>
      written := CorsMiddleware(next, w, r);
    case Wrap(Logger, next) =>
      written := LoggerMiddleware(next, w, r);
  }

  method CorsMiddleware(next: Handler, w: ResponseWriter, r: Request) returns (written: Option<int>)
    modifies w
    ensures (w.Snapshot(), written) == ServeCors(next, r, old(w.Snapshot()))
    decreases next, 2
  {
    w.Set(AllowOrigin, "*");
    w.Set(AllowMethods, "GET, POST, PUT, DELETE, OPTIONS");
    w.Set(AllowHeaders, "Origin, Content-Type, Authorization");
    if r.verb == "OPTIONS" {
      w.WriteHeader(StatusNoContent);
      return Some(StatusNoContent);
    }
    written := ServeHTTP(next, w, r);
  }

  method LoggerMiddleware(next: Handler, w: ResponseWriter, r: Request) returns (written: Option<int>)
    modifies w
    ensures (w.Snapshot(), written) == ServeLogger(next, r, old(w.Snapshot()))
    decreases next, 2
  {
    written := ServeHTTP(next, w, r);
    var status := if written.Some? then written.value else StatusOK;
    w.log := w.log + [LogEntry(status, r.verb, r.uri)];
  }

  // ---------------------------------------------------------------------
  // Properties of the CORS middleware and the logger

  /** The three CORS headers are set to their fixed values; every other header
      is left as it was. */
  lemma CorsHeadersSet(x: Exchange)
    ensures var y := CorsHeaders(x);
            y.header.Keys == x.header.Keys + CorsKeys
            && y.header[AllowOrigin] == ["*"]
            && y.header[AllowMethods] == ["GET, POST, PUT, DELETE, OPTIONS"]
            && y.header[AllowHeaders] == ["Origin, Content-Type, Authorization"]
            && (forall k :: k in x.header && k !in CorsKeys ==> y.header[k] == x.header[k])
            && y.status == x.status && y.served == x.served && y.log == x.log
  {
  }

  /** A preflight request is answered with 204 (unless a status was already
      sent) and never reaches `next`. */
  lemma PreflightShortCircuits(next: Handler, r: Request, x: Exchange)
    requires r.verb == "OPTIONS"
    ensures var (y, written) := ServeCors(next, r, x);
            y == WriteStatus(CorsHeaders(x), StatusNoContent)
            && written == Some(StatusNoContent)
            && y.served == x.served && y.log == x.log
  {
  }

  /** Any other request is passed on to `next` unchanged, after the CORS
      headers are set. */
  lemma OtherMethodsForwarded(next: Handler, r: Request, x: Exchange)
    requires r.verb != "OPTIONS"
    ensures ServeCors(next, r, x) == Serve(next, r, CorsHeaders(x))
  {
  }

  /** Serving changes only the CORS headers and the headers the base handler
      sets or deletes. A CORS header that already holds its CORS value keeps
      it unless the base handler touches that key. */
  lemma {:induction false} HeadersKeptUnlessTouched(h: Handler, r: Request, x: Exchange)
    ensures var y := Serve(h, r, x).0;
            var touched := Touched(Core(h).ops);
            y.header.Keys <= x.header.Keys + CorsKeys + touched
            && (forall k :: k in x.header && k !in CorsKeys && k !in touched ==> k in y.header && y.header[k] == x.header[k])
            && (forall k :: k in CorsKeys && k in x.header && x.header[k] == CorsHeaders(x).header[k] && k !in touched ==> k in y.header && y.header[k] == x.header[k])
    decreases h
  {
    match h
    case Base(_, _, _) =>
    case Wrap(Cors, next) =>
      var c := CorsHeaders(x);
      CorsHeadersSet(x);
      if r.verb != "OPTIONS" {
        HeadersKeptUnlessTouched(next, r, c);
        CorsHeadersSet(c);
      }
    case Wrap(Logger, next) =>
      HeadersKeptUnlessTouched(next, r, x);
  }

  /** The logger adds exactly one line per request that reaches it, with the
      status its inner handler wrote, or 200 when it wrote none. */
  lemma LoggerLogsOnce(next: Handler, r: Request, x: Exchange)
    ensures var (inner, written) := Serve(next, r, x);
            var (y, w) := ServeLogger(next, r, x);
            w == written
            && y == inner.(log := inner.log + [LogEntry(if written.Some? then written.value else StatusOK, r.verb, r.uri)])
  {
  }

  /** End to end through the chain of backend/main.go, on a fresh response:
      a preflight gets the CORS headers and 204, the controller does not run
      and nothing is logged; any other request gets the CORS headers followed
      by the controller's own header operations, runs the controller once and
      is logged once with the controller's status (200 when it wrote none). */
  lemma MainChainBehaviour(b: Handler, r: Request)
    requires b.Base?
    ensures var y := Serve(MainChain(b), r, Fresh).0;
            (r.verb == "OPTIONS" ==>
                  y.header == CorsHeaders(Fresh).header
                  && y.status == Some(StatusNoContent) && y.served == [] && y.log == [])
            && (r.verb != "OPTIONS" ==>
                  y.header == PerformAll(CorsHeaders(Fresh), b.ops).header
                  && y.status == b.writes
                  && y.served == [b.name]
                  && y.log == [LogEntry(if b.writes.Some? then b.writes.value else StatusOK, r.verb, r.uri)])
  {
    MainChainShape(b);
    var c := CorsHeaders(Fresh);
    CorsHeadersSet(Fresh);
    assert Serve(MainChain(b), r, Fresh) == ServeCors(Wrap(Logger, b), r, Fresh);
    if r.verb != "OPTIONS" {
      assert ServeCors(Wrap(Logger, b), r, Fresh) == Serve(Wrap(Logger, b), r, c);
      assert Serve(Wrap(Logger, b), r, c) == ServeLogger(b, r, c);
      assert Serve(b, r, c).0.header == PerformAll(c, b.ops).header;
    }
  }

  /** Through the chain, a response whose controller leaves the CORS keys
      alone carries the three CORS values next to the controller's headers. */
  lemma CorsValuesSurviveController(b: Handler, r: Request)
    requires b.Base? && CorsKeys !! Touched(b.ops)
    ensures var y := Serve(MainChain(b), r, Fresh).0;
            y.header.Keys <= CorsKeys + Touched(b.ops)
            && CorsKeys <= y.header.Keys
            && y.header[AllowOrigin] == ["*"]
            && y.header[AllowMethods] == ["GET, POST, PUT, DELETE, OPTIONS"]
            && y.header[AllowHeaders] == ["Origin, Content-Type, Authorization"]
  {
    MainChainShape(b);
    CorsHeadersSet(Fresh);
    HeadersKeptUnlessTouched(MainChain(b), r, Fresh);
    MainChainBehaviour(b, r);
  }

  /** `http.Error(w, msg, code)` as the controllers call it: net/http (Go
      1.22 and later) deletes Content-Length, sets Content-Type and
      X-Content-Type-Options, and writes `code`. */
  function HttpError(name: string, code: int): (b: Handler)
    ensures b.Base? && Touched(b.ops) == {"Content-Length", "Content-Type", "X-Content-Type-Options"}
  {
    var ops := [DelOp("Content-Length"), SetOp("Content-Type", "text/plain; charset=utf-8"), SetOp("X-Content-Type-Options", "nosniff")];
    assert ops[0].key == "Content-Length" && ops[1].key == "Content-Type" && ops[2].key == "X-Content-Type-Options";
    Base(name, ops, Some(code))
  }

  /** `sendToken` on success (backend/controller/auth-controller.go:57-58):
      the JSON content type is set and the body written without an explicit
      status. */
  function SendTokenOk(name: string): (b: Handler)
    ensures b.Base? && Touched(b.ops) == {"Content-Type"}
  {
    var ops := [SetOp("Content-Type", "application/json")];
    assert ops[0].key == "Content-Type";
    Base(name, ops, None)
  }

  /** A controller's error response through the chain keeps the CORS headers
      and carries the error status and content type. */
  lemma ErrorThroughMainChain(name: string, code: int, r: Request)
    requires r.verb != "OPTIONS"
    ensures var y := Serve(MainChain(HttpError(name, code)), r, Fresh).0;
            AllowOrigin in y.header && y.header[AllowOrigin] == ["*"]
            && "Content-Type" in y.header && y.header["Content-Type"] == ["text/plain; charset=utf-8"]
            && "Content-Length" !in y.header
            && y.status == Some(code)
            && y.log == [LogEntry(code, r.verb, r.uri)]
  {
    var b := HttpError(name, code);
    CorsValuesSurviveController(b, r);
    MainChainBehaviour(b, r);
    var c := CorsHeaders(Fresh);
    assert b.ops[..2][..1] == [b.ops[0]] && b.ops[..2] == [b.ops[0], b.ops[1]];
    assert b.ops[..1][..0] == [];
    assert PerformAll(c, b.ops).header["Content-Type"] == ["text/plain; charset=utf-8"];
  }

  /** A successful `sendToken` through the chain: the CORS headers and the
      JSON content type, and a log line with 200. */
  lemma SendTokenThroughMainChain(name: string, r: Request)
    requires r.verb != "OPTIONS"
    ensures var y := Serve(MainChain(SendTokenOk(name)), r, Fresh).0;
            y.header.Keys == CorsKeys + {"Content-Type"}
            && y.header[AllowOrigin] == ["*"]
            && y.header["Content-Type"] == ["application/json"]
            && y.log == [LogEntry(StatusOK, r.verb, r.uri)]
  {
    var b := SendTokenOk(name);
    CorsValuesSurviveController(b, r);
    MainChainBehaviour(b, r);
    assert b.ops[..0] == [];
  }
}
