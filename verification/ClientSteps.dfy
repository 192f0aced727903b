/**
 The state of one `WormDB` connection manager as a value, and what every user call,
 socket callback, timer and promise continuation does to it. Each function is one
 synchronous block of the client; `WormDBClass` refines them with updates in place.

 Await points are explicit. A request that finds no connection parks in `waiters`;
 opening a connection moves the parked requests to `woken`; a request that has
 passed `ensureReady` sits in `released` until its continuation writes the frame;
 and `log[handled..]` are the settled promises whose continuations have not run.
 */
module ClientSteps {
  import opened Bytes
  import opened Frames
  import opened Commands
  import opened Backlog

  datatype Phase = Idle | Connecting | Ready | Reconnecting | Closed

  /** Reconnect options; maxAttempts None is Infinity. */
  datatype Config = Config(enabled: bool, minDelay: real, maxDelay: real, maxAttempts: Option<nat>)

  const MAGIC: bytes := [0x57, 0x57]

  /** A token whose AUTH frame passes the payload cap. */
  type Token = t: bytes | 4 + |t| <= MAX_PAYLOAD

  function SubSize(channel: bytes, filter: Option<bytes>): nat
  {
    4 + |channel| + if filter.Some? && filter.value != [] then 4 + |filter.value| else 0
  }

  datatype RawEntry = Entry(channel: bytes, filter: Option<bytes>, handlers: set<nat>, wired: bool)

  /** A subscription entry; its SUB frame passed the payload cap when it was created. */
  type Entry = e: RawEntry | SubSize(e.channel, e.filter) <= MAX_PAYLOAD witness RawEntry.Entry([], None, {}, false)

  function AuthFrame(t: Token): Frame { RawFrame.Frame(0x0C, Field(t)) }

  function SubFrame(channel: bytes, filter: Option<bytes>): Frame
    requires SubSize(channel, filter) <= MAX_PAYLOAD
  {
    ToFrame(Sub(channel, filter))
  }

  function UnsubFrame(channel: bytes): Frame
    requires 4 + |channel| <= MAX_PAYLOAD
  {
    RawFrame.Frame(UNSUB, Field(channel))
  }

  /** Who issued a request, hence what its continuation does. */
  datatype Origin =
    | Direct
    | Handshake
    | AuthOf(token: Token)
    | SubOf(entry: nat, handler: nat)
    | UnsubOf(channel: bytes)

  datatype Request = Request(id: nat, frame: Frame, origin: Origin)

  datatype Outcome = Resolved(reply: Frame) | Rejected

  datatype Settlement = Settlement(req: Request, outcome: Outcome)

  datatype Client = Client(
    state: Phase,
    live: bool,                  // socket != null
    dialing: bool,               // connecting
    timer: Option<real>,         // reconnectTimer and its delay
    attempts: nat,
    gen: nat,
    inbound: bytes,
    pending: seq<Request>,
    timers: map<nat, nat>,       // armed request timers: request id to captured generation
    backlog: seq<bytes>,
    waiters: seq<Request>,
    woken: seq<Request>,
    released: seq<Request>,
    token: Option<Token>,
    heap: seq<Entry>,            // every subscription entry ever created
    subs: seq<nat>,              // the entries of the subs map, in insertion order
    issued: seq<Request>,        // every request ever made
    log: seq<Settlement>,        // every promise settled, in order
    handled: nat,                // continuations that have run
    dials: nat,                  // dials since the last open
    unopened: bool)              // no connection has opened yet

  const INIT: Client :=
    Client(Idle, false, false, None, 0, 0, [], [], map[], [], [], [], [], None, [], [], [], [], 0, 0, true)

  // ---------------------------------------------------------------------------
  // Settling promises
  // ---------------------------------------------------------------------------

  function Rejections(rs: seq<Request>): (s: seq<Settlement>)
    ensures |s| == |rs|
  {
    seq(|rs|, i requires 0 <= i < |rs| => Settlement(rs[i], Rejected))
  }

  function Ids(rs: seq<Request>): set<nat> { set r | r in rs :: r.id }

  function Reject(c: Client, rs: seq<Request>): Client { c.(log := c.log + Rejections(rs)) }

  /** rejectAllPending */
  function RejectAllPending(c: Client): Client
  {
    Reject(c, c.pending).(pending := [], timers := c.timers - Ids(c.pending))
  }

  /** rejectReadyWaiters */
  function RejectWaiters(c: Client): Client { Reject(c, c.waiters).(waiters := []) }

  /** The reply is not an error: code OK, VALUE or NULL. */
  predicate Succeeded(s: Settlement) { s.outcome.Resolved? && s.outcome.reply.code <= 0x02 }

  // ---------------------------------------------------------------------------
  // Request engine
  // ---------------------------------------------------------------------------

  /** openSocket */
  function OpenSocket(c: Client): Client
  {
    if c.dialing || c.state == Closed then c else c.(dialing := true, dials := c.dials + 1)
  }

  /** ensureReady, from its loop head until it returns, throws or parks. */
  function EnsureReady(c: Client, r: Request): Client
  {
    if c.state == Closed then Reject(c, [r])
    else if c.live && c.state == Ready then c.(released := c.released + [r])
    else if !c.dialing && c.timer.None? then
      OpenSocket(if c.state == Idle then c.(state := Connecting) else c).(waiters := c.waiters + [r])
    else c.(waiters := c.waiters + [r])
  }

  /** request, up to its first await. */
  function Issue(c: Client, frame: Frame, origin: Origin): Client
  {
    var r := Request(|c.issued|, frame, origin);
    EnsureReady(c.(issued := c.issued + [r]), r)
  }

  /** A woken waiter goes round the ensureReady loop again. */
  function WakeNext(c: Client): Client
    requires c.woken != []
  {
    EnsureReady(c.(woken := c.woken[1..]), c.woken[0])
  }

  /** enqueuePending: queue the request and arm its timer under the current generation. */
  function Enqueue(c: Client, r: Request): Client
  {
    c.(pending := c.pending + [r], timers := c.timers[r.id := c.gen])
  }

  datatype Out = Out(c: Client, wrote: bytes)

  /** The continuation of requestRaw: enqueue, write, and on a failed write take the last entry back. */
  function Send(c: Client, r: Request, w: int): Out
    requires w <= |Encode(r.frame)|
  {
    var q := Enqueue(c, r);
    match WriteOrQueue(q.backlog, Encode(r.frame), w)
    case Some(x) => Out(q.(backlog := x.backlog), x.wrote)
    case None =>
      var last := q.pending[|q.pending| - 1];
      Out(Reject(q, [last]).(pending := q.pending[..|q.pending| - 1], timers := q.timers - {last.id}), [])
  }

  function SendNext(c: Client, w: int): Out
    requires c.released != [] && w <= |Encode(c.released[0].frame)|
  {
    Send(c.(released := c.released[1..]), c.released[0], w)
  }

  // ---------------------------------------------------------------------------
  // Connection lifecycle
  // ---------------------------------------------------------------------------

  /** The entry object with a given identity. */
  function At(heap: seq<Entry>, e: nat): Entry { if e < |heap| then heap[e] else RawEntry.Entry([], None, {}, false) }

  function Update(heap: seq<Entry>, e: nat, x: Entry): (r: seq<Entry>)
    ensures |r| == |heap|
  {
    if e < |heap| then heap[e := x] else heap
  }

  /** The entries of the subs map that are live on the wire, in map order. */
  function Wired(heap: seq<Entry>, subs: seq<nat>): seq<Entry>
  {
    if subs == [] then []
    else (if At(heap, subs[0]).wired then [At(heap, subs[0])] else []) + Wired(heap, subs[1..])
  }

  function SubFrames(es: seq<Entry>): seq<Frame>
  {
    seq(|es|, i requires 0 <= i < |es| => SubFrame(es[i].channel, es[i].filter))
  }

  /** The frames onOpen sends after the magic: AUTH if a token is held, then one SUB per live entry. */
  function Hello(token: Option<Token>, live: seq<Entry>): seq<Frame>
  {
    (if token.Some? then [AuthFrame(token.value)] else []) + SubFrames(live)
  }

  /** Write results a socket may give to a list of frames, none of them a failure. */
  predicate HelloResults(frames: seq<Frame>, ws: seq<int>)
  {
    |ws| == |frames| && forall i :: 0 <= i < |ws| ==> 0 <= ws[i] <= |Encode(frames[i])|
  }

  function SendHello(c: Client, frames: seq<Frame>, ws: seq<int>): Out
    requires HelloResults(frames, ws)
    decreases |frames|
  {
    if frames == [] then Out(c, [])
    else
      var r := Request(|c.issued|, frames[0], Handshake);
      var first := Send(c.(issued := c.issued + [r]), r, ws[0]);
      var rest := SendHello(first.c, frames[1..], ws[1..]);
      Out(rest.c, first.wrote + rest.wrote)
  }

  /** The open callback and onOpen. */
  function OnOpen(c: Client, ws: seq<int>): Out
    requires HelloResults(Hello(c.token, Wired(c.heap, c.subs)), ws)
  {
    var up := c.(dialing := false, gen := c.gen + 1, live := true, inbound := [], backlog := []);
    var hello := SendHello(up, Hello(c.token, Wired(c.heap, c.subs)), ws);
    Out(hello.c.(state := Ready, attempts := 0, dials := 0, unopened := false,
                 waiters := [], woken := hello.c.woken + hello.c.waiters),
        MAGIC + hello.wrote)
  }

  /** x * 2 ** n */
  function Doubled(x: real, n: nat): real { if n == 0 then x else 2.0 * Doubled(x, n - 1) }

  function Backoff(cfg: Config, attempts: nat): real
  {
    var b := Doubled(cfg.minDelay, attempts);
    if b <= cfg.maxDelay then b else cfg.maxDelay
  }

  /** The delay before a dial, in [b/2, b] for the backoff b. */
  function Delay(b: real, jitter: real): real { b / 2.0 + jitter * (b / 2.0) }

  /** scheduleReconnect; jitter is the value of Math.random(). */
  function ScheduleReconnect(cfg: Config, c: Client, jitter: real): Client
  {
    if c.timer.Some? || c.dialing || c.state == Closed then c
    else if cfg.maxAttempts.Some? && c.attempts >= cfg.maxAttempts.value then RejectWaiters(c.(state := Closed))
    else c.(attempts := c.attempts + 1, timer := Some(Delay(Backoff(cfg, c.attempts), jitter)))
  }

  /** handleDisconnect */
  function HandleDisconnect(cfg: Config, c: Client, jitter: real): Client
  {
    var d := RejectAllPending(c.(live := false, inbound := [], backlog := []));
    if d.state == Closed then d
    else if !cfg.enabled then RejectWaiters(d.(state := Idle))
    else ScheduleReconnect(cfg, d.(state := Reconnecting), jitter)
  }

  /** Bun.connect rejects. */
  function DialFailed(cfg: Config, c: Client, jitter: real): Client
  {
    HandleDisconnect(cfg, c.(dialing := false), jitter)
  }

  function ReconnectFires(c: Client): Client { OpenSocket(c.(timer := None)) }

  /** failConnection */
  function FailConnection(cfg: Config, c: Client, jitter: real): Client
  {
    var d := RejectAllPending(c);
    if d.live then HandleDisconnect(cfg, d.(live := false), jitter) else d
  }

  /** A request timer fires. */
  function RequestTimeout(cfg: Config, c: Client, id: nat, jitter: real): Client
    requires id in c.timers
  {
    var fired := c.(timers := c.timers - {id});
    if c.timers[id] == c.gen then FailConnection(cfg, fired, jitter) else fired
  }

  /** close */
  function Close(c: Client): Client
  {
    RejectWaiters(RejectAllPending(c.(state := Closed, timer := None))).(live := false, inbound := [], backlog := [])
  }

  // ---------------------------------------------------------------------------
  // Inbound
  // ---------------------------------------------------------------------------

  /** One complete inbound frame: events go to subscribers, anything else settles the oldest request. */
  function HandleFrame(c: Client, f: Frame): Client
  {
    if IsEvent(f) || c.pending == [] then c
    else
      c.(pending := c.pending[1..], timers := c.timers - {c.pending[0].id},
         log := c.log + [Settlement(c.pending[0], Resolved(f))])
  }

  function HandleAll(c: Client, fs: seq<Frame>): Client
    decreases |fs|
  {
    if fs == [] then c else HandleAll(HandleFrame(c, fs[0]), fs[1..])
  }

  /** onData */
  function OnData(c: Client, chunk: bytes): Client
  {
    var (fs, rest) := ParseAll(c.inbound + chunk);
    HandleAll(c.(inbound := rest), fs)
  }

  function Drain(c: Client, ws: seq<int>): Out
    requires FlushResults(c.backlog, ws)
  {
    var f := Flush(c.backlog, ws);
    Out(c.(backlog := f.backlog), f.wrote)
  }

  // ---------------------------------------------------------------------------
  // Subscriptions and continuations
  // ---------------------------------------------------------------------------

  /** subs.get(channel) */
  function Find(heap: seq<Entry>, subs: seq<nat>, channel: bytes): (r: Option<nat>)
    ensures r.Some? ==> r.value in subs && At(heap, r.value).channel == channel
    ensures r.None? ==> forall e :: e in subs ==> At(heap, e).channel != channel
  {
    if subs == [] then None
    else if At(heap, subs[0]).channel == channel then Some(subs[0])
    else Find(heap, subs[1..], channel)
  }

  /** subs.delete(channel) */
  function Delete(heap: seq<Entry>, subs: seq<nat>, channel: bytes): (r: seq<nat>)
    ensures forall e :: e in r <==> e in subs && At(heap, e).channel != channel
  {
    if subs == [] then []
    else (if At(heap, subs[0]).channel == channel then [] else [subs[0]]) + Delete(heap, subs[1..], channel)
  }

  /** subscribe, up to its first await. An oversized SUB throws and leaves no trace. */
  function Subscribe(c: Client, channel: bytes, handler: nat, filter: Option<bytes>): Client
  {
    match Find(c.heap, c.subs, channel)
    case Some(e) =>
      var entry := At(c.heap, e);
      c.(heap := Update(c.heap, e, entry.(handlers := entry.handlers + {handler})))
    case None =>
      if SubSize(channel, filter) > MAX_PAYLOAD then c
      else
        var e := |c.heap|;
        var added := c.(heap := c.heap + [RawEntry.Entry(channel, filter, {handler}, false)], subs := c.subs + [e]);
        Issue(added, SubFrame(channel, filter), SubOf(e, handler))
  }

  /** removeHandler, up to its first await. */
  function RemoveHandler(c: Client, channel: bytes, handler: nat): Client
  {
    match Find(c.heap, c.subs, channel)
    case None => c
    case Some(e) =>
      var entry := At(c.heap, e);
      var left := entry.handlers - {handler};
      var d := c.(heap := Update(c.heap, e, entry.(handlers := left)));
      if left != {} then d
      else
        var gone := d.(subs := Delete(d.heap, d.subs, channel));
        if c.live && c.state == Ready && 4 + |channel| <= MAX_PAYLOAD
        then Issue(gone, UnsubFrame(channel), UnsubOf(channel)) else gone
  }

  /** The oldest continuation that has not run: subscribe and auth act on their reply, others do not. */
  function Continue(c: Client): Client
    requires c.handled < |c.log|
  {
    var s := c.log[c.handled];
    var d := c.(handled := c.handled + 1);
    match s.req.origin
    case SubOf(e, handler) =>
      var entry := At(c.heap, e);
      if Succeeded(s) then d.(heap := Update(c.heap, e, entry.(wired := true)))
      else
        var left := entry.handlers - {handler};
        var h := Update(c.heap, e, entry.(handlers := left));
        d.(heap := h, subs := if left == {} then Delete(h, c.subs, entry.channel) else c.subs)
    case AuthOf(t) => if Succeeded(s) then d.(token := Some(t)) else d
    case _ => d
  }

  /** No promise continuation is waiting to run, so the event loop may deliver the next callback. */
  predicate Quiet(c: Client) { c.woken == [] && c.released == [] && c.handled == |c.log| }
}
