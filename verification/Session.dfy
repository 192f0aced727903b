/**
 A `WormDB` object in use: the object, the socket it last opened and, for the proof, its
 connections and what has happened so far. Whatever is called, in whatever order, the
 object's state and its connections are those of a run of `System`, and the bytes its
 socket accepted are those the run says, so every theorem about runs holds of the object.
 */
module Session {
  import opened Bytes
  import opened Frames
  import opened Backlog
  import opened ClientSteps
  import opened System
  import opened Lifecycle
  import opened Settlement
  import opened Correlation
  import opened Ledger
  import opened Subscriptions
  import opened Theorems
  import opened WormDBClass

  // ---------------------------------------------------------------------------
  // The bytes a socket accepted
  // ---------------------------------------------------------------------------

  /** Steps in which the client writes. */
  predicate Writes(step: Step) { step.SendFrame? || step.DrainSocket? || step.DialOk? }

  lemma ServeAccepted(conn: Conn, cmd: Frame, rest: bytes, reply: Frame)
    requires conn.greeted && conn.srvIn == Encode(cmd) + rest
    ensures Accepted(conn.(srvIn := rest, served := conn.served + [Served(cmd, reply)])) == Accepted(conn)
  {
    hide Encode, EncodeAll;
    var before := CommandsOf(conn.served);
    assert CommandsOf(conn.served + [Served(cmd, reply)]) == before + [cmd];
    EncodeAllAppend(before, [cmd]);
    EncodeOne(cmd);
    AppendAssoc(MAGIC, EncodeAll(before), Encode(cmd));
    AppendAssoc(MAGIC + EncodeAll(before), Encode(cmd), rest + conn.c2s);
    AppendAssoc(Encode(cmd), rest, conn.c2s);
  }

  lemma GreetAccepted(conn: Conn)
    requires !conn.greeted && conn.served == [] && |conn.srvIn| >= 2 && conn.srvIn[..2] == MAGIC
    ensures Accepted(conn.(greeted := true, srvIn := conn.srvIn[2..])) == Accepted(conn)
  {
    EncodeNone();
    assert CommandsOf([]) == [];
    hide EncodeAll;
    assert MAGIC + [] == MAGIC;
    assert conn.srvIn == MAGIC + conn.srvIn[2..];
    AppendAssoc(MAGIC, conn.srvIn[2..], conn.c2s);
  }

  lemma DeliverAccepted(conn: Conn, n: nat)
    requires n <= |conn.c2s|
    ensures Accepted(conn.(c2s := conn.c2s[n..], srvIn := conn.srvIn + conn.c2s[..n])) == Accepted(conn)
  {
    hide EncodeAll;
    assert conn.c2s == conn.c2s[..n] + conn.c2s[n..];
    AppendAssoc(conn.srvIn, conn.c2s[..n], conn.c2s[n..]);
  }

  /** Other steps leave what the newest socket accepted as it is. */
  lemma OthersAcceptNothing(cfg: Config, s: Sys, step: Step)
    requires Inv(cfg, s) && Enabled(s, step) && !Writes(step)
    ensures var t := Apply(cfg, s, step);
            |t.conns| == |s.conns| && (s.conns != [] ==> Accepted(Last(t)) == Accepted(Last(s)))
  {
    hide LifeInv, SettleInv, Correlated, LedgerInv, Issue, EnsureReady, Close, Continue, HandleDisconnect;
    hide RequestTimeout, OnData, ParseAll, Encode, EncodeAll, Hello, TryConsume, Accepted, Subscribe, RemoveHandler;
    hide Inbox, SubInv, WakeNext, DialFailed, ReconnectFires;
    match step {
      case Deliver(k, n) => DeliverAccepted(s.conns[k], n);
      case Greet(k) =>
        assert Wire(s.conns[k]);
        MagicFirst(s.conns[k]);
        GreetAccepted(s.conns[k]);
      case Serve(k, reply) =>
        var Got(cmd, rest) := TryConsume(s.conns[k].srvIn);
        ServeAccepted(s.conns[k], cmd, rest, reply);
        AcceptedIgnoresReplies(s.conns[k].(srvIn := rest, served := s.conns[k].served + [Served(cmd, reply)]),
                               s.conns[k].transit + [reply], s.conns[k].s2c + Encode(reply));
      case Emit(k, event) =>
        AcceptedIgnoresReplies(s.conns[k], s.conns[k].transit + [event], s.conns[k].s2c + Encode(event));
      case Data(n) =>
        var conn := Last(s);
        var frames := |ParseAll(s.c.inbound + conn.s2c[..n]).0|;
        AcceptedIgnoresReplies(conn, Drop(conn.transit, frames), conn.s2c[n..]);
      case _ =>
    }
  }

  lemma AcceptedIgnoresReplies(conn: Conn, transit: seq<Frame>, s2c: bytes)
    ensures Accepted(conn.(s2c := s2c, transit := transit)) == Accepted(conn)
  {
    hide EncodeAll;
  }

  lemma MagicFirst(conn: Conn)
    requires Wire(conn) && !conn.greeted && |conn.srvIn| >= 2
    ensures conn.srvIn[..2] == MAGIC && conn.served == []
  {
    hide EncodeAll, FramesOf;
    assert Outbound(conn)[..2] == MAGIC;
    assert Outbound(conn)[..2] == conn.srvIn[..2];
  }

  lemma SubmitAccepted(conn: Conn, rs: seq<Request>, o: Out)
    ensures Accepted(Submit(conn, rs, o)) == Accepted(conn) + o.wrote
  {
    hide EncodeAll, Concat;
    var head := if conn.greeted then MAGIC + EncodeAll(CommandsOf(conn.served)) else [];
    AppendAssoc(conn.srvIn, conn.c2s, o.wrote);
    AppendAssoc(head, conn.srvIn + conn.c2s, o.wrote);
  }

  /** A send hands over exactly the bytes it wrote. */
  lemma SendAccepts(cfg: Config, s: Sys, w: int)
    requires Inv(cfg, s) && Enabled(s, SendFrame(w)) && s.conns != []
    ensures var t := Apply(cfg, s, SendFrame(w));
            |t.conns| == |s.conns| && Accepted(Last(t)) == Accepted(Last(s)) + SendNext(s.c, w).wrote
  {
    hide SettleInv, Correlated, LedgerInv, LinkInv, SubInv, Accepted, Encode, Submit, Send;
    var c := s.c;
    var o := SendNext(c, w);
    SubmitAccepted(Last(s), [c.released[0]], o);
    if !(c.live && (c.backlog != [] || w >= 0)) {
      FailedSendLeavesNoTrace(c.(released := c.released[1..]), c.released[0], w);
      assert Accepted(Last(s)) + [] == Accepted(Last(s));
    }
  }

  lemma DrainAccepts(cfg: Config, s: Sys, ws: seq<int>)
    requires Enabled(s, DrainSocket(ws)) && s.conns != []
    ensures var t := Apply(cfg, s, DrainSocket(ws));
            |t.conns| == |s.conns| && Accepted(Last(t)) == Accepted(Last(s)) + Drain(s.c, ws).wrote
  {
    hide Accepted, Submit, Flush;
    SubmitAccepted(Last(s), [], Drain(s.c, ws));
  }

  lemma OpenAccepts(cfg: Config, s: Sys, ws: seq<int>)
    requires Enabled(s, DialOk(ws))
    ensures var t := Apply(cfg, s, DialOk(ws));
            t.conns != [] && Accepted(Last(t)) == OnOpen(s.c, ws).wrote
  {
    hide OnOpen, Hello, Wired, EncodeAll, Concat;
    var o := OnOpen(s.c, ws);
    assert [] + ([] + o.wrote) == o.wrote;
  }

  // ---------------------------------------------------------------------------
  // The session
  // ---------------------------------------------------------------------------

  class Session {
    const cfg: Config
    const db: WormDB
    var sock: Socket?
    ghost var conns: seq<Conn>
    ghost var history: seq<Step>

    ghost function State(): Sys
      reads this, db
    {
      Sys(db.Abs(), conns)
    }

    /** What has happened is a run, and the newest socket accepted what the run says. */
    ghost predicate Valid()
      reads this, db, sock
    {
      && db.cfg == cfg
      && Run(cfg, INIT_SYS, history, State())
      && (db.socket == null || db.socket == sock)
      && (sock == null <==> conns == [])
      && (sock != null ==> sock.accepted == Accepted(Last(State())))
    }

    constructor (config: Config)
      ensures Valid() && cfg == config && history == [] && fresh(db)
    {
      cfg := config;
      db := new WormDB(config);
      sock := null;
      conns, history := [], [];
      new;
      NoSteps(cfg, INIT_SYS);
    }

    /** Records that the object has made a step. */
    ghost method Record(s: Sys, step: Step)
      requires Run(cfg, INIT_SYS, history, s) && conns == s.conns && Enabled(s, step)
      requires db.Abs() == Apply(cfg, s, step).c
      modifies this`conns, this`history
      ensures history == old(history) + [step] && State() == Apply(cfg, s, step)
      ensures Run(cfg, INIT_SYS, history, State())
    {
      hide Run, Apply, Enabled;
      RunSnoc(cfg, INIT_SYS, history, s, step);
      conns, history := Apply(cfg, s, step).conns, history + [step];
    }

    /** Records a step in which nothing is written. */
    ghost method RecordQuiet(s: Sys, step: Step)
      requires Run(cfg, INIT_SYS, history, s) && conns == s.conns && Enabled(s, step) && !Writes(step)
      requires db.cfg == cfg && db.Abs() == Apply(cfg, s, step).c
      requires db.socket == null || db.socket == sock
      requires (sock == null <==> conns == []) && (sock != null ==> sock.accepted == Accepted(Last(s)))
      modifies this`conns, this`history
      ensures history == old(history) + [step] && Valid()
    {
      hide Run, Apply, Enabled, Accepted;
      Reachable(cfg, history, s);
      OthersAcceptNothing(cfg, s, step);
      Record(s, step);
    }

    // -------------------------------------------------------------------------
    // User calls
    // -------------------------------------------------------------------------

    method Request(frame: Frame)
      requires Valid()
      modifies this`conns, this`history, db
      ensures Valid() && history == old(history) + [UserRequest(frame)]
    {
      hide Run, Issue, Accepted;
      ghost var s := State();
      db.Request(frame, Direct);
      RecordQuiet(s, UserRequest(frame));
    }

    method Auth(token: Token)
      requires Valid()
      modifies this`conns, this`history, db
      ensures Valid() && history == old(history) + [UserAuth(token)]
    {
      hide Run, Issue, Accepted, AuthFrame;
      ghost var s := State();
      db.Request(AuthFrame(token), AuthOf(token));
      RecordQuiet(s, UserAuth(token));
    }

    method Subscribe(channel: bytes, handler: nat, filter: Option<bytes>)
      requires Valid()
      modifies this`conns, this`history, db
      ensures Valid() && history == old(history) + [UserSubscribe(channel, handler, filter)]
    {
      hide Run, Accepted, ClientSteps.Subscribe;
      ghost var s := State();
      db.Subscribe(channel, handler, filter);
      RecordQuiet(s, UserSubscribe(channel, handler, filter));
    }

    method Unsubscribe(channel: bytes, handler: nat)
      requires Valid()
      modifies this`conns, this`history, db
      ensures Valid() && history == old(history) + [UserUnsubscribe(channel, handler)]
    {
      hide Run, Accepted, RemoveHandler;
      ghost var s := State();
      db.RemoveHandler(channel, handler);
      RecordQuiet(s, UserUnsubscribe(channel, handler));
    }

    method Close()
      requires Valid()
      modifies this`conns, this`history, db
      ensures Valid() && history == old(history) + [UserClose]
    {
      hide Run, Accepted, ClientSteps.Close;
      ghost var s := State();
      db.Close();
      RecordQuiet(s, UserClose);
    }

    // -------------------------------------------------------------------------
    // Promise continuations
    // -------------------------------------------------------------------------

    /** A woken waiter goes round the loop of ensureReady again. */
    method WakeOne()
      requires Valid() && db.rt.woken != []
      modifies this`conns, this`history, db
      ensures Valid() && history == old(history) + [Wake]
    {
      hide Run, Accepted, EnsureReady;
      ghost var s := State();
      var r := db.rt.woken[0];
      db.rt := db.rt.(woken := db.rt.woken[1..]);
      assert db.Abs() == s.c.(woken := s.c.woken[1..]);
      db.EnsureReady(r);
      RecordQuiet(s, Wake);
    }

    method Continuation()
      requires Valid() && db.rt.handled < |db.rt.log|
      modifies this`conns, this`history, db
      ensures Valid() && history == old(history) + [RunContinuation]
    {
      hide Run, Accepted, Continue;
      ghost var s := State();
      db.RunContinuation();
      RecordQuiet(s, RunContinuation);
    }

    /** A released request has a socket: the one last opened. */
    lemma ReleasedHasSocket()
      requires Valid() && db.rt.released != []
      ensures sock != null && conns != []
    {
      hide Run, Accepted, SettleInv, LinkInv, Correlated, LedgerInv, SubInv, OneLink, NoStranded, Phases, Budget;
      Reachable(cfg, history, State());
    }

    /** The write of a released request. It is a step of the run unless a socket that was ended takes bytes. */
    method SendOne() returns (w: int, kept: bool)
      requires Valid() && db.rt.released != []
      modifies this`conns, this`history, db, sock
      ensures kept <==> old(db.socket) != null || w < 0
      ensures kept ==> Valid() && history == old(history) + [SendFrame(w)]
    {
      hide Run, Accepted, SendNext, Encode, EncodeAll;
      ghost var s := State();
      ReleasedHasSocket();
      kept := db.socket != null;
      w := db.SendReleased(sock);
      kept := kept || w < 0;
      if kept {
        Reachable(cfg, history, s);
        SendAccepts(cfg, s, w);
        hide Inv, Apply;
        Record(s, SendFrame(w)) by { assert db.Abs() == Apply(cfg, s, SendFrame(w)).c by { SendIs(cfg, s, w); } }
      }
    }

    // -------------------------------------------------------------------------
    // Callbacks, which come when no continuation is waiting
    // -------------------------------------------------------------------------

    /** A dial succeeds. It is a step of the run unless a write of the handshake fails or the magic is cut. */
    method Opened(next: Socket) returns (ws: seq<int>, kept: bool)
      requires Valid() && db.connecting && Quiet(db.Abs()) && next.accepted == []
      modifies this`sock, this`conns, this`history, db, next
      ensures kept ==> Valid() && history == old(history) + [DialOk(ws)] && sock == next
    {
      hide Run, Accepted, OnOpen, Hello, Wired, HelloResults;
      ghost var s := State();
      var ok, magic;
      ok, magic, ws := db.OnOpen(next);
      kept := ok && magic == |MAGIC|;
      if kept {
        OpenAccepts(cfg, s, ws);
        assert [] + OnOpen(s.c, ws).wrote == OnOpen(s.c, ws).wrote;
        sock := next;
        Record(s, DialOk(ws));
      }
    }

    method DialFails(jitter: real)
      requires Valid() && db.connecting && Quiet(db.Abs()) && Jitter(jitter)
      modifies this`conns, this`history, db
      ensures Valid() && history == old(history) + [DialFail(jitter)]
    {
      hide Run, Accepted, DialFailed;
      ghost var s := State();
      db.OnDialFailed(jitter);
      RecordQuiet(s, DialFail(jitter));
    }

    method TimerFires()
      requires Valid() && db.reconnectTimer.Some? && Quiet(db.Abs())
      modifies this`conns, this`history, db
      ensures Valid() && history == old(history) + [ReconnectTimer]
    {
      hide Run, Accepted, ReconnectFires;
      ghost var s := State();
      db.OnReconnectTimer();
      RecordQuiet(s, ReconnectTimer);
    }

    method RequestTimesOut(id: nat, jitter: real)
      requires Valid() && id in db.timers && Quiet(db.Abs()) && Jitter(jitter)
      modifies this`conns, this`history, db
      ensures Valid() && history == old(history) + [Timeout(id, jitter)]
    {
      hide Run, Accepted, RequestTimeout;
      ghost var s := State();
      db.OnRequestTimer(id, jitter);
      RecordQuiet(s, Timeout(id, jitter));
    }

    method Disconnects(jitter: real)
      requires Valid() && (db.generation > 0 || db.connecting) && Quiet(db.Abs()) && Jitter(jitter)
      modifies this`conns, this`history, db
      ensures Valid() && history == old(history) + [SocketClosed(jitter)]
    {
      hide Run, Accepted, HandleDisconnect;
      ghost var s := State();
      db.HandleDisconnect(jitter);
      RecordQuiet(s, SocketClosed(jitter));
    }

    /** A chunk of what the server sent on the newest connection. */
    method Receive(chunk: bytes)
      requires Valid() && db.socket != null && Quiet(db.Abs()) && conns != [] && chunk <= Last(State()).s2c
      modifies this`conns, this`history, db
      ensures Valid() && history == old(history) + [Data(|chunk|)]
    {
      hide Run, Accepted, OnData, ParseAll;
      ghost var s := State();
      assert Last(s).s2c[..|chunk|] == chunk;
      db.OnData(chunk);
      RecordQuiet(s, Data(|chunk|));
    }

    /** Anything a dropped socket still delivers. */
    method ReceiveStray(chunk: bytes)
      requires Valid() && db.socket == null && Quiet(db.Abs())
      modifies this`conns, this`history, db
      ensures Valid() && history == old(history) + [StrayData(chunk)]
    {
      hide Run, Accepted, OnData;
      ghost var s := State();
      db.OnData(chunk);
      RecordQuiet(s, StrayData(chunk));
    }

    /** The socket drains. It is a step of the run unless a write fails. */
    method Drains() returns (ws: seq<int>)
      requires Valid() && db.socket != null && Quiet(db.Abs())
      modifies this`conns, this`history, db, sock
      ensures NoFailure(ws) ==> Valid() && history == old(history) + [DrainSocket(ws)]
    {
      hide Run, Accepted, Flush, FlushResults;
      ghost var s := State();
      ws := db.FlushBacklog(sock);
      if NoFailure(ws) {
        DrainAccepts(cfg, s, ws);
        Record(s, DrainSocket(ws));
      }
    }

    /** The byte channels and the server move on their own. */
    ghost method ServerMoves(step: Step)
      requires Valid() && Enabled(State(), step)
      requires step.Deliver? || step.Greet? || step.Serve? || step.Emit?
      modifies this`conns, this`history
      ensures Valid() && history == old(history) + [step]
    {
      hide Run, Accepted;
      RecordQuiet(State(), step);
    }

    // -------------------------------------------------------------------------
    // What the run theorems say about the object
    // -------------------------------------------------------------------------

    /** Every request the object has resolved holds the server's reply to its own frame. */
    lemma ObjectIsCorrelated(i: nat)
      requires Valid() && i < |db.rt.log| && db.rt.log[i].outcome.Resolved?
      ensures exists k: nat, j: nat :: AnsweredAt(conns, k, j, db.rt.log[i])
    {
      hide Run, Accepted, AnsweredAt;
      RepliesReachTheirRequests(cfg, history, State(), i);
    }

    /** The bytes its socket took, then its backlog, are the magic and every frame submitted, in order. */
    lemma ObjectConservesBytes()
      requires Valid() && db.socket != null
      ensures sock != null && conns != []
      ensures sock.accepted + Concat(db.writeBacklog) == MAGIC + EncodeAll(FramesOf(Last(State()).sent))
    {
      hide Run, Accepted, EncodeAll, FramesOf, Concat;
      BytesConserved(cfg, history, State(), |conns| - 1);
    }
  }

  lemma SendIs(cfg: Config, s: Sys, w: int)
    requires Enabled(s, SendFrame(w))
    ensures Apply(cfg, s, SendFrame(w)).c == SendNext(s.c, w).c
  {
    hide SendNext, Submit, Encode;
  }
}
