/**
 The lifecycle of a DB-API connection to BigQuery as a value-level state
 machine: which clients the connection owns, whether it is closed, which
 cursors it has handed out, and which close() calls each request makes on
 other objects. The Connection class in connection.dfy is proved to take
 exactly these steps; the lemmas here lift single steps to whole call
 sequences.
 */
module Lifecycle {

  /** The message of the closed-connection guard. */
  const ClosedConnectionMessage: string := "Operating on a closed connection."

  /** The DB-API error the guard raises. */
  datatype Error = ProgrammingError(message: string)

  const ClosedConnection: Error := ProgrammingError(ClosedConnectionMessage)

  /** How a request that returns nothing ends: normally, or with an error. */
  datatype Status = Completed | Failed(error: Error)

  /** How a request that returns a value ends. */
  datatype Result<T> = Success(value: T) | Failure(error: Error)

  /**
   The connection's own state: the two ownership flags, the closed flag and
   the registry of cursors it created (cursors are of type C).
   */
  datatype ConnState<C> = ConnState(ownsClient: bool, ownsStorage: bool, closed: bool, registry: set<C>)

  /**
   What can happen to a connection after construction: one of its three
   public methods is called, or the garbage collector drops some cursors
   from the weakly-referenced registry.
   */
  datatype Request<C> = CloseCall | CommitCall | CursorCall(cursor: C) | Collected(gone: set<C>)
  {
    /** Public methods pass through the closed-connection guard; reclamation does not. */
    predicate Guarded() {
      !Collected?
    }
  }

  /** The close() calls a request makes on objects other than the connection. */
  datatype Effect<C> = Effect(closesClient: bool, closesChannel: bool, closesCursors: set<C>)

  datatype Transition<C> = Transition(next: ConnState<C>, status: Status, effect: Effect<C>)

  function NoEffect<C>(): Effect<C> {
    Effect(false, false, {})
  }

  /**
   The state right after construction. `clientPassed` and `storagePassed`
   say whether the caller supplied each client; `storageCreated` whether
   the primary client's factory produced a Storage client when none was
   supplied.
   */
  function Init<C>(clientPassed: bool, storagePassed: bool, storageCreated: bool): (s: ConnState<C>)
    ensures s.ownsClient <==> !clientPassed
    ensures s.ownsStorage <==> !storagePassed && storageCreated
    ensures !s.closed && s.registry == {}
  {
    ConnState(!clientPassed, !storagePassed && storageCreated, false, {})
  }

  /** One request. */
  function Step<C>(s: ConnState<C>, r: Request<C>): (t: Transition<C>)
    // the guard: on a closed connection a public method fails and does no work
    ensures s.closed && r.Guarded() ==> t == Transition(s, Failed(ClosedConnection), NoEffect())
    ensures !s.closed || !r.Guarded() ==> t.status == Completed
    // closing is final, and close() always leaves the connection closed
    ensures s.closed ==> t.next.closed
    ensures r.CloseCall? ==> t.next.closed
    // ownership is decided at construction and never changes
    ensures t.next.ownsClient == s.ownsClient && t.next.ownsStorage == s.ownsStorage
    // only owned clients are closed, and only registered cursors
    ensures t.effect.closesClient ==> s.ownsClient
    ensures t.effect.closesChannel ==> s.ownsStorage
    ensures t.effect.closesCursors <= s.registry
    // only close() has effects on other objects
    ensures !r.CloseCall? ==> t.effect == NoEffect()
  {
    if s.closed && r.Guarded() then
      Transition(s, Failed(ClosedConnection), NoEffect())
    else
      match r
      case CloseCall =>
        Transition(s.(closed := true), Completed, Effect(s.ownsClient, s.ownsStorage, s.registry))
      case CommitCall =>
        Transition(s, Completed, NoEffect())
      case CursorCall(c) =>
        Transition(s.(registry := s.registry + {c}), Completed, NoEffect())
      case Collected(gone) =>
        Transition(s.(registry := s.registry - gone), Completed, NoEffect())
  }

  /** The state after a sequence of requests. */
  function Run<C>(s: ConnState<C>, reqs: seq<Request<C>>): ConnState<C>
    decreases |reqs|
  {
    if reqs == [] then s else Run(Step(s, reqs[0]).next, reqs[1..])
  }

  /** How many times a sequence of requests closes the primary client. */
  function ClientCloses<C>(s: ConnState<C>, reqs: seq<Request<C>>): nat
    decreases |reqs|
  {
    if reqs == [] then 0
    else
      var t := Step(s, reqs[0]);
      (if t.effect.closesClient then 1 else 0) + ClientCloses(t.next, reqs[1..])
  }

  /** How many times a sequence of requests closes the Storage client's channel. */
  function ChannelCloses<C>(s: ConnState<C>, reqs: seq<Request<C>>): nat
    decreases |reqs|
  {
    if reqs == [] then 0
    else
      var t := Step(s, reqs[0]);
      (if t.effect.closesChannel then 1 else 0) + ChannelCloses(t.next, reqs[1..])
  }

  /** The cursors a sequence of requests closes. */
  function CursorsClosed<C>(s: ConnState<C>, reqs: seq<Request<C>>): set<C>
    decreases |reqs|
  {
    if reqs == [] then {}
    else
      var t := Step(s, reqs[0]);
      t.effect.closesCursors + CursorsClosed(t.next, reqs[1..])
  }

  /**
   Once closed, a connection stays closed, keeps its ownership flags and
   closes nothing more, whatever is requested of it.
   */
  lemma {:induction false} ClosedIsFinal<C>(s: ConnState<C>, reqs: seq<Request<C>>)
    requires s.closed
    ensures Run(s, reqs).closed
    ensures Run(s, reqs).ownsClient == s.ownsClient && Run(s, reqs).ownsStorage == s.ownsStorage
    ensures ClientCloses(s, reqs) == 0 && ChannelCloses(s, reqs) == 0
    ensures CursorsClosed(s, reqs) == {}
    decreases |reqs|
  {
    if reqs != [] {
      ClosedIsFinal(Step(s, reqs[0]).next, reqs[1..]);
    }
  }

  /** A connection is closed after a sequence of requests exactly when it was closed before or close() was requested. */
  lemma {:induction false} ClosedIffCloseCalled<C>(s: ConnState<C>, reqs: seq<Request<C>>)
    ensures Run(s, reqs).closed <==> s.closed || CloseCall in reqs
    decreases |reqs|
  {
    if reqs == [] {
    } else if s.closed {
      ClosedIsFinal(s, reqs);
    } else {
      var next := Step(s, reqs[0]).next;
      ClosedIffCloseCalled(next, reqs[1..]);
      assert reqs == [reqs[0]] + reqs[1..];
      if reqs[0].CloseCall? {
        ClosedIsFinal(next, reqs[1..]);
      }
    }
  }

  /**
   Over any sequence of requests to an open connection, the primary client
   is closed exactly once if the connection owns it and close() is
   requested, and never otherwise; likewise the Storage client's channel.
   */
  lemma {:induction false} OwnedClientsClosedOnce<C>(s: ConnState<C>, reqs: seq<Request<C>>)
    requires !s.closed
    ensures ClientCloses(s, reqs) == if s.ownsClient && CloseCall in reqs then 1 else 0
    ensures ChannelCloses(s, reqs) == if s.ownsStorage && CloseCall in reqs then 1 else 0
    decreases |reqs|
  {
    if reqs != [] {
      var next := Step(s, reqs[0]).next;
      assert reqs == [reqs[0]] + reqs[1..];
      if reqs[0].CloseCall? {
        ClosedIsFinal(next, reqs[1..]);
      } else {
        OwnedClientsClosedOnce(next, reqs[1..]);
      }
    }
  }

  /**
   From construction on: a client the caller supplied is never closed by
   the connection, and neither client is ever closed more than once.
   */
  lemma PassedClientsNeverClosed<C>(clientPassed: bool, storagePassed: bool, storageCreated: bool, reqs: seq<Request<C>>)
    ensures clientPassed ==> ClientCloses(Init<C>(clientPassed, storagePassed, storageCreated), reqs) == 0
    ensures storagePassed ==> ChannelCloses(Init<C>(clientPassed, storagePassed, storageCreated), reqs) == 0
    ensures ClientCloses(Init<C>(clientPassed, storagePassed, storageCreated), reqs) <= 1
    ensures ChannelCloses(Init<C>(clientPassed, storagePassed, storageCreated), reqs) <= 1
  {
    OwnedClientsClosedOnce(Init<C>(clientPassed, storagePassed, storageCreated), reqs);
  }

  /** Running two sequences one after the other. */
  lemma {:induction false} RunAppend<C>(s: ConnState<C>, a: seq<Request<C>>, b: seq<Request<C>>)
    ensures Run(s, a + b) == Run(Run(s, a), b)
    ensures CursorsClosed(s, a + b) == CursorsClosed(s, a) + CursorsClosed(Run(s, a), b)
    decreases |a|
  {
    if a == [] {
      assert a + b == b;
    } else {
      assert (a + b)[0] == a[0];
      assert (a + b)[1..] == a[1..] + b;
      RunAppend(Step(s, a[0]).next, a[1..], b);
    }
  }

  /** A registered cursor stays registered, and the connection open, while neither close() nor its reclamation happens. */
  lemma {:induction false} RegisteredWhileLive<C>(s: ConnState<C>, reqs: seq<Request<C>>, c: C)
    requires !s.closed && c in s.registry
    requires forall i :: 0 <= i < |reqs| ==> !reqs[i].CloseCall? && !(reqs[i].Collected? && c in reqs[i].gone)
    ensures !Run(s, reqs).closed && c in Run(s, reqs).registry
    decreases |reqs|
  {
    if reqs != [] {
      RegisteredWhileLive(Step(s, reqs[0]).next, reqs[1..], c);
    }
  }

  /** A cursor that is not registered stays out of the registry unless it is handed out again. */
  lemma {:induction false} UnregisteredStaysOut<C>(s: ConnState<C>, reqs: seq<Request<C>>, c: C)
    requires c !in s.registry
    requires forall i :: 0 <= i < |reqs| ==> reqs[i] != CursorCall(c)
    ensures c !in Run(s, reqs).registry
    decreases |reqs|
  {
    if reqs != [] {
      assert reqs[0] != CursorCall(c);
      UnregisteredStaysOut(Step(s, reqs[0]).next, reqs[1..], c);
    }
  }

  /**
   Every cursor handed out by an open connection, and not reclaimed since,
   is closed by the next close().
   */
  lemma LiveCursorIsClosed<C>(s: ConnState<C>, pre: seq<Request<C>>, c: C, mid: seq<Request<C>>)
    requires !s.closed && CloseCall !in pre
    requires forall i :: 0 <= i < |mid| ==> !mid[i].CloseCall? && !(mid[i].Collected? && c in mid[i].gone)
    ensures c in CursorsClosed(s, pre + [CursorCall(c)] + mid + [CloseCall])
  {
    ClosedIffCloseCalled(s, pre);
    var s1 := Run(s, pre);
    var s2 := Step(s1, CursorCall(c)).next;
    RegisteredWhileLive(s2, mid, c);
    var s3 := Run(s2, mid);
    RunAppend(s, pre, [CursorCall(c)]);
    RunAppend(s, pre + [CursorCall(c)], mid);
    RunAppend(s, pre + [CursorCall(c)] + mid, [CloseCall]);
    assert Run(s, pre + [CursorCall(c)] + mid) == s3;
    assert c in CursorsClosed(s3, [CloseCall]);
  }

  /**
   A cursor the garbage collector reclaimed, and that is not handed out
   again, is absent from the cascade of a later close().
   */
  lemma ReclaimedCursorIsSkipped<C>(s: ConnState<C>, gone: set<C>, mid: seq<Request<C>>, c: C)
    requires c in gone
    requires forall i :: 0 <= i < |mid| ==> mid[i] != CursorCall(c)
    ensures c !in Step(Run(Step(s, Collected(gone)).next, mid), CloseCall).effect.closesCursors
  {
    UnregisteredStaysOut(Step(s, Collected(gone)).next, mid, c);
  }
}
