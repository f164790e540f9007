/** The serial command queue of a graph (`queryQueue`, `transit`, `queue`
    and `syncIt`), as a state machine over values. The command waiting for its
    response is explicit (`inFlight`); the transport is the environment, which
    receives each dispatched command and later answers it. The element type is
    left open: the graph queues a command together with its handler. */
module RequestQueue {
  import opened Wrappers

  /** `pending` is `queryQueue`; `transit` is whether `transit` is set. */
  datatype Queue<E> = Queue(pending: seq<E>, inFlight: Option<E>, transit: bool)

  /** A queue that is not draining holds nothing. */
  ghost predicate Inv<E>(q: Queue<E>)
  {
    !q.transit ==> q.pending == [] && q.inFlight == None
  }

  predicate IsIdle<E>(q: Queue<E>)
  {
    q.pending == [] && q.inFlight == None && !q.transit
  }

  /** Draining was started and nothing is awaiting a response: no `syncIt`
      call is pending, so nothing will ever be dispatched again. A handler
      that throws leaves the queue in this state. */
  predicate Stalled<E>(q: Queue<E>)
  {
    q.transit && q.inFlight == None
  }

  /** The result of a step: the new state and the command handed to the
      transport, if any. */
  datatype Step<E> = Step(next: Queue<E>, sent: Option<E>)

  /** `syncIt`: dispatch the head of the queue, or, when it is empty, clear
      `transit`. Called only when no command is awaiting its response. The
      command sent is the one now in flight; nothing is lost or reordered (the
      command sent, then what stays pending, is what was pending); a command is
      sent exactly when one was pending, and otherwise the queue falls idle. */
  function SyncIt<E>(q: Queue<E>): (r: Step<E>)
    requires q.inFlight == None
    ensures Inv(q) ==> Inv(r.next)
    ensures r.next.inFlight == r.sent
    ensures Opt(r.sent) + r.next.pending == q.pending
    ensures r.sent.Some? <==> q.pending != []
    ensures r.sent == None ==> IsIdle(r.next)
    ensures r.sent.Some? ==> r.next.transit == q.transit
  {
    if |q.pending| > 0 then Step(Queue(q.pending[1..], Some(q.pending[0]), q.transit), Some(q.pending[0]))
    else Step(q.(transit := false), None)
  }

  /** `queue(q, handler)`: append, and start draining when the queue is idle. */
  function Push<E>(q: Queue<E>, e: E): (r: Step<E>)
    requires Inv(q)
    ensures Inv(r.next)
    ensures !q.transit ==> r.sent == Some(e) && r.next == Queue([], Some(e), true)
    ensures q.transit ==> r.sent == None && r.next == q.(pending := q.pending + [e])
  {
    var q' := q.(pending := q.pending + [e]);
    if q.transit then Step(q', None) else SyncIt(q'.(transit := true))
  }

  /** What answering the command in flight does. */
  datatype Answer<E> = Answer(next: Queue<E>, handled: Option<E>, sent: Option<E>)

  /** The response callback of `syncIt`: unless the response is the failure
      sentinel, the command's handler runs; if it returns normally (or did not
      run), `syncIt` dispatches the next command. A handler that throws skips
      that `syncIt` call. */
  function Respond<E>(q: Queue<E>, failed: bool, threw: bool): (r: Answer<E>)
    requires Inv(q) && q.inFlight.Some?
    ensures Inv(r.next)
    ensures r.handled == if failed then None else q.inFlight
    ensures (failed || !threw) && q.pending != [] ==>
              r.sent == Some(q.pending[0]) && r.next == Queue(q.pending[1..], Some(q.pending[0]), true)
    ensures (failed || !threw) && q.pending == [] ==> r.sent == None && IsIdle(r.next)
    ensures !failed && threw ==> r.sent == None && Stalled(r.next) && r.next.pending == q.pending
  {
    var q' := q.(inFlight := None);
    var handled := if failed then None else q.inFlight;
    if !failed && threw then Answer(q', handled, None)
    else
      var s := SyncIt(q');
      Answer(s.next, handled, s.sent)
  }

  // ---------------------------------------------------------------------------
  // Runs: what the transport observes over a sequence of events
  // ---------------------------------------------------------------------------

  /** An event: a `queue` call, or the transport answering the command in
      flight (whether the answer is the failure sentinel, and whether the
      handler would throw on it). */
  datatype Event<E> = Enqueue(e: E) | Answered(failed: bool, threw: bool)

  /** The transport answers only a command it was given: an answer while
      nothing is in flight cannot occur, and a run skips it. */
  datatype Trace<E> = Trace(final: Queue<E>, sent: seq<E>, answered: seq<E>)

  function Opt<E>(o: Option<E>): seq<E>
  {
    if o.Some? then [o.value] else []
  }

  function Run<E>(q: Queue<E>, evs: seq<Event<E>>): (t: Trace<E>)
    requires Inv(q)
    ensures Inv(t.final)
    decreases |evs|
  {
    if evs == [] then Trace(q, [], [])
    else
      match evs[0]
      case Enqueue(e) =>
        var s := Push(q, e);
        var t := Run(s.next, evs[1..]);
        Trace(t.final, Opt(s.sent) + t.sent, t.answered)
      case Answered(failed, threw) =>
        if q.inFlight == None then Run(q, evs[1..])
        else
          var a := Respond(q, failed, threw);
          var t := Run(a.next, evs[1..]);
          Trace(t.final, Opt(a.sent) + t.sent, [q.inFlight.value] + t.answered)
  }

  /** The commands a sequence of events enqueues, in order. */
  function Enqueued<E>(evs: seq<Event<E>>): seq<E>
  {
    if evs == [] then []
    else (if evs[0].Enqueue? then [evs[0].e] else []) + Enqueued(evs[1..])
  }

  /** FIFO and single flight. The transport receives the commands in exactly
      the order they were enqueued (what it has not received yet is still
      pending, in order); and the answers come back for exactly the commands
      sent, in the same order, with at most one command outstanding. */
  lemma Fifo<E>(q: Queue<E>, evs: seq<Event<E>>)
    requires Inv(q)
    ensures Run(q, evs).sent + Run(q, evs).final.pending == q.pending + Enqueued(evs)
    ensures Opt(q.inFlight) + Run(q, evs).sent == Run(q, evs).answered + Opt(Run(q, evs).final.inFlight)
  {
    SentInOrder(q, evs);
    AnsweredInOrder(q, evs);
  }

  lemma {:induction false} SentInOrder<E>(q: Queue<E>, evs: seq<Event<E>>)
    requires Inv(q)
    ensures Run(q, evs).sent + Run(q, evs).final.pending == q.pending + Enqueued(evs)
    decreases |evs|
  {
    if evs != [] {
      var rest := evs[1..];
      match evs[0]
      case Enqueue(e) =>
        var s := Push(q, e);
        SentInOrder(s.next, rest);
        var t := Run(s.next, rest);
        assert Run(q, evs) == Trace(t.final, Opt(s.sent) + t.sent, t.answered);
        assert Enqueued(evs) == [e] + Enqueued(rest);
        SentAfterPush(q, e, t.sent, t.final.pending, Enqueued(rest));
      case Answered(failed, threw) =>
        assert Enqueued(evs) == Enqueued(rest);
        if q.inFlight == None {
          SentInOrder(q, rest);
        } else {
          var a := Respond(q, failed, threw);
          SentInOrder(a.next, rest);
          var t := Run(a.next, rest);
          assert Run(q, evs) == Trace(t.final, Opt(a.sent) + t.sent, [q.inFlight.value] + t.answered);
          SentAfterRespond(q, failed, threw, t.sent, t.final.pending, Enqueued(rest));
        }
    }
  }

  lemma SentAfterPush<E>(q: Queue<E>, e: E, sent: seq<E>, pending: seq<E>, later: seq<E>)
    requires Inv(q)
    requires sent + pending == Push(q, e).next.pending + later
    ensures Opt(Push(q, e).sent) + sent + pending == q.pending + ([e] + later)
  {
    if q.transit {
      assert Opt(Push(q, e).sent) + sent == sent;
    } else {
      assert Opt(Push(q, e).sent) + sent + pending == [e] + (sent + pending);
    }
  }

  lemma SentAfterRespond<E>(q: Queue<E>, failed: bool, threw: bool, sent: seq<E>, pending: seq<E>, later: seq<E>)
    requires Inv(q) && q.inFlight.Some?
    requires sent + pending == Respond(q, failed, threw).next.pending + later
    ensures Opt(Respond(q, failed, threw).sent) + sent + pending == q.pending + later
  {
    var a := Respond(q, failed, threw);
    if (failed || !threw) && q.pending != [] {
      assert Opt(a.sent) + sent + pending == [q.pending[0]] + (sent + pending);
      assert q.pending == [q.pending[0]] + q.pending[1..];
    } else {
      assert Opt(a.sent) + sent == sent;
    }
  }

  lemma {:induction false} AnsweredInOrder<E>(q: Queue<E>, evs: seq<Event<E>>)
    requires Inv(q)
    ensures Opt(q.inFlight) + Run(q, evs).sent == Run(q, evs).answered + Opt(Run(q, evs).final.inFlight)
    decreases |evs|
  {
    if evs != [] {
      var rest := evs[1..];
      match evs[0]
      case Enqueue(e) =>
        var s := Push(q, e);
        AnsweredInOrder(s.next, rest);
        var t := Run(s.next, rest);
        assert Run(q, evs) == Trace(t.final, Opt(s.sent) + t.sent, t.answered);
        AnsweredAfterPush(q, e, t.sent, t.answered + Opt(t.final.inFlight));
      case Answered(failed, threw) =>
        if q.inFlight == None {
          AnsweredInOrder(q, rest);
        } else {
          var a := Respond(q, failed, threw);
          AnsweredInOrder(a.next, rest);
          var t := Run(a.next, rest);
          assert Run(q, evs) == Trace(t.final, Opt(a.sent) + t.sent, [q.inFlight.value] + t.answered);
          AnsweredAfterRespond(q, failed, threw, t.sent, t.answered, Opt(t.final.inFlight));
        }
    }
  }

  lemma AnsweredAfterPush<E>(q: Queue<E>, e: E, sent: seq<E>, rest: seq<E>)
    requires Inv(q)
    requires Opt(Push(q, e).next.inFlight) + sent == rest
    ensures Opt(q.inFlight) + (Opt(Push(q, e).sent) + sent) == rest
  {
    if !q.transit {
      assert Opt(q.inFlight) + Opt(Push(q, e).sent) == Opt(Push(q, e).next.inFlight);
    }
  }

  lemma AnsweredAfterRespond<E>(q: Queue<E>, failed: bool, threw: bool, sent: seq<E>, answered: seq<E>, last: seq<E>)
    requires Inv(q) && q.inFlight.Some?
    requires Opt(Respond(q, failed, threw).next.inFlight) + sent == answered + last
    ensures Opt(q.inFlight) + (Opt(Respond(q, failed, threw).sent) + sent) == ([q.inFlight.value] + answered) + last
  {
    var a := Respond(q, failed, threw);
    assert Opt(a.next.inFlight) == Opt(a.sent);
  }

  /** A stalled queue stays stalled: whatever is enqueued or answered
      afterwards, nothing more reaches the transport. */
  lemma {:induction false} StallIsPermanent<E>(q: Queue<E>, evs: seq<Event<E>>)
    requires Inv(q) && Stalled(q)
    ensures Run(q, evs).sent == [] && Stalled(Run(q, evs).final)
    decreases |evs|
  {
    if evs != [] {
      match evs[0]
      case Enqueue(e) => StallIsPermanent(Push(q, e).next, evs[1..]);
      case Answered(_, _) => StallIsPermanent(q, evs[1..]);
    }
  }

  /** Answering the last command drains the queue: `transit` is cleared, and
      the next `queue` call dispatches its command at once. */
  lemma {:induction false} DrainThenRestart<E>(q: Queue<E>, failed: bool, threw: bool, e: E)
    requires Inv(q) && q.inFlight.Some? && q.pending == [] && (failed || !threw)
    ensures var evs := [Answered(failed, threw), Enqueue(e)];
            && Run(q, evs).sent == [e] && Run(q, evs).answered == [q.inFlight.value]
            && Run(q, evs).final == Queue([], Some(e), true)
  {
    var evs := [Answered(failed, threw), Enqueue(e)];
    var a := Respond(q, failed, threw);
    assert IsIdle(a.next) && a.sent == None;
    var s := Push(a.next, e);
    assert s.sent == Some(e) && s.next == Queue([], Some(e), true);
    assert Run(s.next, []) == Trace(s.next, [], []);
    assert evs[1..][1..] == [];
    assert Run(a.next, evs[1..]) == Trace(s.next, [e], []);
  }

  /** Two commands queued back to back on an idle queue, the first answered
      with the failure sentinel: the first handler is skipped, the second
      command is still dispatched, and once it is answered the queue is idle
      again with the second handler run. */
  lemma FailedThenNext<E>(a: E, b: E)
    ensures var s1 := Push(Queue([], None, false), a);
            var s2 := Push(s1.next, b);
            var r1 := Respond(s2.next, true, false);
            var r2 := Respond(r1.next, false, false);
            && s1.sent == Some(a) && s2.sent == None
            && r1.handled == None && r1.sent == Some(b)
            && r2.handled == Some(b) && r2.sent == None && IsIdle(r2.next)
  {
  }
}
