/** The writer protocol of a session: senders on any number of threads, one queue behind a lock, a
    flag that says somebody is writing, and completions that arrive on any thread. The unit of
    interleaving is a critical section or an atomic access. */
module SessionWriter {
  import opened Bytes
  import opened Options
  import opened Framing

  type Frame = seq<Byte>

  // The fields of a session that its threads share.
  datatype Shared = Shared(open: bool, writing: bool, queue: seq<Frame>, log: seq<Message>)

  // The critical section of send: log and queue the message; the second result says whether the
  // sender must now act as the writer.
  function Enqueue(s: Shared, message: Message): (Shared, bool) {
    (Shared(s.open, true, s.queue + [Pack(message)], s.log + [message]), !s.writing)
  }

  // The critical section of doWrite: take the next frame, or lay down the role of the writer.
  function Dequeue(s: Shared): (Shared, Option<Frame>) {
    if s.queue == [] then (s.(writing := false), None)
    else (s.(queue := s.queue[1..]), Some(s.queue[0]))
  }

  class Session {
    var isOpen: bool
    var isWriting: bool
    var writeQueue: seq<Frame>
    var sentMessages: seq<Message>

    ghost function AsShared(): Shared
      reads this
    {
      Shared(isOpen, isWriting, writeQueue, sentMessages)
    }

    constructor ()
      ensures AsShared() == Shared(true, false, [], [])
    {
      isOpen, isWriting := true, false;
      writeQueue, sentMessages := [], [];
    }

    method SendSection(message: Message) returns (mustWrite: bool)
      modifies this
      ensures (AsShared(), mustWrite) == Enqueue(old(AsShared()), message)
    {
      var packed := PackMessage(message);
      sentMessages := sentMessages + [message];
      writeQueue := writeQueue + [packed[..]];
      if isWriting {
        return false;
      }
      isWriting := true;
      return true;
    }

    method WriteSection() returns (data: Option<Frame>)
      modifies this
      ensures (AsShared(), data) == Dequeue(old(AsShared()))
    {
      if writeQueue == [] {
        isWriting := false;
        return None;
      }
      data := Some(writeQueue[0]);
      writeQueue := writeQueue[1..];
    }

    // Only the first close has an effect.
    method Close() returns (closed: bool)
      modifies this
      ensures AsShared() == old(AsShared()).(open := false) && closed == old(isOpen)
    {
      closed := isOpen;
      if isOpen {
        isOpen := false;
      }
    }

    method ClearSentMessages()
      modifies this
      ensures AsShared() == old(AsShared()).(log := [])
    {
      sentMessages := [];
    }
  }

  // ----- The machine

  type Tid = nat

  // Checked: past the test of is_open_, message packed. Writer: about to enter doWrite's lock.
  // Holding: out of that lock with a frame, about to start its write.
  datatype Pc = Idle | Checked(message: Message) | Writer | Holding(frame: Frame)

  // A write that has been started, and whether the session was open then; else it can only fail.
  datatype Write = Write(frame: Frame, live: bool)

  // inFlight are the writes started and not completed; issued all writes ever started, in order;
  // accepted all messages ever logged; failed tells that a write completed with an error.
  datatype Machine = Machine(
    shared: Shared, threads: map<Tid, Pc>, inFlight: seq<Write>,
    issued: seq<Frame>, accepted: seq<Message>, failed: bool)

  const START := Machine(Shared(true, false, [], []), map[], [], [], [], false)

  datatype Event =
    | CheckOpen(t: Tid, message: Message)
    | EnterSend(t: Tid)
    | EnterWrite(t: Tid)
    | StartWrite(t: Tid)
    | WriteDone(t: Tid, i: nat)
    | WriteFailed(t: Tid, i: nat)
    | CloseSession(t: Tid)
    | ClearLog(t: Tid)

  function PcOf(m: Machine, t: Tid): Pc {
    if t in m.threads then m.threads[t] else Idle
  }

  predicate Enabled(m: Machine, e: Event) {
    match e
    case EnterSend(t) => PcOf(m, t).Checked?
    case EnterWrite(t) => PcOf(m, t) == Writer
    case StartWrite(t) => PcOf(m, t).Holding?
    case WriteDone(t, i) => PcOf(m, t) == Idle && i < |m.inFlight| && m.inFlight[i].live
    case WriteFailed(t, i) => PcOf(m, t) == Idle && i < |m.inFlight|
    case _ => PcOf(m, e.t) == Idle
  }

  function Without<T>(s: seq<T>, i: nat): seq<T>
    requires i < |s|
  {
    s[..i] + s[i + 1..]
  }

  function Next(m: Machine, e: Event): Machine
    requires Enabled(m, e)
  {
    match e
    case CheckOpen(t, message) =>
      if m.shared.open then m.(threads := m.threads[t := Checked(message)]) else m
    case EnterSend(t) =>
      var message := PcOf(m, t).message;
      var (shared, mustWrite) := Enqueue(m.shared, message);
      m.(shared := shared, accepted := m.accepted + [message],
         threads := m.threads[t := if mustWrite then Writer else Idle])
    case EnterWrite(t) =>
      var (shared, data) := Dequeue(m.shared);
      m.(shared := shared, threads := m.threads[t := if data.Some? then Holding(data.value) else Idle])
    case StartWrite(t) =>
      var frame := PcOf(m, t).frame;
      m.(inFlight := m.inFlight + [Write(frame, m.shared.open)], issued := m.issued + [frame], threads := m.threads[t := Idle])
    case WriteDone(t, i) =>
      m.(inFlight := Without(m.inFlight, i), threads := m.threads[t := Writer])
    case WriteFailed(t, i) =>
      m.(inFlight := Without(m.inFlight, i), shared := m.shared.(open := false), failed := true)
    case CloseSession(t) => m.(shared := m.shared.(open := false))
    case ClearLog(t) => m.(shared := m.shared.(log := []))
  }

  ghost predicate HasRole(m: Machine, t: Tid) {
    PcOf(m, t) == Writer || PcOf(m, t).Holding?
  }

  // The frames taken from the queue whose write has not been started yet.
  ghost predicate HeldAre(m: Machine, held: seq<Frame>) {
    && (held == [] ==> forall t :: !PcOf(m, t).Holding?)
    && (held != [] ==> exists t :: PcOf(m, t) == Holding(held[0]))
    && |held| <= 1
  }

  function Frames(messages: seq<Message>): seq<Frame> {
    seq(|messages|, i requires 0 <= i < |messages| => Pack(messages[i]))
  }

  // At most one party writes, and the flag says whether there is one.
  ghost predicate OneWriter(m: Machine) {
    && |m.inFlight| <= 1
    && (forall t, u :: HasRole(m, t) && HasRole(m, u) ==> t == u)
    && (m.inFlight != [] ==> !m.failed && forall t :: !HasRole(m, t))
    && (m.failed ==> forall t :: !HasRole(m, t))
    && (m.shared.writing <==> m.failed || m.inFlight != [] || exists t :: HasRole(m, t))
  }

  ghost predicate NothingLost(m: Machine) {
    exists held :: HeldAre(m, held) && Frames(m.accepted) == m.issued + held + m.shared.queue
  }

  predicate OpenMeansLive(m: Machine) {
    m.shared.open ==> forall i :: 0 <= i < |m.inFlight| ==> m.inFlight[i].live
  }

  ghost predicate Inv(m: Machine) {
    && OneWriter(m)
    && OpenMeansLive(m)
    && (m.shared.queue != [] ==> m.shared.writing)
    && NothingLost(m)
  }

  ghost predicate LegalRun(m: Machine, run: seq<Event>)
    decreases |run|
  {
    run == [] || (Enabled(m, run[0]) && LegalRun(Next(m, run[0]), run[1..]))
  }

  ghost function After(m: Machine, run: seq<Event>): Machine
    requires LegalRun(m, run)
    decreases |run|
  {
    if run == [] then m else After(Next(m, run[0]), run[1..])
  }

  lemma OneWriterKept(m: Machine, e: Event)
    requires Inv(m) && Enabled(m, e)
    ensures OneWriter(Next(m, e)) && OpenMeansLive(Next(m, e))
    ensures Next(m, e).shared.queue != [] ==> Next(m, e).shared.writing
  {
    var n := Next(m, e);
    RolesAfter(m, e);
    match e
    case EnterSend(t) =>
      assert m.shared.writing || HasRole(n, t);
    case EnterWrite(t) =>
      assert HasRole(m, t);
      assert m.shared.queue != [] ==> HasRole(n, t);
    case StartWrite(t) =>
      assert HasRole(m, t);
    case WriteDone(t, i) =>
      assert HasRole(n, t);
    case _ =>
  }

  // Who has the role of the writer after a step.
  lemma RolesAfter(m: Machine, e: Event)
    requires OneWriter(m) && Enabled(m, e)
    ensures forall u :: HasRole(Next(m, e), u) <==>
      match e
      case EnterSend(t) => if m.shared.writing then HasRole(m, u) else u == t
      case EnterWrite(t) => u == t && m.shared.queue != []
      case StartWrite(t) => false
      case WriteDone(t, i) => u == t
      case _ => HasRole(m, u)
  {
    var n := Next(m, e);
    forall u ensures HasRole(n, u) <==>
      match e
      case EnterSend(t) => if m.shared.writing then HasRole(m, u) else u == t
      case EnterWrite(t) => u == t && m.shared.queue != []
      case StartWrite(t) => false
      case WriteDone(t, i) => u == t
      case _ => HasRole(m, u)
    {
      assert u != e.t ==> PcOf(n, u) == PcOf(m, u);
      assert (e.EnterWrite? || e.StartWrite?) ==> HasRole(m, e.t);
      assert HasRole(m, u) && HasRole(m, e.t) ==> u == e.t;
    }
  }

  lemma SendLosesNothing(m: Machine, t: Tid, held: seq<Frame>)
    requires Enabled(m, EnterSend(t)) && HeldAre(m, held)
    requires Frames(m.accepted) == m.issued + held + m.shared.queue
    ensures NothingLost(Next(m, EnterSend(t)))
  {
    var n := Next(m, EnterSend(t));
    assert forall u :: PcOf(n, u).Holding? <==> PcOf(m, u).Holding?;
    assert forall u :: PcOf(m, u).Holding? ==> PcOf(n, u) == PcOf(m, u);
    assert HeldAre(n, held);
    assert Frames(n.accepted) == Frames(m.accepted) + [Pack(PcOf(m, t).message)];
    assert Frames(n.accepted) == n.issued + held + n.shared.queue;
  }

  lemma TakeLosesNothing(m: Machine, t: Tid, held: seq<Frame>)
    requires OneWriter(m) && Enabled(m, EnterWrite(t)) && HeldAre(m, held)
    requires Frames(m.accepted) == m.issued + held + m.shared.queue
    ensures NothingLost(Next(m, EnterWrite(t)))
  {
    var n := Next(m, EnterWrite(t));
    assert held == [] by {
      assert HasRole(m, t);
      assert forall u :: PcOf(m, u).Holding? ==> HasRole(m, u);
    }
    assert forall u :: u != t ==> PcOf(n, u) == PcOf(m, u);
    if m.shared.queue == [] {
      assert HeldAre(n, []);
    } else {
      var frame := m.shared.queue[0];
      assert PcOf(n, t) == Holding(frame);
      assert HeldAre(n, [frame]);
      assert Frames(n.accepted) == n.issued + [frame] + n.shared.queue;
    }
  }

  lemma StartLosesNothing(m: Machine, t: Tid, held: seq<Frame>)
    requires OneWriter(m) && Enabled(m, StartWrite(t)) && HeldAre(m, held)
    requires Frames(m.accepted) == m.issued + held + m.shared.queue
    ensures NothingLost(Next(m, StartWrite(t)))
  {
    var n, frame := Next(m, StartWrite(t)), PcOf(m, t).frame;
    assert HasRole(m, t);
    assert held == [frame] by {
      var u :| PcOf(m, u) == Holding(held[0]);
      assert HasRole(m, u);
    }
    assert HeldAre(n, []) by {
      forall u ensures !PcOf(n, u).Holding? {
        assert u != t && PcOf(m, u).Holding? ==> HasRole(m, u);
      }
    }
    assert n.issued + [] + n.shared.queue == Frames(n.accepted);
  }

  lemma NothingLostKept(m: Machine, e: Event)
    requires Inv(m) && Enabled(m, e)
    ensures NothingLost(Next(m, e))
  {
    var held :| HeldAre(m, held) && Frames(m.accepted) == m.issued + held + m.shared.queue;
    match e
    case EnterSend(t) => SendLosesNothing(m, t, held);
    case EnterWrite(t) => TakeLosesNothing(m, t, held);
    case StartWrite(t) => StartLosesNothing(m, t, held);
    case _ =>
      var n := Next(m, e);
      assert forall u :: PcOf(n, u).Holding? <==> PcOf(m, u).Holding?;
      assert forall u :: PcOf(m, u).Holding? ==> PcOf(n, u) == PcOf(m, u);
      assert HeldAre(n, held);
  }

  // Over every interleaving: one writer at most, the flag is right, no message waits without a
  // writer, and the log is what was issued, then what is held, then what is queued.
  lemma {:induction false} RunKeepsInv(m: Machine, run: seq<Event>)
    requires Inv(m) && LegalRun(m, run)
    ensures Inv(After(m, run))
    decreases |run|
  {
    if run != [] {
      OneWriterKept(m, run[0]);
      NothingLostKept(m, run[0]);
      RunKeepsInv(Next(m, run[0]), run[1..]);
    }
  }

  lemma StartIsInv()
    ensures Inv(START)
  {
    assert HeldAre(START, []);
  }

  // Without clearing, the log of the session is everything it ever accepted.
  lemma {:induction false} LogIsComplete(m: Machine, run: seq<Event>)
    requires m.shared.log == m.accepted && LegalRun(m, run) && forall i :: 0 <= i < |run| ==> !run[i].ClearLog?
    ensures After(m, run).shared.log == After(m, run).accepted
    decreases |run|
  {
    if run != [] {
      LogIsComplete(Next(m, run[0]), run[1..]);
    }
  }

  // ----- Progress

  // What is left for the writer to do: three steps a frame, and the rest of the current one.
  ghost function Work(m: Machine): nat {
    3 * |m.shared.queue| +
    if exists t :: PcOf(m, t).Holding? then 3
    else if m.inFlight != [] then 2
    else if m.shared.writing then 1 else 0
  }

  lemma {:induction false} FreeThread(threads: map<Tid, Pc>, bound: nat) returns (t: Tid)
    ensures t !in threads && t >= bound
    decreases |threads.Keys|
  {
    if bound in threads {
      var fewer := threads - {bound};
      assert fewer.Keys == threads.Keys - {bound};
      assert fewer.Keys < threads.Keys;
      assert |fewer.Keys| < |threads.Keys| by {
        assert threads.Keys == fewer.Keys + {bound};
      }
      t := FreeThread(fewer, bound + 1);
    } else {
      t := bound;
    }
  }

  predicate IsWriterEvent(e: Event) {
    e.EnterWrite? || e.StartWrite? || e.WriteDone?
  }

  lemma AtRestAllIsIssued(m: Machine)
    requires Inv(m) && !m.shared.writing
    ensures m.issued == Frames(m.accepted)
  {
    var held :| HeldAre(m, held) && Frames(m.accepted) == m.issued + held + m.shared.queue;
    assert held == [] by {
      assert forall t :: PcOf(m, t).Holding? ==> HasRole(m, t);
    }
  }

  // The writer cannot come to rest any more: a write has failed, or the session is closed while a
  // frame is queued or held or a write is out that was started too late.
  ghost predicate Clogged(m: Machine) {
    m.failed ||
    (!m.shared.open &&
      (m.shared.queue != [] || (exists t :: PcOf(m, t).Holding?) || exists i :: 0 <= i < |m.inFlight| && !m.inFlight[i].live))
  }

  // As long as it is not clogged and the flag is up, the writer has a step, and it brings the work
  // down: a queued frame never waits for a sender to come by.
  lemma WriterHasStep(m: Machine) returns (e: Event)
    requires Inv(m) && m.shared.writing && !Clogged(m)
    ensures IsWriterEvent(e) && Enabled(m, e) && Work(Next(m, e)) < Work(m)
    ensures Next(m, e).accepted == m.accepted && !Clogged(Next(m, e))
  {
    if m.inFlight != [] {
      var t := FreeThread(m.threads, 0);
      assert m.inFlight[0].live;
      e := WriteDone(t, 0);
    } else {
      var t :| HasRole(m, t);
      e := if PcOf(m, t) == Writer then EnterWrite(t) else StartWrite(t);
    }
    RolesAfter(m, e);
    assert forall u :: PcOf(m, u).Holding? ==> HasRole(m, u);
    assert forall u :: PcOf(Next(m, e), u).Holding? ==> HasRole(Next(m, e), u);
    assert e.EnterWrite? && m.shared.queue == [] ==> !PcOf(Next(m, e), e.t).Holding?;
    assert e.WriteDone? ==> PcOf(Next(m, e), e.t) == Writer;
  }

  // From every state that is not clogged, the writer's own steps empty the queue: then nobody writes
  // any more, and every message ever accepted has been issued, in order.
  lemma {:induction false} WriterDrains(m: Machine) returns (run: seq<Event>)
    requires Inv(m) && !Clogged(m)
    ensures LegalRun(m, run) && |run| <= Work(m) && forall i :: 0 <= i < |run| ==> IsWriterEvent(run[i])
    ensures var end := After(m, run);
      end.shared.queue == [] && !end.shared.writing && end.accepted == m.accepted && end.issued == Frames(m.accepted)
    decreases Work(m)
  {
    if m.shared.writing {
      var e := WriterHasStep(m);
      OneWriterKept(m, e);
      NothingLostKept(m, e);
      var rest := WriterDrains(Next(m, e));
      run := [e] + rest;
      assert run[1..] == rest;
    } else {
      run := [];
      AtRestAllIsIssued(m);
    }
  }

  // Whatever happens next, a clogged writer stays clogged, and never at rest.
  lemma CloggedStays(m: Machine, e: Event)
    requires Inv(m) && Clogged(m) && Enabled(m, e)
    ensures Clogged(Next(m, e))
  {
    var n := Next(m, e);
    assert (e.EnterWrite? || e.StartWrite?) ==> HasRole(m, e.t);
    assert forall u :: PcOf(m, u).Holding? ==> HasRole(m, u);
    if t :| PcOf(m, t).Holding? {
      assert e.t != t ==> PcOf(n, t) == PcOf(m, t);
    }
    if e.StartWrite? && !m.shared.open {
      assert !n.inFlight[|n.inFlight| - 1].live;
    }
    if e.EnterWrite? && m.shared.queue != [] {
      assert PcOf(n, e.t).Holding?;
    }
  }

  lemma CloggedIsWriting(m: Machine)
    requires Inv(m) && Clogged(m)
    ensures m.shared.writing
  {
    assert forall u :: PcOf(m, u).Holding? ==> HasRole(m, u);
  }

  lemma {:induction false} CloggedForever(m: Machine, run: seq<Event>)
    requires Inv(m) && Clogged(m) && LegalRun(m, run)
    ensures After(m, run).shared.writing
    decreases |run|
  {
    if run == [] {
      CloggedIsWriting(m);
    } else {
      CloggedStays(m, run[0]);
      OneWriterKept(m, run[0]);
      NothingLostKept(m, run[0]);
      CloggedForever(Next(m, run[0]), run[1..]);
    }
  }

  // Rest can be reached if and only if the writer is not clogged.
  lemma RestIffNotClogged(m: Machine)
    requires Inv(m)
    ensures (exists run :: LegalRun(m, run) && !After(m, run).shared.writing) <==> !Clogged(m)
  {
    if Clogged(m) {
      forall run | LegalRun(m, run) ensures After(m, run).shared.writing {
        CloggedForever(m, run);
      }
    } else {
      var run := WriterDrains(m);
    }
  }

  // ----- What is accepted

  // On an open session whatever an idle thread sends is accepted, as the last message so far.
  lemma OpenAccepts(m: Machine, t: Tid, message: Message)
    requires m.shared.open && PcOf(m, t) == Idle
    ensures Enabled(m, CheckOpen(t, message))
    ensures var checked := Next(m, CheckOpen(t, message));
      && Enabled(checked, EnterSend(t))
      && var sent := Next(checked, EnterSend(t));
         && sent.accepted == m.accepted + [message] && sent.shared.log == m.shared.log + [message]
         && sent.shared.open
  {
  }

  // On a closed session a send does nothing, and the session stays closed.
  lemma ClosedIgnores(m: Machine, t: Tid, message: Message)
    requires !m.shared.open && PcOf(m, t) == Idle
    ensures Enabled(m, CheckOpen(t, message)) && Next(m, CheckOpen(t, message)) == m
  {
  }

  // A thread may close the session at any time, and a write that is out may fail; both close it, and
  // only the failure is remembered.
  lemma ClosingCloses(m: Machine, t: Tid, i: nat)
    requires PcOf(m, t) == Idle && i < |m.inFlight|
    ensures Enabled(m, CloseSession(t)) && Next(m, CloseSession(t)) == m.(shared := m.shared.(open := false))
    ensures Enabled(m, WriteFailed(t, i)) && !Next(m, WriteFailed(t, i)).shared.open && Next(m, WriteFailed(t, i)).failed
    ensures |Next(m, WriteFailed(t, i)).inFlight| == |m.inFlight| - 1
  {
  }

  // Once it is closed and no send is under way, nothing more is ever accepted.
  lemma {:induction false} ClosedAcceptsNoMore(m: Machine, run: seq<Event>)
    requires !m.shared.open && (forall t :: !PcOf(m, t).Checked?) && LegalRun(m, run)
    ensures After(m, run).accepted == m.accepted && !After(m, run).shared.open
    decreases |run|
  {
    if run != [] {
      var n := Next(m, run[0]);
      forall t ensures !PcOf(n, t).Checked? {
        assert t != run[0].t ==> PcOf(n, t) == PcOf(m, t);
      }
      ClosedAcceptsNoMore(n, run[1..]);
    }
  }

  // ----- From end to end

  // The bytes of a list of frames, one after the other.
  function Stream(frames: seq<Frame>): seq<Byte> {
    if frames == [] then [] else frames[0] + Stream(frames[1..])
  }

  lemma {:induction false} FramesAreStream(messages: seq<Message>)
    ensures Stream(Frames(messages)) == PackAll(messages)
    decreases |messages|
  {
    if messages != [] {
      FramesAreStream(messages[1..]);
      assert Frames(messages)[1..] == Frames(messages[1..]);
    }
  }

  // A session at rest that has not failed has sent a stream from which a reader, however the bytes
  // arrive, gets exactly the accepted messages in the order in which they were accepted.
  lemma ReceiverGetsTheLog(run: seq<Event>, chunks: seq<seq<Byte>>)
    requires LegalRun(START, run) && !After(START, run).shared.writing
    requires AllFit(After(START, run).accepted)
    requires Concat(chunks) == Stream(After(START, run).issued)
    ensures Arrivals(chunks) == Progress(Header, [], After(START, run).accepted)
  {
    var m := After(START, run);
    StartIsInv();
    RunKeepsInv(START, run);
    AtRestAllIsIssued(m);
    FramesAreStream(m.accepted);
    MessagesArrive(m.accepted, chunks);
  }
}
