/** The start-up handshake between `create_main` and `create_worker` (src/lib.rs), and
    the data traffic after it, as a transition system.

    Each side is an async function; its program counter says which `await` it has
    reached. `create_main` spawns the worker and registers its listener in one
    synchronous stretch, awaits the ready signal, then posts the transferable and
    returns. `create_worker` registers its listener, posts "ready", awaits the
    transferable and returns it. Messages travel in FIFO order; a message that reaches
    the worker before its listener is registered is lost. */
module Handshake {
  import opened Base
  import opened Messaging

  datatype MainPc = Spawning | AwaitingReady | MainReturned
  datatype WorkerPc = NotStarted | Listening | AwaitingCanvas | WorkerReturned(canvas: nat)

  /** Both sides, both directions of the message channel, both listeners, the handle of
      the transferable given to `create_main`, every data payload each side has sent,
      and how the payload type goes through JSON. */
  datatype Sys<!P> = Sys(
    main: MainPc, worker: WorkerPc,
    toWorker: seq<Frame<P>>, toMain: seq<Frame<P>>,
    mainL: Listener<(), P>, workerL: Listener<nat, P>,
    canvas: nat,
    sentToWorker: seq<P>, sentToMain: seq<P>,
    serde: Serde<P>)

  function Init<P>(serde: Serde<P>, canvas: nat): Sys<P>
  {
    Sys(Spawning, NotStarted, [], [], Fresh(), Fresh(), canvas, [], [], serde)
  }

  datatype Action<P> =
    | Spawn             // create_main: Worker::new and EventListen::new (lines 243-256)
    | WorkerListen      // create_worker: EventListen::new (line 448)
    | WorkerPostReady   // create_worker: post ["ready", null] (lines 450-454)
    | DeliverToMain     // the main event loop runs MyListen::call on the oldest frame
    | MainPostCanvas    // create_main: fr.await resolved, post [canvas, null] (lines 258-270)
    | DeliverToWorker   // the worker event loop runs MyListen3::call on the oldest frame
    | WorkerTakeCanvas  // create_worker: fr.await resolved, return the canvas (line 456)
    | MainSend(p: P)    // MainSender::post_message or MyListen2::call
    | WorkerSend(p: P)  // WorkerSender::post_message

  predicate Enabled<P>(s: Sys<P>, a: Action<P>)
  {
    match a
    case Spawn => s.main == Spawning
    case WorkerListen => s.main != Spawning && s.worker == NotStarted
    case WorkerPostReady => s.worker == Listening
    case DeliverToMain => s.toMain != []
    case MainPostCanvas => s.main == AwaitingReady && s.mainL.signal.Some?
    case DeliverToWorker => s.toWorker != []
    case WorkerTakeCanvas => s.worker == AwaitingCanvas && s.workerL.signal.Some?
    case MainSend(_) => s.main == MainReturned
    case WorkerSend(_) => s.worker.WorkerReturned?
  }

  function Apply<P>(s: Sys<P>, a: Action<P>): Sys<P>
    requires Enabled(s, a)
  {
    match a
    case Spawn => s.(main := AwaitingReady)
    case WorkerListen => s.(worker := Listening)
    case WorkerPostReady => s.(worker := AwaitingCanvas, toMain := s.toMain + [ReadyFrame()])
    case DeliverToMain =>
      s.(mainL := MainStep(s.serde, s.mainL, s.toMain[0]).after, toMain := s.toMain[1..])
    case MainPostCanvas =>
      s.(main := MainReturned, toWorker := s.toWorker + [TransferFrame(s.canvas)])
    case DeliverToWorker =>
      if s.worker == NotStarted then s.(toWorker := s.toWorker[1..])
      else s.(workerL := WorkerStep(s.serde, s.workerL, s.toWorker[0]).after, toWorker := s.toWorker[1..])
    case WorkerTakeCanvas => s.(worker := WorkerReturned(s.workerL.signal.value))
    case MainSend(p) =>
      s.(toWorker := s.toWorker + [DataFrame(s.serde, p)], sentToWorker := s.sentToWorker + [p])
    case WorkerSend(p) =>
      s.(toMain := s.toMain + [DataFrame(s.serde, p)], sentToMain := s.sentToMain + [p])
  }

  /** Runs a schedule of actions; `None` if some action is not enabled when its turn comes. */
  function Run<P>(s: Sys<P>, acts: seq<Action<P>>): Option<Sys<P>>
    decreases |acts|
  {
    if acts == [] then Some(s)
    else if Enabled(s, acts[0]) then Run(Apply(s, acts[0]), acts[1..])
    else None
  }

  /** A data frame as the senders build it: a null tag, and the payload's encoding,
      which is JS `null` for a payload whose JSON is `null`. */
  predicate IsData<P>(f: Frame<P>)
  {
    f.tag.Null? && (f.body.Null? || f.body.Serialized?)
  }

  /** Every frame headed for the main thread is the ready frame or a data frame. */
  ghost predicate ToMainShape<P>(fs: seq<Frame<P>>)
  {
    forall i | 0 <= i < |fs| :: fs[i] == ReadyFrame() || IsData(fs[i])
  }

  /** Every frame headed for the worker is a data frame, except possibly the oldest,
      which may be the transferable frame. */
  ghost predicate ToWorkerShape<P>(fs: seq<Frame<P>>, canvas: nat)
  {
    && (fs != [] ==> fs[0] == TransferFrame(canvas) || IsData(fs[0]))
    && forall i | 1 <= i < |fs| :: IsData(fs[i])
  }

  predicate WorkerPostedReady(w: WorkerPc)
  {
    w == AwaitingCanvas || w.WorkerReturned?
  }

  /** The invariant of every reachable state. */
  ghost predicate Inv<P>(s: Sys<P>)
  {
    && SlotAgrees(s.mainL) && SlotAgrees(s.workerL)
    && (s.main == Spawning ==> s.worker == NotStarted)
    // nothing goes to the main thread before the worker has posted "ready"
    && (!WorkerPostedReady(s.worker) ==> s.toMain == [] && s.mainL.signal.None? && s.sentToMain == [])
    // once posted, "ready" is in flight or has fired the signal
    && (WorkerPostedReady(s.worker) ==> s.mainL.signal.Some? || ReadyFrame() in s.toMain)
    && ToMainShape(s.toMain)
    && (s.worker == AwaitingCanvas ==> s.sentToMain == [])
    // create_main posts the transferable only after the ready signal
    && (s.main == MainReturned ==> s.mainL.signal.Some? && WorkerPostedReady(s.worker))
    && (s.main != MainReturned ==> s.toWorker == [] && s.workerL.signal.None? && s.sentToWorker == [])
    && ToWorkerShape(s.toWorker, s.canvas)
    // the transferable is in flight at the head of the channel, or has been delivered
    && (s.main == MainReturned ==>
          s.workerL.signal == Some(s.canvas) ||
          (s.workerL.held && s.toWorker != [] && s.toWorker[0] == TransferFrame(s.canvas)))
    && (s.workerL.signal.Some? ==> s.workerL.signal == Some(s.canvas))
    && (s.worker.WorkerReturned? ==> s.worker.canvas == s.canvas && s.main == MainReturned)
    // what is queued and what is in flight is, in order, what the other side's payloads
    // turn into on the way: none lost except through the JSON encoding, none duplicated
    && s.mainL.queue + MainPayloads(s.serde, s.toMain) == MainReceives(s.serde, s.sentToMain)
    && s.workerL.queue + WorkerPayloads(s.toWorker) == WorkerReceives(s.serde, s.sentToWorker)
  }

  lemma InitInv<P>(serde: Serde<P>, canvas: nat)
    ensures Inv(Init<P>(serde, canvas))
  {
  }

  lemma MainPayloadsHead<P>(c: Serde<P>, fs: seq<Frame<P>>)
    requires fs != []
    ensures MainPayloads(c, fs)
         == (if fs[0].tag.Null? && IntoSerde(c, fs[0].body).Some?
             then [IntoSerde(c, fs[0].body).value] else []) + MainPayloads(c, fs[1..])
  {
  }

  lemma WorkerPayloadsHead<P>(fs: seq<Frame<P>>)
    requires fs != []
    ensures WorkerPayloads(fs)
         == (if (fs[0].tag.Null? || fs[0].tag.Transfer?) && fs[0].body.Serialized?
             then [fs[0].body.payload] else []) + WorkerPayloads(fs[1..])
  {
  }

  /** One data frame carries what the round trip through JSON leaves of its payload. */
  lemma DataPayload<P>(c: Serde<P>, ps: seq<P>, p: P)
    ensures MainPayloads(c, [DataFrame(c, p)]) == MainReceives(c, [p])
    ensures WorkerPayloads([DataFrame(c, p)]) == WorkerReceives(c, [p])
    ensures MainReceives(c, ps + [p]) == MainReceives(c, ps) + MainReceives(c, [p])
    ensures WorkerReceives(c, ps + [p]) == WorkerReceives(c, ps) + WorkerReceives(c, [p])
  {
    assert [DataFrame(c, p)][1..] == [];
    assert [p][..0] == [];
    assert (ps + [p])[..|ps|] == ps;
  }

  lemma SignalPayload<P>(c: Serde<P>, canvas: nat)
    ensures MainPayloads(c, [ReadyFrame<P>()]) == [] && WorkerPayloads([TransferFrame<P>(canvas)]) == []
  {
    assert [ReadyFrame<P>()][1..] == [];
    assert [TransferFrame<P>(canvas)][1..] == [];
  }

  /** Delivering the oldest frame to the main thread keeps the invariant; the listener
      throws only on a payload whose JSON is `null` when the type has no null payload. */
  lemma DeliverToMainInv<P>(s: Sys<P>)
    requires Inv(s) && Enabled(s, DeliverToMain)
    ensures MainStep(s.serde, s.mainL, s.toMain[0]).thrown <==>
      s.toMain[0] == Frame(Null, Null) && s.serde.fromNull.None?
    ensures Inv(Apply(s, DeliverToMain))
  {
    var f := s.toMain[0];
    var t := Apply(s, DeliverToMain);
    MainPayloadsHead(s.serde, s.toMain);
    assert ToMainShape(t.toMain) by {
      forall i | 0 <= i < |t.toMain| ensures t.toMain[i] == ReadyFrame() || IsData(t.toMain[i]) {
        assert t.toMain[i] == s.toMain[i + 1];
      }
    }
    if f == ReadyFrame() {
      assert t.mainL.queue == s.mainL.queue;
      assert t.mainL.signal.Some?;
    } else {
      assert IsData(f);
      if s.mainL.signal.None? && WorkerPostedReady(s.worker) {
        var i :| 0 <= i < |s.toMain| && s.toMain[i] == ReadyFrame();
        assert i > 0 && t.toMain[i - 1] == ReadyFrame();
      }
      if IntoSerde(s.serde, f.body).Some? {
        assert t.mainL.queue == s.mainL.queue + [IntoSerde(s.serde, f.body).value];
      } else {
        assert t.mainL.queue == s.mainL.queue;
      }
    }
  }

  /** Delivering the oldest frame to the worker keeps the invariant; the listener is
      always registered by then, so no frame is lost, and it does not throw. */
  lemma DeliverToWorkerInv<P>(s: Sys<P>)
    requires Inv(s) && Enabled(s, DeliverToWorker)
    ensures s.worker != NotStarted
    ensures !WorkerStep(s.serde, s.workerL, s.toWorker[0]).thrown
    ensures Inv(Apply(s, DeliverToWorker))
  {
    var f := s.toWorker[0];
    var t := Apply(s, DeliverToWorker);
    WorkerPayloadsHead(s.toWorker);
    assert ToWorkerShape(t.toWorker, t.canvas) by {
      forall i | 0 <= i < |t.toWorker| ensures IsData(t.toWorker[i]) {
        assert t.toWorker[i] == s.toWorker[i + 1];
      }
    }
    if f == TransferFrame(s.canvas) {
      assert t.workerL.queue == s.workerL.queue;
    } else {
      assert IsData(f);
      if f.body.Serialized? {
        assert t.workerL.queue == s.workerL.queue + [f.body.payload];
      } else {
        assert t.workerL.queue == s.workerL.queue;
      }
      assert s.workerL.signal == Some(s.canvas);
    }
  }

  lemma MainPostCanvasInv<P>(s: Sys<P>)
    requires Inv(s) && Enabled(s, MainPostCanvas)
    ensures Inv(Apply(s, MainPostCanvas))
  {
    var t := Apply(s, MainPostCanvas);
    assert t.toWorker == [TransferFrame(s.canvas)];
    SignalPayload<P>(s.serde, s.canvas);
  }

  lemma WorkerPostReadyInv<P>(s: Sys<P>)
    requires Inv(s) && Enabled(s, WorkerPostReady)
    ensures Inv(Apply(s, WorkerPostReady))
  {
    var t := Apply(s, WorkerPostReady);
    assert t.toMain == [ReadyFrame()];
    assert t.toMain[0] == ReadyFrame();
    SignalPayload<P>(s.serde, s.canvas);
  }

  lemma MainSendInv<P>(s: Sys<P>, p: P)
    requires Inv(s) && Enabled(s, MainSend(p))
    ensures Inv(Apply(s, MainSend(p)))
  {
    var t := Apply(s, MainSend(p));
    WorkerPayloadsAppend(s.toWorker, [DataFrame(s.serde, p)]);
    DataPayload(s.serde, s.sentToWorker, p);
    assert ToWorkerShape(t.toWorker, t.canvas) by {
      forall i | 1 <= i < |t.toWorker| ensures IsData(t.toWorker[i]) {
        if i < |s.toWorker| { assert t.toWorker[i] == s.toWorker[i]; }
      }
    }
  }

  lemma WorkerSendInv<P>(s: Sys<P>, p: P)
    requires Inv(s) && Enabled(s, WorkerSend(p))
    ensures Inv(Apply(s, WorkerSend(p)))
  {
    var t := Apply(s, WorkerSend(p));
    MainPayloadsAppend(s.serde, s.toMain, [DataFrame(s.serde, p)]);
    DataPayload(s.serde, s.sentToMain, p);
    assert ToMainShape(t.toMain) by {
      forall i | 0 <= i < |t.toMain| ensures t.toMain[i] == ReadyFrame() || IsData(t.toMain[i]) {
        if i < |s.toMain| { assert t.toMain[i] == s.toMain[i]; }
      }
    }
  }

  /** Every enabled action keeps the invariant. */
  lemma StepInv<P>(s: Sys<P>, a: Action<P>)
    requires Inv(s) && Enabled(s, a)
    ensures Inv(Apply(s, a))
  {
    match a
    case Spawn =>
    case WorkerListen =>
    case WorkerPostReady => WorkerPostReadyInv(s);
    case DeliverToMain => DeliverToMainInv(s);
    case MainPostCanvas => MainPostCanvasInv(s);
    case DeliverToWorker => DeliverToWorkerInv(s);
    case WorkerTakeCanvas =>
    case MainSend(p) => MainSendInv(s, p);
    case WorkerSend(p) => WorkerSendInv(s, p);
  }

  lemma {:induction false} RunInv<P>(s: Sys<P>, acts: seq<Action<P>>)
    requires Inv(s) && Run(s, acts).Some?
    ensures Inv(Run(s, acts).value)
    decreases |acts|
  {
    if acts != [] {
      StepInv(s, acts[0]);
      RunInv(Apply(s, acts[0]), acts[1..]);
    }
  }

  /** The ordering promises of the handshake, for every schedule from the start:
      - `create_main` posts the transferable only after its ready signal resolved, and
        that signal fires only after the worker registered its listener and posted "ready";
      - `create_worker` returns only after the transferable arrived, and it returns
        exactly the one `create_main` was given;
      - each side's queue holds, in order, a prefix of what the other side's payloads
        turn into through JSON, and a prefix of what it sent when every payload survives
        that round trip. */
  lemma HandshakeOrder<P>(serde: Serde<P>, canvas: nat, acts: seq<Action<P>>)
    requires Run(Init<P>(serde, canvas), acts).Some?
    ensures var s := Run(Init<P>(serde, canvas), acts).value;
      && (s.main == MainReturned ==> s.mainL.signal.Some?)
      && (s.mainL.signal.Some? ==> WorkerPostedReady(s.worker))
      && (s.worker.WorkerReturned? ==> s.worker.canvas == canvas && s.main == MainReturned)
      && s.mainL.queue <= MainReceives(serde, s.sentToMain)
      && s.workerL.queue <= WorkerReceives(serde, s.sentToWorker)
      && ((forall i | 0 <= i < |s.sentToMain| :: Keeps(serde, s.sentToMain[i])) ==>
            s.mainL.queue <= s.sentToMain)
      && ((forall i | 0 <= i < |s.sentToWorker| :: !serde.nullJson(s.sentToWorker[i])) ==>
            s.workerL.queue <= s.sentToWorker)
  {
    InitInv<P>(serde, canvas);
    RunInv(Init<P>(serde, canvas), acts);
    var s := Run(Init<P>(serde, canvas), acts).value;
    RunKeepsCanvas(Init<P>(serde, canvas), acts);
    assert s.serde == serde;
    assert s.mainL.queue + MainPayloads(serde, s.toMain) == MainReceives(serde, s.sentToMain);
    assert s.workerL.queue + WorkerPayloads(s.toWorker) == WorkerReceives(serde, s.sentToWorker);
    MainReceivesAll(serde, s.sentToMain);
    WorkerReceivesAll(serde, s.sentToWorker);
  }

  /** A run never changes the transferable or the encoding. */
  lemma {:induction false} RunKeepsCanvas<P>(s: Sys<P>, acts: seq<Action<P>>)
    requires Run(s, acts).Some?
    ensures Run(s, acts).value.canvas == s.canvas
    ensures Run(s, acts).value.serde == s.serde
    decreases |acts|
  {
    if acts != [] {
      RunKeepsCanvas(Apply(s, acts[0]), acts[1..]);
    }
  }

  /** The handshake can complete: in the order the code is written, both sides return
      and the worker holds the canvas. */
  lemma HandshakeCompletes<P>(serde: Serde<P>, canvas: nat)
    ensures var r := Run(Init<P>(serde, canvas),
      [Spawn, WorkerListen, WorkerPostReady, DeliverToMain, MainPostCanvas, DeliverToWorker, WorkerTakeCanvas]);
      r.Some? && r.value.main == MainReturned && r.value.worker == WorkerReturned(canvas)
      && r.value.toMain == [] && r.value.toWorker == []
  {
    var s0 := Init<P>(serde, canvas);
    var s1 := Apply(s0, Spawn);
    var s2 := Apply(s1, WorkerListen);
    var s3 := Apply(s2, WorkerPostReady);
    var s4 := Apply(s3, DeliverToMain);
    assert s4.mainL.signal == Some(());
    var s5 := Apply(s4, MainPostCanvas);
    var s6 := Apply(s5, DeliverToWorker);
    assert s6.workerL.signal == Some(canvas);
    var s7 := Apply(s6, WorkerTakeCanvas);
    var acts := [Spawn, WorkerListen, WorkerPostReady, DeliverToMain, MainPostCanvas, DeliverToWorker, WorkerTakeCanvas];
    assert Run(s7, acts[7..]) == Some(s7);
    assert Run(s6, acts[6..]) == Some(s7);
    assert Run(s5, acts[5..]) == Some(s7);
    assert Run(s4, acts[4..]) == Some(s7);
    assert Run(s3, acts[3..]) == Some(s7);
    assert Run(s2, acts[2..]) == Some(s7);
    assert Run(s1, acts[1..]) == Some(s7);
  }

  /** Both `create_main` and `create_worker` have returned. */
  predicate Done<P>(s: Sys<P>)
  {
    s.main == MainReturned && s.worker.WorkerReturned?
  }

  /** The handshake steps still to take, counted with messages in flight: each step of
      either side's program counter removes two and posts at most one message, and each
      delivery removes one. */
  function Pending<P>(s: Sys<P>): nat
  {
    var m := match s.main case Spawning => 2 case AwaitingReady => 1 case MainReturned => 0;
    var w := match s.worker case NotStarted => 3 case Listening => 2 case AwaitingCanvas => 1 case WorkerReturned(_) => 0;
    2 * (m + w) + |s.toMain| + |s.toWorker|
  }

  /** A handshake step (never a data send) to take next from a state that is not done. */
  function HandshakeMove<P>(s: Sys<P>): Action<P>
  {
    if s.main == Spawning then Spawn
    else if s.worker == NotStarted then WorkerListen
    else if s.worker == Listening then WorkerPostReady
    else if s.toMain != [] then DeliverToMain
    else if s.main == AwaitingReady then MainPostCanvas
    else if s.toWorker != [] then DeliverToWorker
    else WorkerTakeCanvas
  }

  /** The handshake never deadlocks: from every state of the invariant in which a side has
      not returned, a handshake step is enabled, and it brings the handshake closer to its
      end. */
  lemma HandshakeProgress<P>(s: Sys<P>)
    requires Inv(s) && !Done(s)
    ensures Enabled(s, HandshakeMove(s))
    ensures Pending(Apply(s, HandshakeMove(s))) < Pending(s)
  {
    if s.main == AwaitingReady && s.worker == AwaitingCanvas && s.toMain == [] {
      assert s.mainL.signal.Some?;
    }
  }

  /** Whatever has happened so far, some schedule of handshake steps takes every reachable
      state to one in which both sides have returned. */
  lemma {:induction false} HandshakeCanComplete<P>(s: Sys<P>)
    requires Inv(s)
    ensures exists acts :: Run(s, acts).Some? && Done(Run(s, acts).value)
    decreases Pending(s)
  {
    if Done(s) {
      assert Run(s, []) == Some(s);
    } else {
      var a := HandshakeMove(s);
      HandshakeProgress(s);
      StepInv(s, a);
      HandshakeCanComplete(Apply(s, a));
      var acts :| Run(Apply(s, a), acts).Some? && Done(Run(Apply(s, a), acts).value);
      assert ([a] + acts)[0] == a && ([a] + acts)[1..] == acts;
      assert Run(s, [a] + acts) == Run(Apply(s, a), acts);
    }
  }

  /** From the start, every schedule can be extended to one in which both sides return
      and the worker holds the canvas `create_main` was given. */
  lemma HandshakeAlwaysCompletes<P>(serde: Serde<P>, canvas: nat, pre: seq<Action<P>>)
    requires Run(Init<P>(serde, canvas), pre).Some?
    ensures var s := Run(Init<P>(serde, canvas), pre).value;
      exists acts :: (Run(s, acts).Some? && Done(Run(s, acts).value) && Run(s, acts).value.worker.canvas == canvas)
  {
    var s := Run(Init<P>(serde, canvas), pre).value;
    InitInv<P>(serde, canvas);
    RunInv(Init<P>(serde, canvas), pre);
    RunKeepsCanvas(Init<P>(serde, canvas), pre);
    HandshakeCanComplete(s);
    var acts :| Run(s, acts).Some? && Done(Run(s, acts).value);
    RunInv(s, acts);
    RunKeepsCanvas(s, acts);
  }
}
