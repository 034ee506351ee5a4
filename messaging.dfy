/** Message framing and dispatch between the main thread and the worker (src/lib.rs).

    Every message is a two-slot JavaScript array `[tag, payload]`. Data frames are
    `[null, payload]`; the worker announces itself with `["ready", null]`; the main
    thread answers with `[transferable, null]`. Each listener owns a one-shot sender,
    kept in an `Option` slot and taken at most once, and the sending end of an
    unbounded FIFO channel. Payloads are opaque values of a type parameter `P`. */
module Messaging {
  import opened Base

  /** A JavaScript value as read from a message slot. `Transfer` is a transferable
      object (an offscreen canvas or array buffer) identified by a handle; `Serialized`
      is what `JsValue::from_serde` produced from a payload whose JSON is not `null`. */
  datatype JsValue<P> = Null | Str(s: string) | Transfer(handle: nat) | Serialized(payload: P)

  /** A message: the two slots of the array. */
  datatype Frame<P> = Frame(tag: JsValue<P>, body: JsValue<P>)

  /** What `serde_json` does with payloads of type `P` at the message boundary, as far as
      the listeners can tell. `nullJson(p)` says that `p` serialises to JSON `null`, as
      `()`, `None`, a unit struct or a non-finite float do. `fromNull` is the payload that
      JSON `null` deserialises to, if the type has one (`()` for `()`, `None` for an
      `Option`); for other types decoding `null` fails. */
  datatype Serde<!P> = Serde(nullJson: P -> bool, fromNull: Option<P>)

  /** `JsValue::from_serde`: JS `null` for a payload whose JSON is `null`. */
  function FromSerde<P>(c: Serde<P>, p: P): JsValue<P>
  {
    if c.nullJson(p) then Null else Serialized(p)
  }

  /** `into_serde`: a serialized payload decodes to itself, `null` to the type's null
      payload if it has one, and anything else fails; `None` is the error that
      `unwrap_throw` turns into a thrown exception. */
  function IntoSerde<P>(c: Serde<P>, v: JsValue<P>): (r: Option<P>)
    ensures r.Some? <==> v.Serialized? || (v.Null? && c.fromNull.Some?)
    ensures v.Serialized? ==> r == Some(v.payload)
    ensures v.Null? ==> r == c.fromNull
  {
    match v
    case Serialized(p) => Some(p)
    case Null => c.fromNull
    case _ => None
  }

  /** Whether decoding what was encoded gives the payload back: always, except for a
      payload whose JSON is `null` and which is not the type's null payload. */
  ghost predicate Keeps<P>(c: Serde<P>, p: P)
  {
    !c.nullJson(p) || c.fromNull == Some(p)
  }

  /** Decoding inverts encoding exactly on the payloads that `Keeps` admits; a payload
      whose JSON is `null` comes back as the type's null payload, or not at all. */
  lemma SerdeRoundTrip<P>(c: Serde<P>, p: P)
    ensures IntoSerde(c, FromSerde(c, p)) == Some(p) <==> Keeps(c, p)
    ensures c.nullJson(p) ==> IntoSerde(c, FromSerde(c, p)) == c.fromNull
  {
  }

  /** The frame all three senders build: slot 0 null, slot 1 the serialized payload. */
  function DataFrame<P>(c: Serde<P>, p: P): Frame<P>
  {
    Frame(Null, FromSerde(c, p))
  }

  /** The worker's announcement `["ready", null]`. */
  function ReadyFrame<P>(): Frame<P>
  {
    Frame(Str("ready"), Null)
  }

  /** The main thread's answer `[transferable, null]`. */
  function TransferFrame<P>(handle: nat): Frame<P>
  {
    Frame(Transfer(handle), Null)
  }

  predicate IsReady<P>(f: Frame<P>)
  {
    f.tag == Str("ready")
  }

  /** What a listener owns, seen from outside: whether the one-shot sender is still in
      its slot, what has gone through the one-shot channel, and what has gone through the
      unbounded channel, oldest first. */
  datatype Listener<S, P> = Listener(held: bool, signal: Option<S>, queue: seq<P>)

  /** A fresh listener: sender in the slot, nothing sent. */
  function Fresh<S, P>(): Listener<S, P>
  {
    Listener(true, None, [])
  }

  /** The one-shot slot is full exactly until the one signal has been sent. */
  predicate SlotAgrees<S, P>(l: Listener<S, P>)
  {
    l.held <==> l.signal.None?
  }

  /** The state after handling one frame, and whether the handler threw. */
  datatype Outcome<S, P> = Outcome(after: Listener<S, P>, thrown: bool)

  /** `MyListen::call`, the main thread's listener. A non-null slot 0 is a signal: only
      the string "ready" fires the one-shot, and only while the sender is still in the
      slot. A null slot 0 makes slot 1, even a null one, a payload for the queue; one
      that does not decode throws and leaves the state unchanged. */
  function MainStep<P>(c: Serde<P>, l: Listener<(), P>, f: Frame<P>): (r: Outcome<(), P>)
    ensures !f.tag.Null? ==> !r.thrown && r.after.queue == l.queue
    ensures f.tag.Null? && f.body.Serialized? ==>
      r == Outcome(l.(queue := l.queue + [f.body.payload]), false)
    ensures f.tag.Null? && f.body.Null? && c.fromNull.Some? ==>
      r == Outcome(l.(queue := l.queue + [c.fromNull.value]), false)
    ensures f.tag.Null? && f.body.Null? && c.fromNull.None? ==> r == Outcome(l, true)
    ensures f.tag.Null? && (f.body.Str? || f.body.Transfer?) ==> r == Outcome(l, true)
    ensures r.after.signal != l.signal ==> IsReady(f) && l.held && r.after.signal == Some(())
    ensures r.after.held != l.held ==> IsReady(f) && l.held
    ensures IsReady(f) ==> !r.after.held && (l.held ==> r.after.signal == Some(()))
    ensures IsReady(f) && !l.held ==> r == Outcome(l, false)
    ensures r.thrown ==> r.after == l
  {
    if !f.tag.Null? then
      if f.tag.Str? && f.tag.s == "ready" && l.held then
        Outcome(Listener(false, Some(()), l.queue), false)
      else
        Outcome(l, false)
    else
      match IntoSerde(c, f.body)
      case Some(p) => Outcome(l.(queue := l.queue + [p]), false)
      case None => Outcome(l, true)
  }

  /** `MyListen3::call`, the worker's listener. The two slots are handled independently
      and in order: a non-null slot 0 must be a transferable (anything else throws
      before the state changes) and is delivered through the one-shot if the sender is
      still in the slot; then a non-null slot 1 is decoded and queued (a value that does
      not decode throws, after slot 0 has been handled). A null slot 1 is skipped, so a
      payload whose JSON is `null` never reaches the queue. */
  function WorkerStep<P>(c: Serde<P>, l: Listener<nat, P>, f: Frame<P>): (r: Outcome<nat, P>)
    ensures r.after.signal != l.signal ==>
      f.tag.Transfer? && l.held && r.after.signal == Some(f.tag.handle)
    ensures r.after.held != l.held ==> f.tag.Transfer? && l.held
    ensures f.tag.Transfer? ==> !r.after.held && (l.held ==> r.after.signal == Some(f.tag.handle))
    ensures f.tag.Null? && f.body.Null? ==> r == Outcome(l, false)
    ensures (f.tag.Null? || f.tag.Transfer?) && f.body.Serialized? ==>
      !r.thrown && r.after.queue == l.queue + [f.body.payload]
    ensures (f.tag.Null? || f.tag.Transfer?) && f.body.Null? ==> !r.thrown
    ensures f.body.Null? ==> r.after.queue == l.queue
    ensures !f.tag.Null? && !f.tag.Transfer? ==> r == Outcome(l, true)
    ensures r.thrown ==> r.after.queue == l.queue
    ensures !r.thrown <==> (f.tag.Null? || f.tag.Transfer?) && (f.body.Null? || f.body.Serialized?)
  {
    if !f.tag.Null? && !f.tag.Transfer? then
      Outcome(l, true)
    else
      var l1 := if f.tag.Transfer? && l.held then Listener(false, Some(f.tag.handle), l.queue) else l;
      if f.body.Null? then
        Outcome(l1, false)
      else
        match IntoSerde(c, f.body)
        case Some(p) => Outcome(l1.(queue := l1.queue + [p]), false)
        case None => Outcome(l1, true)
  }

  /** `["ready", null]` at the main listener fires the ready signal, enqueues nothing and
      does not throw. */
  lemma ReadyRoundTrip<P>(c: Serde<P>, l: Listener<(), P>)
    requires l.held
    ensures MainStep(c, l, ReadyFrame()) == Outcome(Listener(false, Some(()), l.queue), false)
  {
  }

  /** `[canvas, null]` at the worker listener delivers the canvas, enqueues nothing and
      does not throw. */
  lemma TransferRoundTrip<P>(c: Serde<P>, l: Listener<nat, P>, handle: nat)
    requires l.held
    ensures WorkerStep(c, l, TransferFrame(handle)) == Outcome(Listener(false, Some(handle), l.queue), false)
  {
  }

  /** `[null, p]` at either listener touches neither the slot nor the signal. A payload
      whose JSON is not `null` is queued, exactly, after everything queued before. One
      whose JSON is `null` is silently dropped by the worker, and arrives at the main
      thread as the type's null payload, or makes it throw when the type has none. */
  lemma DataRoundTrip<P>(c: Serde<P>, m: Listener<(), P>, w: Listener<nat, P>, p: P)
    ensures !c.nullJson(p) ==> MainStep(c, m, DataFrame(c, p)) == Outcome(m.(queue := m.queue + [p]), false)
    ensures !c.nullJson(p) ==> WorkerStep(c, w, DataFrame(c, p)) == Outcome(w.(queue := w.queue + [p]), false)
    ensures c.nullJson(p) ==> WorkerStep(c, w, DataFrame(c, p)) == Outcome(w, false)
    ensures c.nullJson(p) && c.fromNull.Some? ==>
      MainStep(c, m, DataFrame(c, p)) == Outcome(m.(queue := m.queue + [c.fromNull.value]), false)
    ensures c.nullJson(p) && c.fromNull.None? ==> MainStep(c, m, DataFrame(c, p)) == Outcome(m, true)
  {
  }

  /** The main listener over a sequence of frames; the event loop carries on after a
      listener throws. */
  function MainRun<P>(c: Serde<P>, l: Listener<(), P>, fs: seq<Frame<P>>): Listener<(), P>
    decreases |fs|
  {
    if fs == [] then l else MainRun(c, MainStep(c, l, fs[0]).after, fs[1..])
  }

  /** The worker listener over a sequence of frames. */
  function WorkerRun<P>(c: Serde<P>, l: Listener<nat, P>, fs: seq<Frame<P>>): Listener<nat, P>
    decreases |fs|
  {
    if fs == [] then l else WorkerRun(c, WorkerStep(c, l, fs[0]).after, fs[1..])
  }

  /** The payloads the main listener accepts, in order: for each frame with a null tag,
      what its slot 1 decodes to, if it decodes. */
  function MainPayloads<P>(c: Serde<P>, fs: seq<Frame<P>>): seq<P>
    decreases |fs|
  {
    if fs == [] then []
    else (if fs[0].tag.Null? && IntoSerde(c, fs[0].body).Some? then [IntoSerde(c, fs[0].body).value] else [])
         + MainPayloads(c, fs[1..])
  }

  /** The payloads the worker listener accepts, in order: those of frames whose tag is
      null or a transferable and whose slot 1 is a serialized payload. */
  function WorkerPayloads<P>(fs: seq<Frame<P>>): seq<P>
    decreases |fs|
  {
    if fs == [] then []
    else (if (fs[0].tag.Null? || fs[0].tag.Transfer?) && fs[0].body.Serialized?
          then [fs[0].body.payload] else [])
         + WorkerPayloads(fs[1..])
  }

  /** The handle of the first frame carrying a transferable in slot 0, if any. */
  function FirstTransfer<P>(fs: seq<Frame<P>>): Option<nat>
    decreases |fs|
  {
    if fs == [] then None
    else if fs[0].tag.Transfer? then Some(fs[0].tag.handle)
    else FirstTransfer(fs[1..])
  }

  lemma MainPayloadsAppend<P>(c: Serde<P>, a: seq<Frame<P>>, b: seq<Frame<P>>)
    ensures MainPayloads(c, a + b) == MainPayloads(c, a) + MainPayloads(c, b)
    decreases |a|
  {
    if a != [] {
      assert (a + b)[1..] == a[1..] + b;
      assert (a + b)[0] == a[0];
      MainPayloadsAppend(c, a[1..], b);
    } else {
      assert a + b == b;
    }
  }

  lemma WorkerPayloadsAppend<P>(a: seq<Frame<P>>, b: seq<Frame<P>>)
    ensures WorkerPayloads(a + b) == WorkerPayloads(a) + WorkerPayloads(b)
    decreases |a|
  {
    if a != [] {
      assert (a + b)[1..] == a[1..] + b;
      assert (a + b)[0] == a[0];
      WorkerPayloadsAppend(a[1..], b);
    } else {
      assert a + b == b;
    }
  }

  /** The main queue receives exactly the accepted payloads, in arrival order, after
      what it held before; ready frames and other signals never add to it. */
  lemma {:induction false} MainRunQueue<P>(c: Serde<P>, l: Listener<(), P>, fs: seq<Frame<P>>)
    ensures MainRun(c, l, fs).queue == l.queue + MainPayloads(c, fs)
    decreases |fs|
  {
    if fs != [] {
      MainRunQueue(c, MainStep(c, l, fs[0]).after, fs[1..]);
    }
  }

  /** The ready signal is sent at most once: after any sequence of frames it has been
      sent exactly when it had been sent before or some frame was "ready", and the slot
      is empty exactly when it has been sent. */
  lemma {:induction false} MainRunSignal<P>(c: Serde<P>, l: Listener<(), P>, fs: seq<Frame<P>>)
    requires SlotAgrees(l)
    ensures SlotAgrees(MainRun(c, l, fs))
    ensures MainRun(c, l, fs).signal.Some? <==> l.signal.Some? || exists i | 0 <= i < |fs| :: IsReady(fs[i])
    decreases |fs|
  {
    if fs != [] {
      var l1 := MainStep(c, l, fs[0]).after;
      MainRunSignal(c, l1, fs[1..]);
      if exists i | 0 <= i < |fs[1..]| :: IsReady(fs[1..][i]) {
        var i :| 0 <= i < |fs[1..]| && IsReady(fs[1..][i]);
        assert IsReady(fs[i + 1]);
      }
      if exists i | 0 <= i < |fs| :: IsReady(fs[i]) {
        var i :| 0 <= i < |fs| && IsReady(fs[i]);
        if i > 0 { assert IsReady(fs[1..][i - 1]); }
      }
    }
  }

  /** The worker queue receives exactly the payloads it accepts, in arrival order. */
  lemma {:induction false} WorkerRunQueue<P>(c: Serde<P>, l: Listener<nat, P>, fs: seq<Frame<P>>)
    ensures WorkerRun(c, l, fs).queue == l.queue + WorkerPayloads(fs)
    decreases |fs|
  {
    if fs != [] {
      WorkerRunQueue(c, WorkerStep(c, l, fs[0]).after, fs[1..]);
    }
  }

  /** The worker delivers at most one transferable, the first one to arrive: later ones
      are dropped because the slot has been emptied. */
  lemma {:induction false} WorkerRunSignal<P>(c: Serde<P>, l: Listener<nat, P>, fs: seq<Frame<P>>)
    requires SlotAgrees(l)
    ensures SlotAgrees(WorkerRun(c, l, fs))
    ensures WorkerRun(c, l, fs).signal == if l.held then FirstTransfer(fs) else l.signal
    decreases |fs|
  {
    if fs != [] {
      WorkerRunSignal(c, WorkerStep(c, l, fs[0]).after, fs[1..]);
    }
  }

  /** What the main queue ends up with of data payloads posted in this order: each one as
      it decodes from its own encoding; one that does not decode is lost to a throw. */
  function MainReceives<P>(c: Serde<P>, ps: seq<P>): seq<P>
    decreases |ps|
  {
    if ps == [] then []
    else MainReceives(c, ps[..|ps| - 1])
         + (match IntoSerde(c, FromSerde(c, ps[|ps| - 1])) case Some(q) => [q] case None => [])
  }

  /** What the worker queue ends up with of data payloads posted in this order: those
      whose JSON is not `null`. */
  function WorkerReceives<P>(c: Serde<P>, ps: seq<P>): seq<P>
    decreases |ps|
  {
    if ps == [] then []
    else WorkerReceives(c, ps[..|ps| - 1]) + (if c.nullJson(ps[|ps| - 1]) then [] else [ps[|ps| - 1]])
  }

  lemma {:induction false} MainReceivesLength<P>(c: Serde<P>, ps: seq<P>)
    ensures |MainReceives(c, ps)| <= |ps|
    decreases |ps|
  {
    if ps != [] {
      MainReceivesLength(c, ps[..|ps| - 1]);
    }
  }

  lemma {:induction false} WorkerReceivesLength<P>(c: Serde<P>, ps: seq<P>)
    ensures |WorkerReceives(c, ps)| <= |ps|
    decreases |ps|
  {
    if ps != [] {
      WorkerReceivesLength(c, ps[..|ps| - 1]);
    }
  }

  /** Every payload the worker sends reaches the main queue unchanged exactly when each of
      them survives the round trip through JSON. */
  lemma {:induction false} MainReceivesAll<P>(c: Serde<P>, ps: seq<P>)
    ensures MainReceives(c, ps) == ps <==> forall i | 0 <= i < |ps| :: Keeps(c, ps[i])
    decreases |ps|
  {
    if ps != [] {
      var q, x := ps[..|ps| - 1], ps[|ps| - 1];
      assert ps == q + [x];
      MainReceivesAll(c, q);
      MainReceivesLength(c, q);
      SerdeRoundTrip(c, x);
      if forall i | 0 <= i < |ps| :: Keeps(c, ps[i]) {
        assert forall i | 0 <= i < |q| :: Keeps(c, q[i]) by {
          forall i | 0 <= i < |q| ensures Keeps(c, q[i]) { assert q[i] == ps[i]; }
        }
      }
      if MainReceives(c, ps) == ps {
        assert IntoSerde(c, FromSerde(c, x)).Some?;
        assert MainReceives(c, ps) == MainReceives(c, q) + [IntoSerde(c, FromSerde(c, x)).value];
        assert MainReceives(c, q) == q;
        forall i | 0 <= i < |ps| ensures Keeps(c, ps[i]) {
          if i < |q| { assert ps[i] == q[i]; }
        }
      }
    }
  }

  /** Every payload the main thread sends reaches the worker queue exactly when none of
      them serialises to JSON `null`. */
  lemma {:induction false} WorkerReceivesAll<P>(c: Serde<P>, ps: seq<P>)
    ensures WorkerReceives(c, ps) == ps <==> forall i | 0 <= i < |ps| :: !c.nullJson(ps[i])
    decreases |ps|
  {
    if ps != [] {
      var q, x := ps[..|ps| - 1], ps[|ps| - 1];
      assert ps == q + [x];
      WorkerReceivesAll(c, q);
      WorkerReceivesLength(c, q);
      if forall i | 0 <= i < |ps| :: !c.nullJson(ps[i]) {
        assert forall i | 0 <= i < |q| :: !c.nullJson(q[i]) by {
          forall i | 0 <= i < |q| ensures !c.nullJson(q[i]) { assert q[i] == ps[i]; }
        }
      }
      if WorkerReceives(c, ps) == ps {
        assert !c.nullJson(x);
        assert WorkerReceives(c, q) == q;
        forall i | 0 <= i < |ps| ensures !c.nullJson(ps[i]) {
          if i < |q| { assert ps[i] == q[i]; }
        }
      }
    }
  }

  // ---------------------------------------------------------------------------
  // The imperative side: channels, senders and listeners as heap objects.

  /** The receiving end of a one-shot channel: what has been sent through it. */
  class OneShot<T> {
    var value: Option<T>

    constructor ()
      ensures value == None
    {
      value := None;
    }

    /** `oneshot::Sender::send`: the sender is consumed, so this happens once. */
    method Send(x: T)
      requires value == None
      modifies this
      ensures value == Some(x)
    {
      value := Some(x);
    }
  }

  /** An unbounded FIFO channel: what has been sent and not yet received. */
  class Channel<T> {
    var items: seq<T>

    constructor ()
      ensures items == []
    {
      items := [];
    }

    /** `UnboundedSender::unbounded_send`. */
    method Send(x: T)
      modifies this
      ensures items == old(items) + [x]
    {
      items := items + [x];
    }
  }

  /** A `postMessage` target (the `Worker` object on the main side, the worker's global
      scope on the worker side): the frames posted to it, in order. */
  class Port<P> {
    var posted: seq<Frame<P>>

    constructor ()
      ensures posted == []
    {
      posted := [];
    }

    method PostMessage(f: Frame<P>)
      modifies this
      ensures posted == old(posted) + [f]
    {
      posted := posted + [f];
    }
  }

  /** `MainSender`: posts data frames to the worker. */
  class MainSender<P> {
    const worker: Port<P>
    const serde: Serde<P>

    constructor (worker: Port<P>, serde: Serde<P>)
      ensures this.worker == worker && this.serde == serde
    {
      this.worker := worker;
      this.serde := serde;
    }

    /** `MainSender::post_message`: posts `[null, val]`. */
    method PostMessage(val: P)
      modifies worker
      ensures worker.posted == old(worker.posted) + [DataFrame(serde, val)]
    {
      var data := Frame(Null, FromSerde(serde, val));
      worker.PostMessage(data);
    }
  }

  /** `WorkerSender`: posts data frames from the worker to the main thread. */
  class WorkerSender<P> {
    const scope: Port<P>
    const serde: Serde<P>

    constructor (scope: Port<P>, serde: Serde<P>)
      ensures this.scope == scope && this.serde == serde
    {
      this.scope := scope;
      this.serde := serde;
    }

    /** `WorkerSender::post_message`: posts `[null, a]`. */
    method PostMessage(a: P)
      modifies scope
      ensures scope.posted == old(scope.posted) + [DataFrame(serde, a)]
    {
      var data := Frame(Null, FromSerde(serde, a));
      scope.PostMessage(data);
    }
  }

  /** `MyListen2`: forwards a main-thread DOM event to the worker when the user's
      function maps it to a payload. The function is an `FnMut` closure, so it may keep
      state between events: `func` takes the closure's state and the event, and gives
      the new state and the optional payload. */
  class EventForwarder<S, E, P> {
    var state: S
    const func: (S, E) -> (S, Option<P>)
    const w: Port<P>
    const serde: Serde<P>

    constructor (state: S, func: (S, E) -> (S, Option<P>), w: Port<P>, serde: Serde<P>)
      ensures this.state == state && this.func == func && this.w == w && this.serde == serde
    {
      this.state := state;
      this.func := func;
      this.w := w;
      this.serde := serde;
    }

    /** `MyListen2::call`: runs the closure once, keeps its new state, and posts
        `[null, val]` exactly when it yields `Some(val)`. */
    method Call(event: E)
      modifies this, w
      ensures state == func(old(state), event).0
      ensures w.posted == old(w.posted) +
        (var m := func(old(state), event).1; if m.Some? then [DataFrame(serde, m.value)] else [])
    {
      var (next, mapped) := func(state, event);
      state := next;
      if mapped.Some? {
        var data := Frame(Null, FromSerde(serde, mapped.value));
        w.PostMessage(data);
      }
    }
  }

  /** `MyListen` (main side): the one-shot slot for the ready signal and the sender of the
      queue of payloads from the worker. `ready` is the receiving end of the one-shot, which
      `create_main` awaits. */
  class MainListener<P> {
    const serde: Serde<P>
    const ks: Channel<P>
    var fs: Option<OneShot<()>>
    const ready: OneShot<()>

    ghost predicate Valid()
      reads this, ready
    {
      (fs.Some? ==> fs.value == ready && ready.value.None?) &&
      (fs.None? ==> ready.value.Some?)
    }

    /** The listener as a value, for the dispatch rules above. */
    ghost function State(): Listener<(), P>
      reads this, ks, ready
    {
      Listener(fs.Some?, ready.value, ks.items)
    }

    constructor (serde: Serde<P>, ks: Channel<P>, ready: OneShot<()>)
      requires ready.value.None?
      ensures Valid() && this.serde == serde && this.ks == ks && this.ready == ready
      ensures State() == Listener(true, None, ks.items)
    {
      this.serde := serde;
      this.ks := ks;
      this.fs := Some(ready);
      this.ready := ready;
    }

    /** `MyListen::call`: handles one frame; `thrown` says `unwrap_throw` threw. */
    method Call(f: Frame<P>) returns (thrown: bool)
      requires Valid()
      modifies this, ks, ready
      ensures Valid() && SlotAgrees(State())
      ensures Outcome(State(), thrown) == MainStep(serde, old(State()), f)
    {
      thrown := false;
      if !f.tag.Null? {
        if f.tag.Str? && f.tag.s == "ready" {
          if fs.Some? {
            var sender := fs.value;
            fs := None;
            sender.Send(());
          }
        }
      } else {
        var a := IntoSerde(serde, f.body);
        if a.None? {
          thrown := true;
          return;
        }
        ks.Send(a.value);
      }
    }
  }

  /** `MyListen3` (worker side): the one-shot slot for the transferable and the sender of
      the queue of payloads from the main thread. `canvas` is the receiving end of the
      one-shot, which `create_worker` awaits. */
  class WorkerListener<P> {
    const serde: Serde<P>
    const bags: Channel<P>
    var fs: Option<OneShot<nat>>
    const canvas: OneShot<nat>

    ghost predicate Valid()
      reads this, canvas
    {
      (fs.Some? ==> fs.value == canvas && canvas.value.None?) &&
      (fs.None? ==> canvas.value.Some?)
    }

    ghost function State(): Listener<nat, P>
      reads this, bags, canvas
    {
      Listener(fs.Some?, canvas.value, bags.items)
    }

    constructor (serde: Serde<P>, bags: Channel<P>, canvas: OneShot<nat>)
      requires canvas.value.None?
      ensures Valid() && this.serde == serde && this.bags == bags && this.canvas == canvas
      ensures State() == Listener(true, None, bags.items)
    {
      this.serde := serde;
      this.bags := bags;
      this.fs := Some(canvas);
      this.canvas := canvas;
    }

    /** `MyListen3::call`: handles one frame; `thrown` says `unwrap_throw` threw. */
    method Call(f: Frame<P>) returns (thrown: bool)
      requires Valid()
      modifies this, bags, canvas
      ensures Valid() && SlotAgrees(State())
      ensures Outcome(State(), thrown) == WorkerStep(serde, old(State()), f)
    {
      thrown := false;
      if !f.tag.Null? {
        if !f.tag.Transfer? {
          thrown := true;
          return;
        }
        if fs.Some? {
          var sender := fs.value;
          fs := None;
          sender.Send(f.tag.handle);
        }
      }
      if !f.body.Null? {
        var e := IntoSerde(serde, f.body);
        if e.None? {
          thrown := true;
          return;
        }
        bags.Send(e.value);
      }
    }
  }
}
