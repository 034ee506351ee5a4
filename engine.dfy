/** The click-event engine of src/engine.rs: a canvas click handler pushes events onto a
    list shared with the engine, and each frame the engine moves every pending event
    into its per-frame buffer. */
module Engine {
  import opened Base
  import opened Vecs
  import opened Pacing

  datatype Event = MouseDown(x: real, y: real)

  datatype NoElem = NoElem

  const DELAY_PANIC: string := "can't delay with that large a value!"

  /** `Engine`: `events` is the `Rc<RefCell<Vec<Event>>>` the click handler also holds. */
  class Engine {
    const events: Vec<Event>
    const buffer: Vec<Event>
    var last: real
    const period: nat

    predicate Valid()
      reads this
    {
      events != buffer
    }

    constructor (events: Vec<Event>, now: real, period: nat)
      ensures Valid() && fresh(buffer)
      ensures this.events == events && buffer.elems == [] && last == now && this.period == period
    {
      this.events := events;
      buffer := new Vec();
      last := now;
      this.period := period;
    }

    /** `Engine::new`: fails with `NoElem` when no element has the given id; otherwise
        the shared event list starts empty. */
    static method New(found: bool, now: real, period: nat) returns (r: Result<Engine, NoElem>)
      ensures r.Err? <==> !found
      ensures r.Ok? ==> fresh(r.value) && fresh(r.value.events) && r.value.Valid()
      ensures r.Ok? ==> r.value.events.elems == [] && r.value.buffer.elems == []
      ensures r.Ok? ==> r.value.last == now && r.value.period == period
    {
      if !found {
        return Err(NoElem);
      }
      var events := new Vec();
      var e := new Engine(events, now, period);
      r := Ok(e);
    }

    /** `Engine::next` up to `delay(d).await`: the wait is `Wait(period, last, now)`, and
        `delay` converts it to `i32` and panics when it does not fit. Nothing changes. */
    method BeginNext(now: real) returns (r: Result<(), string>, wait: Option<nat>)
      ensures wait == Wait(period, last, now)
      ensures r.Err? <==> wait.Some? && wait.value > I32_MAX
      ensures r.Err? ==> r.error == DELAY_PANIC
    {
      var diff := now - last;
      wait := None;
      r := Ok(());
      if period as real - diff > 0.0 {
        var d := UsizeFromReal(period as real - diff);
        wait := Some(d);
        if d > I32_MAX {
          r := Err(DELAY_PANIC);
        }
      }
    }

    /** `Engine::next` after the delay has resolved: the buffer is cleared, every pending
        event is moved into it in arrival order, the pending list is left empty (the
        assertion in the source), `last` becomes `tt`, and the buffer is returned. */
    method FinishNext(tt: real) returns (frame: seq<Event>)
      requires Valid()
      modifies this, buffer, events
      ensures Valid()
      ensures frame == buffer.elems == old(events.elems) && events.elems == [] && last == tt
    {
      last := tt;
      buffer.Clear();
      buffer.Append(events);
      assert events.elems == [];
      frame := buffer.elems;
    }

    /** `Engine::next`. `delay(d).await` yields to the browser's event loop, so the
        click handler runs for the clicks `during` that arrive while the frame waits; a
        frame that does not wait never yields, and no click can come in. Those clicks
        are returned with the ones pending when the call began. On a panic nothing
        changes. */
    method Next(tt: real, now: real, during: seq<(i32, i32)>)
      returns (r: Result<Option<seq<Event>>, string>, wait: Option<nat>)
      requires Valid()
      modifies this, events, buffer
      ensures Valid()
      ensures wait == Wait(period, old(last), now)
      ensures r.Err? <==> wait.Some? && wait.value > I32_MAX
      ensures r.Err? ==> (r.error == DELAY_PANIC && last == old(last)
        && events.elems == old(events.elems) && buffer.elems == old(buffer.elems))
      ensures r.Ok? ==> (var got := old(events.elems) + (if wait.Some? then Clicks(during) else []);
        r.value == Some(got) && buffer.elems == got && events.elems == [] && last == tt)
    {
      var begun;
      begun, wait := BeginNext(now);
      if begun.Err? {
        return Err(begun.error), wait;
      }
      ghost var got := events.elems + (if wait.Some? then Clicks(during) else []);
      if wait.Some? {
        PushClicks(events, during);
      }
      assert events.elems == got;
      var frame := FinishNext(tt);
      assert frame == got;
      r := Ok(Some(frame));
    }
  }

  /** The click handler installed by `Engine::new`: one `MouseDown` at the click's client
      coordinates, appended to the shared list. */
  method OnClick(ee: Vec<Event>, clientX: i32, clientY: i32)
    modifies ee
    ensures ee.elems == old(ee.elems) + [MouseDown(clientX as real, clientY as real)]
  {
    ee.Push(MouseDown(clientX as real, clientY as real));
  }

  function Clicks(cs: seq<(i32, i32)>): (es: seq<Event>)
    ensures |es| == |cs|
    ensures forall k | 0 <= k < |cs| :: es[k] == MouseDown(cs[k].0 as real, cs[k].1 as real)
  {
    if cs == [] then [] else Clicks(cs[..|cs| - 1]) + [MouseDown(cs[|cs| - 1].0 as real, cs[|cs| - 1].1 as real)]
  }

  function Flatten<T>(xss: seq<seq<T>>): seq<T>
  {
    if xss == [] then [] else Flatten(xss[..|xss| - 1]) + xss[|xss| - 1]
  }

  /** Clock readings a frame loop can see: each frame reads `tt` then `now`, and
      `performance.now()` never goes backwards. */
  predicate Monotone(start: real, times: seq<(real, real)>)
  {
    && (times != [] ==> start <= times[0].0)
    && (forall k | 0 <= k < |times| :: times[k].0 <= times[k].1)
    && (forall k | 0 <= k && k + 1 < |times| :: times[k].1 <= times[k + 1].0)
  }

  /** Several clicks in a row, each through the handler. */
  method PushClicks(ee: Vec<Event>, cs: seq<(i32, i32)>)
    modifies ee
    ensures ee.elems == old(ee.elems) + Clicks(cs)
  {
    var i := 0;
    while i < |cs|
      invariant 0 <= i <= |cs|
      invariant ee.elems == old(ee.elems) + Clicks(cs[..i])
    {
      assert cs[..i + 1][..i] == cs[..i];
      OnClick(ee, cs[i].0, cs[i].1);
      i := i + 1;
    }
    assert cs[..i] == cs;
  }

  /** With a monotone clock and a period that fits in `i32`, `delay` never panics. */
  lemma DelayFits(period: nat, last: real, now: real)
    requires period <= I32_MAX && last <= now
    ensures var w := Wait(period, last, now); w.Some? ==> w.value <= I32_MAX
  {
  }

  /** The clicks that reach one frame: those that arrived before `next` was called,
      then, if `next` waited, those that arrived during the wait. */
  function Arrived(before: seq<(i32, i32)>, during: seq<(i32, i32)>, wait: Option<nat>): seq<(i32, i32)>
  {
    before + (if wait.Some? then during else [])
  }

  /** One frame of the loop below: the clicks `before` arrive, then `next` runs, and
      the clicks `during` arrive while it waits. */
  method OneFrame(e: Engine, before: seq<(i32, i32)>, during: seq<(i32, i32)>, tt: real, now: real)
    returns (f: seq<Event>, wait: Option<nat>)
    requires e.Valid() && e.events.elems == [] && e.period <= I32_MAX
    requires e.last <= tt <= now
    modifies e, e.events, e.buffer
    ensures e.Valid() && e.events.elems == [] && e.last == tt
    ensures wait == Wait(e.period, old(e.last), now)
    ensures f == Clicks(Arrived(before, during, wait))
  {
    PushClicks(e.events, before);
    DelayFits(e.period, e.last, now);
    var r;
    r, wait := e.Next(tt, now, during);
    f := r.value.value;
    ClicksAppend(before, if wait.Some? then during else []);
  }

  /** A frame loop as in `run_game`: before frame `k` the clicks `clicks[k]` arrive, then
      `next` is awaited, and the clicks `during[k]` arrive while it waits, if it waits.
      With a period that fits in `i32` and a monotone clock `next` never panics; frame
      `k` waits as `Wait` says from the previous frame's timestamp, and returns exactly
      the clicks that arrived since the previous frame's buffer was filled, in order, so
      every click is returned exactly once. */
  method FrameLoop(e: Engine, clicks: seq<seq<(i32, i32)>>, during: seq<seq<(i32, i32)>>, times: seq<(real, real)>)
    returns (frames: seq<seq<Event>>, waits: seq<Option<nat>>)
    requires e.Valid() && e.events.elems == [] && e.period <= I32_MAX
    requires |times| == |clicks| == |during| && Monotone(e.last, times)
    modifies e, e.events, e.buffer
    ensures |frames| == |clicks| && |waits| == |clicks|
    ensures forall k | 0 <= k < |clicks| :: waits[k] == Wait(e.period, LastBefore(old(e.last), times, k), times[k].1)
    ensures forall k | 0 <= k < |clicks| :: frames[k] == Clicks(Arrived(clicks[k], during[k], waits[k]))
    ensures Flatten(frames) == Clicks(Flatten(ArrivedAll(clicks, during, waits)))
    ensures e.events.elems == []
  {
    ghost var start := e.last;
    frames, waits := [], [];
    var k := 0;
    while k < |clicks|
      invariant 0 <= k <= |clicks| && |frames| == k && |waits| == k
      invariant e.Valid() && e.events.elems == []
      invariant e.last == LastBefore(start, times, k)
      invariant Framed(e.period, start, clicks, during, times, frames, waits)
    {
      MonotoneLast(start, times, k);
      var f, w := OneFrame(e, clicks[k], during[k], times[k].0, times[k].1);
      LoopStep(e.period, start, clicks, during, times, frames, waits, f, w);
      frames, waits := frames + [f], waits + [w];
      k := k + 1;
    }
    assert clicks[..k] == clicks && during[..k] == during;
  }

  /** The loop's invariant after `|frames|` frames: each frame waited as `Wait` says and
      returned the clicks that reached it, and together they returned every click that
      reached any of them, in order. */
  ghost predicate Framed(period: nat, start: real, clicks: seq<seq<(i32, i32)>>, during: seq<seq<(i32, i32)>>,
                         times: seq<(real, real)>, frames: seq<seq<Event>>, waits: seq<Option<nat>>)
  {
    && |frames| == |waits| <= |clicks| == |during| == |times|
    && (forall j | 0 <= j < |waits| :: waits[j] == Wait(period, LastBefore(start, times, j), times[j].1))
    && (forall j | 0 <= j < |frames| :: frames[j] == Clicks(Arrived(clicks[j], during[j], waits[j])))
    && Flatten(frames) == Clicks(Flatten(ArrivedAll(clicks[..|frames|], during[..|frames|], waits)))
  }

  /** One iteration of the loop above keeps its invariant. */
  lemma LoopStep(period: nat, start: real, clicks: seq<seq<(i32, i32)>>, during: seq<seq<(i32, i32)>>,
                 times: seq<(real, real)>, frames: seq<seq<Event>>, waits: seq<Option<nat>>,
                 f: seq<Event>, w: Option<nat>)
    requires Framed(period, start, clicks, during, times, frames, waits) && |frames| < |clicks|
    requires w == Wait(period, LastBefore(start, times, |frames|), times[|frames|].1)
    requires f == Clicks(Arrived(clicks[|frames|], during[|frames|], w))
    ensures Framed(period, start, clicks, during, times, frames + [f], waits + [w])
  {
    var k := |frames|;
    FramesStep(frames, clicks, during, waits, k, w);
    forall j | 0 <= j < k + 1
      ensures (waits + [w])[j] == Wait(period, LastBefore(start, times, j), times[j].1)
      ensures (frames + [f])[j] == Clicks(Arrived(clicks[j], during[j], (waits + [w])[j]))
    {
      if j < k {
        assert (waits + [w])[j] == waits[j] && (frames + [f])[j] == frames[j];
      }
    }
  }

  /** The timestamp `next` left in `last` before frame `k`: the start, or the previous
      frame's `tt`. */
  function LastBefore(start: real, times: seq<(real, real)>, k: nat): real
    requires k <= |times|
  {
    if k == 0 then start else times[k - 1].0
  }

  lemma MonotoneLast(start: real, times: seq<(real, real)>, k: nat)
    requires Monotone(start, times) && k < |times|
    ensures LastBefore(start, times, k) <= times[k].0 <= times[k].1
  {
  }

  /** The clicks that reach each frame of a loop, frame by frame. */
  function ArrivedAll(clicks: seq<seq<(i32, i32)>>, during: seq<seq<(i32, i32)>>, waits: seq<Option<nat>>)
    : seq<seq<(i32, i32)>>
    requires |clicks| == |during| == |waits|
    decreases |clicks|
  {
    if clicks == [] then []
    else
      var n := |clicks| - 1;
      ArrivedAll(clicks[..n], during[..n], waits[..n]) + [Arrived(clicks[n], during[n], waits[n])]
  }

  /** One more frame keeps the loop's "every click exactly once" invariant. */
  lemma FramesStep(frames: seq<seq<Event>>, clicks: seq<seq<(i32, i32)>>, during: seq<seq<(i32, i32)>>,
                   waits: seq<Option<nat>>, k: nat, w: Option<nat>)
    requires k == |frames| == |waits| && k < |clicks| == |during|
    requires Flatten(frames) == Clicks(Flatten(ArrivedAll(clicks[..k], during[..k], waits)))
    ensures Flatten(frames + [Clicks(Arrived(clicks[k], during[k], w))])
         == Clicks(Flatten(ArrivedAll(clicks[..k + 1], during[..k + 1], waits + [w])))
  {
    var next := Arrived(clicks[k], during[k], w);
    assert clicks[..k + 1][..k] == clicks[..k] && during[..k + 1][..k] == during[..k];
    assert (waits + [w])[..k] == waits;
    var all := ArrivedAll(clicks[..k + 1], during[..k + 1], waits + [w]);
    assert all == ArrivedAll(clicks[..k], during[..k], waits) + [next];
    assert (frames + [Clicks(next)])[..|frames|] == frames;
    assert all[..|all| - 1] == ArrivedAll(clicks[..k], during[..k], waits);
    ClicksAppend(Flatten(ArrivedAll(clicks[..k], during[..k], waits)), next);
  }

  lemma ClicksAppend(a: seq<(i32, i32)>, b: seq<(i32, i32)>)
    ensures Clicks(a + b) == Clicks(a) + Clicks(b)
  {
    var l, r := Clicks(a + b), Clicks(a) + Clicks(b);
    assert |l| == |r|;
    forall k | 0 <= k < |l| ensures l[k] == r[k] {
      if k < |a| { assert (a + b)[k] == a[k]; } else { assert (a + b)[k] == b[k - |a|]; }
    }
  }
}
