# shogo in Dafny

A model of the plain logic inside `shogo`, a small browser game engine written in
Rust for wasm32. The engine runs its game on a web worker, draws with WebGL, and
talks to the main thread with `postMessage`. Five pieces are modelled and proved:

- **Messaging** (`messaging.dfy`, `handshake.dfy`), from `src/lib.rs`.
  - Every message is a two-slot array `[tag, payload]`.
  - The main thread's listener (`MyListen`) and the worker's listener (`MyListen3`)
    each hold a one-shot sender in an `Option` slot, and the sending end of a FIFO
    queue. The two listeners classify frames differently.
  - Start-up is a handshake. The worker posts `["ready", null]`; the main thread
    answers with `[transferable, null]`.
  - The listeners are modelled twice. As functions on a value `Listener` they are
    easy to reason about. As classes over heap channels they take the slot in place,
    as the source does, and each `Call` is proved to follow the function.
  - The handshake is a transition system. Each async function is a program counter
    and the two message directions are FIFO sequences. An invariant of every
    reachable state gives the handshake order. It also shows that payloads are
    delivered in order and never duplicated. They are lost only through their JSON
    encoding: the worker skips a payload whose JSON is `null`, and the main listener
    throws on one that does not decode.
  - `serde_json` is a value `Serde`. It says which payloads serialise to JSON `null`
    (`()`, `None`, unit structs, non-finite floats), and which payload, if any, JSON
    `null` deserialises to.
- **Frame pacing** (`pacing.dfy`, `engine.dfy`). This is `Timer` in `src/lib.rs`, and
  the click-event `Engine` of `src/engine.rs`.
  - `Engine::next` moves every pending click into a per-frame buffer and empties the
    shared list. While it awaits its delay, the click handler can run, so clicks that
    arrive during the wait join that frame.
  - A frame loop is proved to return every click exactly once, in order.
- **Vertex emitters** (`geometry.dfy`, `drawing.dfy`, `simple2d.dfy`, `dots.dfy`,
  `points.dfy`). These come from `src/simple2d/mod.rs`, `src/dots.rs` and
  `src/points.rs`.
  - `rect`, `line` and `dot_line` append to a vector, shown as the class `Vecs.Vec`.
  - Buffers record how many vertices they were given.
  - The draw calls route to the square or the circle program.
  - The explicit camera matrices map the game's corners to the clip-space corners.
- **The instanced textured-mesh program** (`shader.dfy`), from
  `src/simple2d/shader.rs`.
  - WebGL is a log of calls, `Shader.Gl`.
  - The model covers the location checks of `GlProgram::new`, the uniform codes of
    `draw`, and the four-location, 64-byte-stride layout of the per-instance `mat4`.
- **Machine integers** (`base.dfy`). On wasm32 `usize` is 32 bits wide.
  - `f64 as usize` truncates and saturates.
  - `i32 as u32` reinterprets two's complement.
  - `usize as i32` keeps the low 32 bits.

Several modelling choices differ from a literal reading of the source:

- **Time.** Timestamps are reals (milliseconds from `performance.now()`), read twice
  per frame: first `tt`, then `now`. They are not integer milliseconds, because the
  source computes the wait in `f64` and truncates it once. Only that truncation
  (`Base.UsizeFromReal`) is made explicit.
- **Vertex coordinates** are reals. Segment length, unit direction and unit normal
  are inputs, because `sqrt` and normalisation are floating point.
- **The source's revisions do not agree**, so each file is modelled on its own terms.
  - `src/simple2d/mod.rs` uses a `GlProgram` with another API than
    `src/simple2d/shader.rs`.
  - The engine rounds its period to `100 / fps` milliseconds, the timer to
    `1000 / fps`; both take the rounded period as an input here.

## Model

| member | source | states |
|---|---|---|
| Base.U32FromI32 | src/simple2d/shader.rs:170-173 | `as u32` of an `i32` is below 2^32, congruent to it modulo 2^32, and equal to it when non-negative |
| Base.I32FromUsize | src/simple2d/shader.rs:128-131 | `as i32` of a 32-bit `usize` is congruent modulo 2^32 and equal when it fits |
| Base.UsizeFromReal | src/lib.rs:109 | `as usize` of a float: 0 at or below 0, `usize::MAX` at or above it, otherwise the floor |
| Vecs.Vec.Append | src/engine.rs:89 | `Vec::append` moves every element of the other vector to the end, in order, and leaves the other one empty |
| Messaging.IntoSerde | src/lib.rs:199 | decoding succeeds exactly on a serialized payload, giving it back, or on `null` when the type has a null payload, giving that |
| Messaging.SerdeRoundTrip | src/lib.rs:221 | decoding what `from_serde` produced gives the payload back exactly when its JSON is not `null` or it is the type's null payload; a null-encoded payload comes back as the type's null payload or not at all |
| Messaging.MainStep | src/lib.rs:182-202 | main listener: a non-null tag never queues and never throws; a null tag with a serialized slot 1 queues exactly that payload last; a null tag with a null slot 1 queues the type's null payload, or throws when the type has none; a null tag with a string or transferable in slot 1 throws; the ready signal and the slot change only on "ready" while the sender is held, and then fire the signal; a second "ready" changes nothing; a throw leaves the state unchanged |
| Messaging.WorkerStep | src/lib.rs:535-554 | worker listener: the slot and signal change only on a transferable tag while the sender is held, and then deliver that transferable; a serialized slot 1 of a valid frame is queued last, independently of slot 0; a null slot 1 is skipped without throwing; both slots null changes nothing; it throws exactly when the tag is neither null nor transferable, or slot 1 is neither null nor serialized; a throw never adds to the queue, and a bad tag throws before changing anything |
| Messaging.ReadyRoundTrip | src/lib.rs:450-454 | `["ready", null]` at a fresh main listener fires the signal, queues nothing and does not throw |
| Messaging.TransferRoundTrip | src/lib.rs:263-265 | `[canvas, null]` at a worker holding its sender delivers that canvas, queues nothing and does not throw |
| Messaging.DataRoundTrip | src/lib.rs:221-225 | `[null, p]` with `p`'s JSON not `null` queues exactly `p` after the earlier payloads at either listener; with `p`'s JSON `null` the worker drops it silently, and the main listener queues the type's null payload or throws; slot and signal are untouched |
| Messaging.MainRunQueue | src/lib.rs:198-201 | over any frame sequence, the main queue gains exactly the accepted payloads, in arrival order |
| Messaging.MainRunSignal | src/lib.rs:190-197 | over any frame sequence, the ready signal is sent iff it had been or some frame was "ready", and the slot is empty iff it has been sent (at most once) |
| Messaging.WorkerRunQueue | src/lib.rs:550-553 | over any frame sequence, the worker queue gains exactly the accepted payloads, in arrival order |
| Messaging.WorkerRunSignal | src/lib.rs:543-548 | over any frame sequence, the worker delivers the first transferable to arrive and no other |
| Messaging.MainReceivesAll | src/lib.rs:198-199 | the payloads the worker sends reach the main queue unchanged exactly when each survives the JSON round trip |
| Messaging.WorkerReceivesAll | src/lib.rs:550-552 | the payloads the main thread sends reach the worker queue exactly when none serialises to JSON `null` |
| Messaging.OneShot.Send | src/lib.rs:194 | a one-shot carries exactly one value |
| Messaging.Channel.Send | src/lib.rs:200 | an unbounded send appends at the end |
| Messaging.MainSender.PostMessage | src/lib.rs:220-228 | posts exactly the frame `[null, val]` after earlier ones |
| Messaging.WorkerSender.PostMessage | src/lib.rs:413-421 | posts exactly the frame `[null, a]`, the same encoding as the main sender |
| Messaging.EventForwarder.Call | src/lib.rs:363-380 | runs the user's `FnMut` closure once on the event, keeps its new state, and posts `[null, val]` exactly when it yields `Some(val)`, and nothing otherwise |
| Messaging.MainListener.constructor | src/lib.rs:247-254 | a new main listener holds its sender and nothing has been signalled |
| Messaging.MainListener.Call | src/lib.rs:182-202 | the in-place listener takes the slot and sends, and ends in exactly the state and throw flag `MainStep` gives; the slot agrees with the signal |
| Messaging.WorkerListener.constructor | src/lib.rs:439-446 | a new worker listener holds its sender and nothing has been delivered |
| Messaging.WorkerListener.Call | src/lib.rs:535-554 | the in-place listener ends in exactly the state and throw flag `WorkerStep` gives |
| Handshake.InitInv | src/lib.rs:247-254 | the start state satisfies the invariant |
| Handshake.DeliverToMainInv | src/lib.rs:182-202 | the main listener handling the oldest frame keeps the invariant; it throws exactly on a null-encoded payload when the type has no null payload |
| Handshake.DeliverToWorkerInv | src/lib.rs:535-554 | whenever a frame reaches the worker its listener is already registered, so no frame is lost; handling it keeps the invariant and never throws |
| Handshake.MainPostCanvasInv | src/lib.rs:258-270 | posting the transferable once the ready signal resolved keeps the invariant |
| Handshake.WorkerPostReadyInv | src/lib.rs:448-454 | posting "ready" after the listener is registered keeps the invariant |
| Handshake.MainSendInv | src/lib.rs:220-228 | a data send from main after the handshake keeps the invariant |
| Handshake.WorkerSendInv | src/lib.rs:413-421 | a data send from the worker after the handshake keeps the invariant |
| Handshake.StepInv | src/lib.rs:237-279 | every enabled action keeps the invariant |
| Handshake.RunInv | src/lib.rs:237-279 | every state reached by any schedule satisfies the invariant |
| Handshake.RunKeepsCanvas | src/lib.rs:261-264 | the transferable in flight is the one `create_main` was given, and the payload encoding never changes |
| Handshake.HandshakeOrder | src/lib.rs:256-270 | in every reachable state: `create_main` returns only after its ready signal; the signal fires only after the worker posted "ready"; `create_worker` returns only after `create_main` did, with exactly the given transferable; each queue is a prefix of what the other side's payloads become through JSON, and a prefix of what it sent when every payload survives that round trip |
| Handshake.HandshakeCompletes | src/lib.rs:448-456 | one schedule, the source order, reaches both returns: both sides return, the worker holds the canvas, and both channels are empty |
| Handshake.HandshakeProgress | src/lib.rs:237-279 | in every state of the invariant where a side has not returned, some handshake step (not a data send) is enabled, and it lowers a count of pending work |
| Handshake.HandshakeCanComplete | src/lib.rs:237-279 | from every state of the invariant some schedule leads to both sides having returned |
| Handshake.HandshakeAlwaysCompletes | src/lib.rs:256-270 | every schedule from the start can be extended until both `create_main` and `create_worker` return, the worker with the canvas `create_main` was given |
| Pacing.Wait | src/lib.rs:105-111 | a wait happens iff `period - elapsed > 0`; it is the truncated difference, at most `usize::MAX` and exactly `usize::MAX` when the difference reaches it, at most the period, and below the period once any time has passed |
| Pacing.WaitReachesPeriod | src/lib.rs:106-113 | after the wait, the clock is within one millisecond of one period after the last frame, or already past it |
| Pacing.Timer.constructor | src/lib.rs:81-96 | a timer starts at the current time with the given period |
| Pacing.Timer.New | src/lib.rs:81-84 | `Timer::new` panics exactly when the rounded period is zero |
| Pacing.Timer.Next | src/lib.rs:98-114 | the wait follows `Wait` with the old `last`, and `last` becomes the time read before waiting |
| Engine.Engine.constructor | src/engine.rs:61-66 | a new engine starts with an empty buffer at the current time |
| Engine.Engine.New | src/engine.rs:36-67 | fails with `NoElem` iff no canvas has the id; otherwise the shared list and the buffer start empty |
| Engine.Engine.BeginNext | src/engine.rs:77-83 | the wait follows `Wait` from `last`; `delay` panics exactly when it exceeds `i32::MAX`; nothing changes |
| Engine.Engine.FinishNext | src/engine.rs:85-92 | after the delay: the buffer becomes exactly the pending events, in arrival order, the shared list is left empty (the assertion holds), and `last` is the time read before the wait |
| Engine.Engine.Next | src/engine.rs:69-93 | panics, nothing changed, iff the wait exceeds `i32::MAX`; otherwise returns `Some` of exactly the events pending when it was called followed by the clicks that arrived during its wait (none if it did not wait), leaves the shared list empty, and sets `last` to the time read before the wait |
| Engine.OnClick | src/engine.rs:47-49 | a click appends exactly one `MouseDown` at its client coordinates |
| Engine.Clicks | src/engine.rs:48 | the events of a click sequence are the `MouseDown`s at its coordinates, in order |
| Engine.PushClicks | src/engine.rs:47-49 | several clicks append their events, in order |
| Engine.DelayFits | src/engine.rs:100-103 | with a monotone clock and a period that fits in `i32`, `delay` never panics |
| Engine.OneFrame | src/engine.rs:69-93 | with the list empty before the frame's clicks, `next` returns exactly those clicks and, if it waited, the ones that came during the wait |
| Engine.FrameLoop | src/engine.rs:69-93 | over a frame loop with a monotone clock, `next` never panics; frame `k` waits as `Wait` says from the previous frame's timestamp, and returns exactly the clicks that arrived since the previous frame's buffer was filled, including those during its own wait, so every click is returned exactly once, in order |
| Geometry.RectFrom | src/simple2d/mod.rs:264-273 | `Rect::from` takes the corner from the range starts, and corner plus size gives the range ends |
| Geometry.RectVertices | src/simple2d/mod.rs:490-509 | six vertices; the first is the corner, the fifth the far corner, the second and fourth the right corner, the third and sixth the bottom corner |
| Geometry.RectTrianglesTile | src/simple2d/mod.rs:498-505 | both triangles have twice-signed-area `w*h` and share the diagonal |
| Geometry.RectFromCorners | src/dots.rs:201-209 | a rectangle from `axgeom` emits exactly its four corners |
| Geometry.LineVertices | src/simple2d/mod.rs:469-484 | a line emits six vertices |
| Geometry.LineQuad | src/simple2d/mod.rs:470-484 | the 2nd and 4th vertices are equal, and so are the 3rd and 5th; the start pair straddles `start`, the end pair straddles `end`, each `2*radius` apart along `k` |
| Geometry.NumPoints | src/simple2d/mod.rs:449 | `floor(dis/radius) as usize`: `n*radius <= dis < (n+1)*radius` for positive radius below saturation; 0 when `dis < radius` or the radius is negative; a zero radius gives `usize::MAX` (or 0 when `dis` is 0) |
| Geometry.DotLinePoints | src/simple2d/mod.rs:451-454 | the `i`-th dot is `start + norm*i*radius` |
| Geometry.DotSpacing | src/dots.rs:336-339 | consecutive dots are exactly `norm*radius` apart |
| Geometry.DotLineOnSegment | src/dots.rs:328-339 | with `norm` the segment's direction, every emitted dot lies on the segment strictly before `end` |
| Geometry.CameraMatrix | src/dots.rs:249-253 | the camera matrix has nine entries |
| Geometry.CameraMaps | src/dots.rs:249-253 | the camera takes `(x, y)` to clip `(2x/w - 1, 1 - 2y/h)` |
| Geometry.CameraCorners | src/dots.rs:249-253 | `(0,0)` goes to `(-1,1)`, `(w,h)` to `(1,-1)`, the centre to the origin |
| Geometry.CameraRoundTrip | src/dots.rs:249-253 | the camera is invertible |
| Drawing.StaticBufferNew | src/dots.rs:88-106 | `StaticBuffer::new` passes the creation error on, or records `num_verts` equal to the slice length |
| Drawing.DynamicBuffer.constructor | src/dots.rs:119-121 | a new dynamic buffer belongs to its context and holds no vertices |
| Drawing.DynamicBuffer.UpdateNoClear | src/simple2d/mod.rs:143-159 | records `num_verts` equal to the slice length (also `DynamicBuffer::update` of `src/dots.rs`) |
| Drawing.DynamicBuffer.UpdateClear | src/simple2d/mod.rs:139-142 | records the vector's length, then empties it |
| Drawing.PushDotLine | src/dots.rs:322-340 | pushes exactly `NumPoints(dis, radius)` dots after the existing vertices, the `i`-th at `start + norm*i*radius` |
| Simple2d.ShapeBuilder.constructor | src/simple2d/mod.rs:428-430 | the builder borrows the given vector |
| Simple2d.ShapeBuilder.Clear | src/simple2d/mod.rs:425-427 | empties the vector |
| Simple2d.ShapeBuilder.DotLine | src/simple2d/mod.rs:432-456 | appends exactly the dotted line's points, prefix unchanged |
| Simple2d.ShapeBuilder.Line | src/simple2d/mod.rs:458-488 | appends exactly the six line vertices, prefix unchanged |
| Simple2d.ShapeBuilder.AddRect | src/simple2d/mod.rs:490-509 | appends exactly the six rectangle vertices, prefix unchanged |
| Simple2d.BufferStaticClear | src/simple2d/mod.rs:223-231 | a buffer whose `num_verts` is the original length, and the vector emptied; on a creation error the vector is untouched |
| Simple2d.Draw | src/simple2d/mod.rs:303-349 | panics iff the buffer belongs to another context; otherwise one call on the square program iff `as_square`, with every other argument passed on |
| Simple2d.ViewRouting | src/simple2d/mod.rs:374-407 | `draw_squares` goes to the square program with POINTS, `draw_triangles` to the square program with TRIANGLES and point size 0, `draw_circles` to the circle program with POINTS, all with the view's `dim` and `offset` |
| Dots.PushRect | src/dots.rs:383-398 | pushes exactly the six rectangle vertices, prefix unchanged |
| Dots.PushLine | src/dots.rs:342-381 | pushes exactly the six line vertices, prefix unchanged |
| Dots.Draw | src/dots.rs:236-262 | panics iff the buffer belongs to another context; otherwise routes on `as_square`, passes the arguments on, and uses a matrix that takes `(0,0)` to `(-1,1)` and `game_dim` to `(1,-1)` |
| Dots.CameraRouting | src/dots.rs:279-312 | the three `Camera` draws route as in `simple2d`, with the camera matrix of the camera's `dim` |
| Points.LinePoints | src/points.rs:129-132 | the `i`-th vertex is `(start.x + i*normx*radius, start.y + i*normy*radius, 0)` |
| Points.Line | src/points.rs:117-135 | pushes exactly `NumPoints(dis, radius)` vertices after the existing ones |
| Points.LinePointsAreDots | src/points.rs:129-132 | every vertex has z = 0, and its x and y are the dotted line's point of the same index |
| Points.CreateDrawSystem | src/points.rs:92-97 | fails with "failed to create buffer", else with the circle program's error, else with the square program's error, else succeeds |
| Points.DrawCall | src/points.rs:98-113 | always `Ok(())`; square program iff `as_square`; arguments passed on; the matrix takes `(0,0)` to `(-1,1)` and `game_dim` to `(1,-1)` |
| Shader.NewProgram | src/simple2d/shader.rs:135-187 | the link error is passed on; then a missing uniform fails with "uniform err"; then a negative `mmatrix` with "attribute err"; otherwise the locations are kept, the other three cast unchecked, and `mmatrix + 3` fits in `u32` |
| Shader.UnknownAttributeWraps | src/simple2d/shader.rs:170-172 | an unknown attribute (location -1) is accepted as location `u32::MAX` |
| Shader.GrayscaleCode | src/simple2d/shader.rs:112-113 | the grayscale uniform is 1 iff `grayscale`, otherwise 0 |
| Shader.TextCode | src/simple2d/shader.rs:115-123 | the text uniform is 1 when `text`, 2 when neither text nor lighting, 0 for lighting without text |
| Shader.UniformRoundTrip | src/simple2d/shader.rs:29-56 | the fragment shader's branches on the two uniforms recover the flags: grayscale iff asked, glyph for text, lit or unlit as `lighting` says |
| Shader.MatrixSetup | src/simple2d/shader.rs:195-211 | `n` columns take `2n` calls |
| Shader.SetupAttribSpecial | src/simple2d/shader.rs:191-212 | issues exactly the pointer and divisor calls of the four columns, in order |
| Shader.MatrixLayout | src/simple2d/shader.rs:192-210 | column `i` sits at location `mmatrix + i`, offset `16*i`, stride 64, four floats, divisor 1; the column pointers' byte ranges (offset plus four 4-byte floats) are disjoint, start at 0 and end at the 64-byte stride, so float `16*j + 4*i + c` of the matrix slice is column `i` of instance `j` |
| Shader.MatrixEnables | src/simple2d/shader.rs:284-287 | the `i`-th enable is location `mmatrix + i` |
| Shader.CreateVao2 | src/simple2d/shader.rs:267-351 | issues exactly the enable and pointer calls of `VaoCalls`, and records `num_index = indices.len()` and `num_vertex = positions.len()` |
| Shader.VaoPointerLocs | src/simple2d/shader.rs:296-330 | the locations given a pointer are the three per-vertex ones and `mmatrix .. mmatrix+3` |
| Shader.VaoEnabledLocs | src/simple2d/shader.rs:281-287 | the locations enabled are the three per-vertex ones and `mmatrix .. mmatrix+3` |
| Shader.VaoEnablesWhatItConfigures | src/simple2d/shader.rs:281-330 | every location configured is enabled and vice versa, including all four matrix locations |
| Shader.Draw | src/simple2d/shader.rs:90-133 | issues exactly the `DrawCalls` sequence |
| Shader.DrawEffect | src/simple2d/shader.rs:112-132 | exactly one draw, the last call: instanced triangles over `num_index` indices, once per matrix (for counts that fit in `i32`); the uniforms decode to the flags; the requested primitive has no effect |

## Left out

- WebGL and DOM calls are left out: buffer binding and upload, texture binding, vertex array binding, shader compilation and linking, program deletion, and `src/circle_program.rs`. They are foreign calls, so only the counts they record and the attribute calls whose arguments matter are kept.
- GLSL float math (lighting, grayscale weights, the circle `discard`) runs on the GPU; only the shader's branching on its integer uniforms is modelled.
- serde's `into_serde`/`from_serde` is reduced to the `Serde` value. A non-null encoding is an opaque `Serialized` wrapper, which decodes only to itself. A string or transferable in a payload slot never decodes. Browser `postMessage` transfer, worker creation, and the internals of `oneshot`, `mpsc` and async awaiting are foreign or concurrent. Channels are sequences and the handshake interleaves its sides as a transition system.
- The receiving ends of the channels (`MainReceiver::recv`, `WorkerRecv::recv`) only hand out the receiver; the queues are modelled up to delivery.
- Real clocks, `TimeoutFuture` and `delay`'s timeout are left out. Time readings are inputs.
- The `f64` rounding of the frame period is left out; the rounded period is an input.
- `Engine.Engine.Next`: the `i32` conversion in `delay` is modelled, but a period of `usize::MAX` (from `fps = 0`) is only covered as an input, not derived.
- `sqrt`, `normalize_to`, `rotate_90deg_right` and `f32` rounding in the shape builders are floating point. The segment length, unit direction and unit normal are inputs, and arithmetic is over reals.
- `Geometry.NumPoints`: reals have no signed zero. In `f32`, `dis / -0.0` is `-inf`, which casts to 0 dots, but here a radius of `-0.0` is the same as `0.0` and gives `usize::MAX`.
- `Drawing.PushDotLine`, `Simple2d.ShapeBuilder.DotLine` and `Points.Line` do not model `Vec`'s capacity limit. On wasm32 a `Vec` holds at most `isize::MAX` bytes: about 2^28 eight-byte `[f32; 2]` vertices, fewer twelve-byte `[f32; 3]` ones. A dot count above that, as for a zero radius or a large `dis / radius`, makes `push` panic with "capacity overflow" or abort on allocation failure. The model instead appends all `NumPoints` vertices.
- `Dots.Draw` and `Points.DrawCall` require a non-zero `game_dim`. In floating point a zero dimension gives an infinite matrix entry, which reals cannot represent.
- `Simple2d.Draw` records the arguments of `projection(game_dim, offset)` rather than the matrix, because the product is computed by the foreign `webgl_matrix` library.
- The websocket code, `run_game`, and the unimplemented stubs of `src/engine.rs` (`MovePacker`, `GameState`, `MoveUnpacker`, `MyWebsocket`, `GameEngine::next_tick`) are network code or `unimplemented!()`.
- demo/src/lib.rs is not part of this model; it uses an API the modelled `src/lib.rs` does not define.
- `convert_coord` depends on DOM bounding rectangles and `f64`.
- The unsafe reinterpretation of vertex slices as bytes before upload is left out.
- `Buffer::new` is not part of this model. A new dynamic buffer is assumed to start with `num_verts = 0`; static buffers get their handle or error as an input.
- `ShaderSystem::new` (both copies) is not modelled, because it calls a `GlProgram::new(ctx, vs, fs)` that the modelled `src/simple2d/shader.rs` does not define. The other `ShaderSystem` members take a system value.
- `Mat4Buffer::new`, `update` and `bind` are left out as buffer uploads. So are the `unwrap` panics of `create_buffer` and `create_vertex_array` in `create_vao2`, and of `Mat4Buffer::new` in `GlProgram::new`.
- `Shader.SetupAttribSpecial` and `Shader.CreateVao2` require `mmatrix + 3` to fit in `u32`. Every program `Shader.NewProgram` builds satisfies this; the `u32` overflow for other programs is not modelled.
- The `dyn_into` panics are left out: the canvas element in `Engine::new`, the message event and array in the listeners, and the global scope.
- The context argument of `src/points.rs`'s draw closure is left out; it is not checked against anything.
- The `u16` element type of the indices and the `f32` element type of the matrices are left out; only their counts matter.
