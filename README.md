# Desktop controller: edit queue, readiness gate and window registry

This project models the sequential bookkeeping of the desktop renderer's
`DesktopController` (`packages/desktop/src/controller.rs`). The engine thread
serializes each mutation batch it renders and appends it to a shared queue of
pending edits. The window thread drains that queue only once the readiness flag
is set. It swaps the whole queue out in one step and evaluates each drained
batch, in order, as the script `window.interpreter.handleEdits(<batch>)` on one
webview. Closing a window removes it from the webview registry. The host event
loop is told to exit when the registry becomes empty and the quit-on-close
policy is on.

Everything lives in `controller.dfy`, module `Controller`:

- `DesktopController` is a class with the source's fields:
  - `webviews`, a map from window id to webview;
  - `pendingEdits`, the queue;
  - `quitAppOnClose`;
  - `isReady`.
- The class also holds `evaluated`, a log of every script evaluation. It stands
  in for the effect of `evaluate_script`.
- A ghost field `produced` records every batch ever pushed. The object
  invariant `Valid()` says that the batches applied so far, followed by the
  batches still queued, are exactly the produced batches in production order.
  Every operation that does not panic preserves it. This is the
  whole-lifetime FIFO guarantee: no batch is reordered, duplicated or lost.
- `HandleEdits` builds the script that carries one batch. `EditOf` is its
  inverse. `Deliver` is the specification of one drain. `EditsOf` recovers the
  applied batches from a log of evaluations.
- `close_window` writes through a `&mut ControlFlow` out-parameter. The model
  takes that flow in and returns the new one.
- The unwrap at line 146 panics when the registry is empty. The model returns
  this as `panicked`. The queue has already been swapped out by then, so the
  drained batches are lost and `Valid()` is not re-established. The process
  would have crashed.
- Two client methods play through the source's intended behaviour with
  concrete calls:
  - `GatedDrainScenario`: batches stay queued while not ready; the ready drain
    applies them in order; a second drain applies nothing.
  - `CloseToQuitScenario`: closing one of two windows keeps the app running;
    closing the last one exits; with the policy off, closing the last window
    leaves the flow alone.

The engine pushes its rebuild batch on its own thread at lines 67-70, racing
with the return of the controller. The constructor `NewOnTokio` fixes the
schedule in which that push happens first. Its queue therefore starts out
holding the rebuild batch.

When the flag is set and there is no webview, a drain panics even on an empty
queue: the `unwrap` at line 146 runs after the swap at line 143, whatever the
queue holds. The model returns this as `panicked`.

## Model

| member | source | states |
|---|---|---|
| `Controller.EditOfHandleEdits` | packages/desktop/src/controller.rs:149 | the batch carried by a `handleEdits` script is recovered from it exactly |
| `Controller.HandleEditsOfEdit` | packages/desktop/src/controller.rs:149 | a script that carries a batch is exactly the `handleEdits` call of that batch (the other direction of the round trip) |
| `Controller.Deliver` | packages/desktop/src/controller.rs:146-151 | one drain makes one evaluation per drained batch, all on the same window, the i-th carrying the i-th batch |
| `Controller.EditsOfDeliver` | packages/desktop/src/controller.rs:148-151 | the batches a drain applies are exactly the drained queue in its original order, with no reordering, duplication or omission |
| `Controller.EditsOfAppend` | packages/desktop/src/controller.rs:148-151 | the batches applied by successive evaluations are those of the earlier ones followed by those of the later ones |
| `Controller.DeliverAppend` | packages/desktop/src/controller.rs:148-151 | delivering a queue batch by batch is delivering it whole, in order |
| `Controller.DesktopController.NewOnTokio` | packages/desktop/src/controller.rs:114-126 | the initial state: no webviews, not ready, quit-on-close on, the rebuild batch alone in the queue, nothing evaluated |
| `Controller.DesktopController.Push` | packages/desktop/src/controller.rs:105-108 | a push appends exactly one batch at the tail and leaves the earlier queued batches unchanged; the FIFO invariant is kept |
| `Controller.DesktopController.RenderLoop` | packages/desktop/src/controller.rs:73-110 | successive loop iterations leave their batches queued in production order |
| `Controller.DesktopController.SetReady` | packages/desktop/src/controller.rs:26 | the readiness flag, written outside this file, becomes true; the FIFO invariant is kept |
| `Controller.DesktopController.InsertWebview` | packages/desktop/src/controller.rs:22 | the host registers a webview under its window id; the FIFO invariant is kept |
| `Controller.DesktopController.CloseWindow` | packages/desktop/src/controller.rs:129-135 | exactly the given id is removed and every other window is untouched; the flow becomes `Exit` when the registry is then empty and quit-on-close is on, and is left as it was otherwise; the FIFO invariant is kept |
| `Controller.DesktopController.TryLoadReadyWebviews` | packages/desktop/src/controller.rs:137-153 | when not ready, nothing changes. When ready, the whole queue is taken and left empty, and the drained batches are evaluated in order on one registered window. The drain panics exactly when ready with no webview, even on an empty queue, and then the drained batches are lost. The FIFO invariant is kept |
| `Controller.GatedDrainScenario` | packages/desktop/src/controller.rs:137-153 | batches pushed before readiness stay queued; the first ready drain applies all of them in order; a second drain applies nothing and leaves the queue empty |
| `Controller.CloseToQuitScenario` | packages/desktop/src/controller.rs:129-135 | with the policy on, closing one of two windows keeps the flow and closing the last exits; with the policy off, the flow is kept |

## Left out

- Thread spawning, the tokio runtime and the three-way `select!` race (lines 54-63, 73-99). They are concurrency and scheduling. The model is sequential and takes a drain as one step. In the source the mutex makes only the swap at line 143 atomic with respect to a push; the rest of the drain (lines 146-151) touches only the local `new_queue` and the webviews, so a push during it lands in the emptied queue, as a push after the drain does in the model.
- The 16 ms deadline of `render_with_deadline` (lines 101-103). It is wall-clock timing around an opaque engine. Each rendered batch is a parameter of `Push` / `RenderLoop`.
- The scene-graph engine (`rebuild`, `replace_template`, `wait_for_work`, `handle_event`). These are foreign calls. Batches are opaque strings.
- JSON serialization of batches and decoding of inbound events (lines 69, 89, 108). These are library calls. A failed event decode dispatches nothing and does not touch the queue; the iteration still renders and pushes one batch (`Push` / `RenderLoop`).
- `Mutex`, `Arc` and the relaxed `AtomicBool`. They are plain fields here because the model is sequential.
- `evaluate_script` itself and its `unwrap` (line 150). An evaluation is only an entry appended to the `evaluated` log, and the platform call is taken to succeed.
- The `EditsReady` proxy notifications, `eval_sender`, the event and template channels, and the iOS `views` field. These are I/O and platform plumbing.
- The development-only template hot reload. It is a build-time variant of the race with no sequential behaviour of its own.
- NewOnTokio: starts with the rebuild batch already queued, so the model cannot reach the source's state in which the controller exists, the queue is empty and the engine thread has not yet pushed its rebuild batch (lines 67-70).
- RenderLoop: covers any finite number of iterations of the source's endless loop, with no drain interleaved.
- TryLoadReadyWebviews: promises only "some registered window", not which one. `HashMap` iteration order is unspecified.
