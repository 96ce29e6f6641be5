/** The sequential bookkeeping of the desktop controller: the queue of
    serialized mutation batches that the engine thread fills and the window
    thread drains once the readiness flag is set, the registry of live
    webviews, and the quit-on-last-close policy. */
module Controller {

  datatype Option<T> = None | Some(value: T)

  /** Identifier of a native window; opaque to the controller. */
  datatype WindowId = WindowId(raw: nat)

  /** Handle of a live webview; opaque to the controller. */
  datatype WebView = WebView(handle: nat)

  /** What the host event loop should do next; `close_window` writes it. */
  datatype ControlFlow = Poll | Wait | WaitUntil(instant: nat) | Exit

  /** One script evaluation: the window whose webview ran it, and its text. */
  datatype Evaluation = Evaluation(window: WindowId, script: string)

  const ScriptPrefix: string := "window.interpreter.handleEdits("
  const ScriptSuffix: string := ")"

  /** The script that applies one serialized batch to a webview. */
  function HandleEdits(edit: string): string
  {
    ScriptPrefix + edit + ScriptSuffix
  }

  /** The batch a script applies, if it is a `handleEdits` call at all. */
  function EditOf(script: string): Option<string>
  {
    var p, q := |ScriptPrefix|, |ScriptSuffix|;
    if |script| >= p + q && script[..p] == ScriptPrefix && script[|script| - q..] == ScriptSuffix
    then Some(script[p..|script| - q])
    else None
  }

  /** The serialized batch is recovered from the script that carries it. */
  lemma EditOfHandleEdits(edit: string)
    ensures EditOf(HandleEdits(edit)) == Some(edit)
  {
  }

  /** Conversely, a script that carries a batch is exactly the `handleEdits`
      call of that batch. */
  lemma HandleEditsOfEdit(script: string, edit: string)
    requires EditOf(script) == Some(edit)
    ensures script == HandleEdits(edit)
  {
  }

  /** The evaluations one drain performs: every batch, in queue order, as a
      `handleEdits` script on the single webview of window `w`. */
  function Deliver(w: WindowId, edits: seq<string>): (log: seq<Evaluation>)
    ensures |log| == |edits|
    ensures forall i :: 0 <= i < |log| ==> log[i].window == w
    ensures forall i :: 0 <= i < |log| ==> EditOf(log[i].script) == Some(edits[i])
  {
    if edits == [] then []
    else
      EditOfHandleEdits(edits[0]);
      [Evaluation(w, HandleEdits(edits[0]))] + Deliver(w, edits[1..])
  }

  /** The batches a log of evaluations has applied, in the order they ran. */
  function EditsOf(log: seq<Evaluation>): seq<string>
  {
    if log == [] then []
    else match EditOf(log[0].script)
      case Some(e) => [e] + EditsOf(log[1..])
      case None => EditsOf(log[1..])
  }

  /** Batches applied by two consecutive stretches of evaluations are those of
      the first followed by those of the second. */
  lemma {:induction false} EditsOfAppend(a: seq<Evaluation>, b: seq<Evaluation>)
    ensures EditsOf(a + b) == EditsOf(a) + EditsOf(b)
  {
    if a == [] {
      assert a + b == b;
    } else {
      assert (a + b)[1..] == a[1..] + b;
      EditsOfAppend(a[1..], b);
    }
  }

  /** A drain applies exactly the drained batches, in their order: nothing is
      reordered, duplicated or omitted. */
  lemma {:induction false} EditsOfDeliver(w: WindowId, edits: seq<string>)
    ensures EditsOf(Deliver(w, edits)) == edits
  {
    if edits != [] {
      var log := Deliver(w, edits);
      assert log[1..] == Deliver(w, edits[1..]);
      EditsOfDeliver(w, edits[1..]);
    }
  }

  /** Delivering a queue in two parts is delivering it whole. */
  lemma {:induction false} DeliverAppend(w: WindowId, a: seq<string>, b: seq<string>)
    ensures Deliver(w, a + b) == Deliver(w, a) + Deliver(w, b)
  {
    if a == [] {
      assert a + b == b;
    } else {
      assert (a + b)[1..] == a[1..] + b;
      DeliverAppend(w, a[1..], b);
    }
  }

  class DesktopController {
    var webviews: map<WindowId, WebView>
    var pendingEdits: seq<string>
    var quitAppOnClose: bool
    var isReady: bool
    /** Every script evaluated on a webview so far, in order. */
    var evaluated: seq<Evaluation>
    /** Every batch the engine has pushed so far, in order. */
    ghost var produced: seq<string>

    /** Every produced batch has either been applied or is still queued, and
        the applied ones precede the queued ones in production order. */
    ghost predicate Valid()
      reads this
    {
      EditsOf(evaluated) + pendingEdits == produced
    }

    /** The controller as it stands once the engine has pushed the batch of
        its initial rebuild. */
    constructor NewOnTokio(rebuild: string)
      ensures Valid()
      ensures webviews == map[] && !isReady && quitAppOnClose
      ensures pendingEdits == [rebuild] && produced == [rebuild] && evaluated == []
    {
      webviews := map[];
      pendingEdits := [rebuild];
      quitAppOnClose := true;
      isReady := false;
      evaluated := [];
      produced := [rebuild];
    }

    /** The engine appends one serialized batch at the tail of the queue. */
    method Push(batch: string)
      requires Valid()
      modifies this`pendingEdits, this`produced
      ensures Valid()
      ensures pendingEdits == old(pendingEdits) + [batch]
      ensures produced == old(produced) + [batch]
    {
      pendingEdits := pendingEdits + [batch];
      produced := produced + [batch];
    }

    /** Iterations of the engine loop, each rendering and pushing one batch,
        with no drain in between. */
    method RenderLoop(batches: seq<string>)
      requires Valid()
      modifies this`pendingEdits, this`produced
      ensures Valid()
      ensures pendingEdits == old(pendingEdits) + batches
      ensures produced == old(produced) + batches
    {
      for i := 0 to |batches|
        invariant Valid()
        invariant pendingEdits == old(pendingEdits) + batches[..i]
        invariant produced == old(produced) + batches[..i]
      {
        assert batches[..i + 1] == batches[..i] + [batches[i]];
        Push(batches[i]);
      }
      assert batches[..|batches|] == batches;
    }

    /** The first webview has become able to run scripts. */
    method SetReady()
      requires Valid()
      modifies this`isReady
      ensures Valid()
      ensures isReady
    {
      isReady := true;
    }

    /** The host registers a newly created webview. */
    method InsertWebview(id: WindowId, view: WebView)
      requires Valid()
      modifies this`webviews
      ensures Valid()
      ensures webviews == old(webviews)[id := view]
    {
      webviews := webviews[id := view];
    }

    /** Forget one window; exit the application when it was the last one and
        the quit-on-close policy is on, otherwise leave the flow as it was. */
    method CloseWindow(windowId: WindowId, controlFlow: ControlFlow) returns (flow: ControlFlow)
      requires Valid()
      modifies this`webviews
      ensures Valid()
      ensures webviews == old(webviews) - {windowId}
      ensures forall id :: id in old(webviews) && id != windowId ==> id in webviews && webviews[id] == old(webviews)[id]
      ensures flow == Exit <==> (webviews == map[] && quitAppOnClose) || controlFlow == Exit
      ensures !(webviews == map[] && quitAppOnClose) ==> flow == controlFlow
    {
      webviews := webviews - {windowId};
      flow := controlFlow;
      if webviews == map[] && quitAppOnClose {
        flow := Exit;
      }
    }

    /** When ready, swap the whole queue out for an empty one and evaluate
        each drained batch, in order, on one webview; `panicked` is the
        failed unwrap when there is no webview, by which time the queue has
        already been emptied and its batches are lost. */
    method TryLoadReadyWebviews() returns (panicked: bool)
      requires Valid()
      modifies this`pendingEdits, this`evaluated
      ensures panicked <==> isReady && webviews == map[]
      ensures !isReady ==> pendingEdits == old(pendingEdits) && evaluated == old(evaluated)
      ensures isReady ==> pendingEdits == []
      ensures isReady && !panicked ==>
        exists w :: w in webviews && evaluated == old(evaluated) + Deliver(w, old(pendingEdits))
      ensures panicked ==> evaluated == old(evaluated) && EditsOf(evaluated) + old(pendingEdits) == produced
      ensures !panicked ==> Valid()
    {
      panicked := false;
      if isReady {
        var newQueue: seq<string> := [];
        newQueue, pendingEdits := pendingEdits, newQueue;

        if webviews == map[] {
          panicked := true;
          return;
        }
        var id :| id in webviews;

        var i := 0;
        while i < |newQueue|
          invariant 0 <= i <= |newQueue|
          invariant pendingEdits == []
          invariant evaluated == old(evaluated) + Deliver(id, newQueue[..i])
        {
          assert newQueue[..i + 1] == newQueue[..i] + [newQueue[i]];
          DeliverAppend(id, newQueue[..i], [newQueue[i]]);
          evaluated := evaluated + [Evaluation(id, HandleEdits(newQueue[i]))];
          i := i + 1;
        }
        assert newQueue[..i] == newQueue;
        EditsOfAppend(old(evaluated), Deliver(id, newQueue));
        EditsOfDeliver(id, newQueue);
      }
    }
  }

  /** Batches pushed before the readiness flag is set stay queued; the first
      ready drain applies all of them in production order and empties the
      queue; a second drain right after it applies nothing. */
  method GatedDrainScenario(rebuild: string, batch: string, w: WindowId, view: WebView)
    returns (gated: seq<Evaluation>, queued: seq<string>, first: seq<Evaluation>, second: seq<Evaluation>, left: seq<string>)
    ensures gated == [] && queued == [rebuild, batch]
    ensures first == Deliver(w, [rebuild, batch]) && EditsOf(first) == [rebuild, batch]
    ensures second == [] && left == []
  {
    var c := new DesktopController.NewOnTokio(rebuild);
    c.InsertWebview(w, view);
    c.Push(batch);
    var p := c.TryLoadReadyWebviews();
    gated, queued := c.evaluated, c.pendingEdits;

    c.SetReady();
    assert w in c.webviews;
    p := c.TryLoadReadyWebviews();
    first := c.evaluated;
    EditsOfDeliver(w, [rebuild, batch]);

    p := c.TryLoadReadyWebviews();
    second, left := c.evaluated[|first|..], c.pendingEdits;
  }

  /** With the policy on, closing one of two windows keeps the application
      running and closing the last one exits it; with the policy off, closing
      the last window leaves the flow alone. */
  method CloseToQuitScenario(a: WindowId, b: WindowId, view: WebView, flow: ControlFlow)
    returns (afterFirst: ControlFlow, afterLast: ControlFlow, withoutPolicy: ControlFlow)
    requires a != b
    ensures afterFirst == flow
    ensures afterLast == Exit
    ensures withoutPolicy == flow
  {
    var c := new DesktopController.NewOnTokio("[]");
    c.InsertWebview(a, view);
    c.InsertWebview(b, view);
    afterFirst := c.CloseWindow(a, flow);
    assert b in c.webviews;
    afterLast := c.CloseWindow(b, afterFirst);

    var d := new DesktopController.NewOnTokio("[]");
    d.quitAppOnClose := false;
    d.InsertWebview(a, view);
    withoutPolicy := d.CloseWindow(a, flow);
  }
}
