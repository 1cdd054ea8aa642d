/**
 Why a request to quit automatically needs room in the queue: with EVENT_FAILED lost to a full queue,
 QEMU can be gone and the request served without the daemon ever being told to quit.
 */
module AutoquitLoss {
  import opened ColodTypes
  import opened EventQueueSpec
  import opened MainNode
  import Runs

  /** A waiting primary whose queue holds a request to quit and, behind it, only what errors have queued. */
  predicate Filling(n: Node) {
    && n.state == StatePrimaryWait && n.park == PopEvent
    && n.queue.interrupting == AlwaysInterrupting
    && 0 < |n.queue.pending| <= n.queue.size
    && n.queue.pending[0] == EventAutoquit
    && (forall i :: 1 <= i < |n.queue.pending| ==> n.queue.pending[i] in {EventYellow, EventFailoverSync})
    && !n.status.loopQuit
  }

  /** Errors come until the queue is full. */
  lemma {:induction false} FillUp(n: Node) returns (moves: seq<Move>, r: Node)
    requires Filling(n)
    ensures Runs.Reaches(Next, n, moves, r)
    ensures Filling(r) && |r.queue.pending| == r.queue.size
    decreases n.queue.size - |n.queue.pending|
  {
    if |n.queue.pending| == n.queue.size {
      moves, r := [], n;
    } else {
      var c := if Last(n.queue) != EventYellow then DiskError(None) else ReplicationError;
      var m := Call(n, c);
      assert m.queue.pending == n.queue.pending + [Queued(c).value];
      moves, r := FillUp(m);
      Runs.One(Next, n, Event(c));
      Runs.Concat(Next, n, [Event(c)], m, moves, r);
      moves := [Event(c)] + moves;
    }
  }

  /** QEMU goes, its event is lost, and the request to quit is served in vain. */
  lemma QuitInVain(n: Node) returns (r: Node)
    requires Filling(n) && |n.queue.pending| == n.queue.size
    ensures Runs.Reaches(Next, n, [Event(QemuHup)] + [Resume(Serve)], r)
    ensures r.status.qemuQuit && r.past.autoquitTaken && !r.status.loopQuit
    ensures EventFailed !in r.queue.pending && EventAutoquit !in r.queue.pending
    ensures EventFailed in r.past.rejected
  {
    var m := Call(n, QemuHup);
    assert Last(n.queue) in n.queue.pending;
    assert m.queue == n.queue;
    assert FirstIn(m.queue.pending, m.queue.interrupting) == 0;
    r := Step(m, Serve);
    Runs.One(Next, n, Event(QemuHup));
    Runs.Extend(Next, n, [Event(QemuHup)], m, Resume(Serve));
  }

  /** For every size of the queue there is such a run. */
  lemma RejectionLosesAutoquit(size: nat) returns (moves: seq<Move>, n: Node)
    requires size > 0
    ensures Runs.Reaches(Next, Start(size, true), moves, n)
    ensures n.status.qemuQuit && n.past.autoquitTaken && !n.status.loopQuit
    ensures EventFailed !in n.queue.pending && EventAutoquit !in n.queue.pending
    ensures EventFailed in n.past.rejected
  {
    var s := Start(size, true);
    var asked := Call(s, ClientAutoquit);
    assert asked.queue.pending == [EventAutoquit];
    Runs.One(Next, s, Event(ClientAutoquit));
    var filling, full := FillUp(asked);
    Runs.Concat(Next, s, [Event(ClientAutoquit)], asked, filling, full);
    n := QuitInVain(full);
    moves := [Event(ClientAutoquit)] + filling;
    Runs.Concat(Next, s, moves, full, [Event(QemuHup)] + [Resume(Serve)], n);
    moves := moves + ([Event(QemuHup)] + [Resume(Serve)]);
  }
}
