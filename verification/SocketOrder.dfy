/** The order of the messages pushed to one websocket connection.

    The consumer starts the next handling only after the push call of the last one returned, and
    that call returns only after every fan-out task was drained. The order rests on those two facts.
    They fail for a handling that is left while an instance may still write for it: its push call
    fails at the consumer, a dispatch task dies, or an instance's call fails at the pusher while the
    instance works on. Such handlings are called abandoned; a frame can be out of order only if it
    belongs to one of them. */
module SocketOrder {
  import opened Messages
  import opened Pipeline
  import Fanout
  import Consumer
  import Guarantees

  ghost predicate PushOver(b: Consumer.State, h: nat) {
    h in b.pushes && b.pushes[h].Quiet()
  }

  /** The consumer stops waiting for its handling while an instance may still write for it. */
  ghost predicate Abandons(log: seq<Msg>, b: Consumer.State, step: Consumer.Step) {
    && (step.PushReturns? || step.PushFails? || step.JoinFails?)
    && Consumer.Enabled(log, b, step) && !PushOver(b, b.phase.h)
  }

  /** The handlings abandoned in a run. */
  ghost function Abandoned(nodes: nat, steps: seq<Step>): set<nat> {
    if steps == [] then {}
    else
      var init, last := steps[..|steps| - 1], steps[|steps| - 1];
      Abandoned(nodes, init) + NewlyAbandoned(Run(nodes, init), last)
  }

  ghost function NewlyAbandoned(s: State, step: Step): set<nat> {
    if step.Consume? && Abandons(Topic(s), s.back, step.consume) then {s.back.phase.h} else {}
  }

  /** The handling whose push the consumer still waits for. */
  ghost predicate Awaited(b: Consumer.State, h: nat) {
    b.phase.Down? || (b.phase.Dispatched? && b.phase.h == h && !b.phase.pushEnded)
  }

  ghost predicate Settled(b: Consumer.State, ab: set<nat>, h: nat) {
    PushOver(b, h) || h in ab
  }

  /** Before a life goes on to the next handling, the push of the last one is over or abandoned. */
  ghost predicate TurnsInv(b: Consumer.State, ab: set<nat>) {
    && (forall h, g :: 0 <= h < g < |b.numbered| && b.numbered[h].life == b.numbered[g].life ==> Settled(b, ab, h))
    && (forall h :: 0 <= h < |b.numbered| && b.numbered[h].life == b.life && !Awaited(b, h) ==> Settled(b, ab, h))
  }

  lemma {:induction false} KeepsOver(log: seq<Msg>, b: Consumer.State, step: Consumer.Step, h: nat)
    requires Consumer.PushesInv(b) && PushOver(b, h)
    ensures PushOver(Consumer.Next(log, b, step), h)
  {
    Consumer.NextRemembers(log, b, step);
  }

  /** A handling of the current life stops being awaited when its push is over, or is abandoned. */
  lemma {:induction false} StopsWaiting(log: seq<Msg>, b: Consumer.State, step: Consumer.Step, h: nat)
    requires Consumer.PhaseInv(b) && Consumer.PushesInv(b)
    requires h < |b.numbered| && Awaited(b, h) && b.numbered[h].life <= b.life
    requires var c := Consumer.Next(log, b, step); b.numbered[h].life == c.life && !Awaited(c, h)
    ensures PushOver(Consumer.Next(log, b, step), h) || (Abandons(log, b, step) && b.phase.h == h)
  {
  }

  lemma {:induction false} StaysSettled(log: seq<Msg>, b: Consumer.State, step: Consumer.Step, ab: set<nat>,
                                        more: set<nat>, h: nat)
    requires Consumer.PushesInv(b) && Settled(b, ab, h) && ab <= more
    ensures Settled(Consumer.Next(log, b, step), more, h)
  {
    if PushOver(b, h) {
      KeepsOver(log, b, step, h);
    }
  }

  lemma {:induction false} KeepsTurns(s: State, step: Consumer.Step, ab: set<nat>)
    requires Inv(s) && TurnsInv(s.back, ab)
    ensures TurnsInv(Consumer.Next(Topic(s), s.back, step), ab + NewlyAbandoned(s, Consume(step)))
  {
    var b, c := s.back, Consumer.Next(Topic(s), s.back, step);
    var more := ab + NewlyAbandoned(s, Consume(step));
    CurrentLife(Topic(s), b, step);
    forall h | 0 <= h < |c.numbered| && c.numbered[h].life == c.life && !Awaited(c, h)
      ensures Settled(c, more, h)
    {
      NoLongerAwaited(s, step, ab, h);
    }
    forall h, g | 0 <= h < g < |c.numbered| && c.numbered[h].life == c.numbered[g].life
      ensures Settled(c, more, h)
    {
      SettledBefore(b, c, ab, h, g);
      StaysSettled(Topic(s), b, step, ab, more, h);
    }
  }

  /** Whatever came before a handling of its life was settled by then. */
  lemma {:induction false} SettledBefore(b: Consumer.State, c: Consumer.State, ab: set<nat>, h: nat, g: nat)
    requires TurnsInv(b, ab) && Extended(b, c)
    requires h < g < |c.numbered| && c.numbered[h].life == c.numbered[g].life
    ensures Settled(b, ab, h)
  {
  }

  lemma {:induction false} NoLongerAwaited(s: State, step: Consumer.Step, ab: set<nat>, h: nat)
    requires Inv(s) && TurnsInv(s.back, ab) && h < |s.back.numbered|
    requires var c := Consumer.Next(Topic(s), s.back, step); s.back.numbered[h].life == c.life && !Awaited(c, h)
    ensures Settled(Consumer.Next(Topic(s), s.back, step), ab + NewlyAbandoned(s, Consume(step)), h)
  {
    assert Consumer.NumberOk(Topic(s), s.back, s.back.numbered[h]);
    CurrentLife(Topic(s), s.back, step);
    if Awaited(s.back, h) {
      StopsWaiting(Topic(s), s.back, step, h);
    } else {
      StaysSettled(Topic(s), s.back, step, ab, ab + NewlyAbandoned(s, Consume(step)), h);
    }
  }

  ghost predicate Extended(b: Consumer.State, c: Consumer.State) {
    && b.numbered <= c.numbered
    && (c.numbered == b.numbered ||
        (|c.numbered| == |b.numbered| + 1 && c.numbered[|b.numbered|].life == b.life == c.life &&
         Awaited(c, |b.numbered|) && b.phase.Received?))
  }

  /** A new handling is awaited, and no earlier one of its life was when it was made. */
  lemma {:induction false} CurrentLife(log: seq<Msg>, b: Consumer.State, step: Consumer.Step)
    ensures var c := Consumer.Next(log, b, step); c.life >= b.life && Extended(b, c)
  {
    if !step.Number? {
      NumbersNothing(log, b, step);
    }
  }

  lemma {:induction false} NumbersNothing(log: seq<Msg>, b: Consumer.State, step: Consumer.Step)
    requires !step.Number?
    ensures var c := Consumer.Next(log, b, step); c.life >= b.life && c.numbered == b.numbered
  {
  }

  /** Within a life, the handlings a connection was written appear in handling order, abandoned ones
      apart. */
  ghost predicate FramesInv(b: Consumer.State, ab: set<nat>) {
    forall conn, i, j :: conn in b.frames && 0 <= i < j < |b.frames[conn]| ==>
                           InTurn(b, ab, b.frames[conn][i], b.frames[conn][j])
  }

  ghost predicate InTurn(b: Consumer.State, ab: set<nat>, h: nat, g: nat) {
    h < |b.numbered| && g < |b.numbered| && (b.numbered[h].life == b.numbered[g].life ==> h < g || g in ab)
  }

  lemma {:induction false} KeepsFrames(s: State, step: Consumer.Step, ab: set<nat>, more: set<nat>)
    requires Inv(s) && TurnsInv(s.back, ab) && FramesInv(s.back, ab) && ab <= more
    ensures FramesInv(Consumer.Next(Topic(s), s.back, step), more)
  {
    var b, c := s.back, Consumer.Next(Topic(s), s.back, step);
    Consumer.NextPushes(Topic(s), b, step);
    Consumer.NextFrames(Topic(s), b, step);
    FramesStay(b, c, ab, more);
    if Consumer.Writes(Topic(s), b, step) {
      WriterIsLatest(b, ab, step.h, step.step.conn);
      AppendFrame(b, c, ab, more, step.step.conn, step.h);
    }
  }

  lemma {:induction false} FramesStay(b: Consumer.State, c: Consumer.State, ab: set<nat>, more: set<nat>)
    requires FramesInv(b, ab) && b.numbered <= c.numbered && ab <= more
    ensures FramesInv(c.(frames := b.frames), more)
  {
    forall conn, i, j | conn in b.frames && 0 <= i < j < |b.frames[conn]|
      ensures InTurn(c, more, b.frames[conn][i], b.frames[conn][j])
    {
      assert InTurn(b, ab, b.frames[conn][i], b.frames[conn][j]);
    }
  }

  lemma {:induction false} AppendFrame(b: Consumer.State, c: Consumer.State, ab: set<nat>, more: set<nat>,
                                       conn: Fanout.Conn, h: nat)
    requires FramesInv(c.(frames := b.frames), more) && b.numbered <= c.numbered && ab <= more
    requires c.frames == b.frames[conn := Consumer.FramesOf(b, conn) + [h]]
    requires forall k :: 0 <= k < |Consumer.FramesOf(b, conn)| ==> InTurn(b, ab, Consumer.FramesOf(b, conn)[k], h)
    ensures FramesInv(c, more)
  {
    forall d, i, j | d in c.frames && 0 <= i < j < |c.frames[d]|
      ensures InTurn(c, more, c.frames[d][i], c.frames[d][j])
    {
      if d in b.frames && j < |b.frames[d]| {
        assert InTurn(c.(frames := b.frames), more, b.frames[d][i], b.frames[d][j]);
      } else {
        assert InTurn(b, ab, Consumer.FramesOf(b, conn)[i], h);
      }
    }
  }

  /** Whoever writes now comes after everything of its life the connection has been written, unless it
      was abandoned. */
  lemma {:induction false} WriterIsLatest(b: Consumer.State, ab: set<nat>, h: nat, conn: Fanout.Conn)
    requires Consumer.PushesInv(b) && WrittenInv(b) && TurnsInv(b, ab) && h in b.pushes && b.pushes[h].Owes(conn)
    ensures forall k :: 0 <= k < |Consumer.FramesOf(b, conn)| ==> InTurn(b, ab, Consumer.FramesOf(b, conn)[k], h)
  {
    forall k | 0 <= k < |Consumer.FramesOf(b, conn)|
      ensures InTurn(b, ab, Consumer.FramesOf(b, conn)[k], h)
    {
      var g := b.frames[conn][k];
      assert Reached(b, conn, g) && g != h && !PushOver(b, h);
      if b.numbered[g].life == b.numbered[h].life && h < g {
        assert Settled(b, ab, h);
      }
    }
  }

  lemma {:induction false} RunFrames(nodes: nat, steps: seq<Step>)
    ensures TurnsInv(Run(nodes, steps).back, Abandoned(nodes, steps))
    ensures FramesInv(Run(nodes, steps).back, Abandoned(nodes, steps))
  {
    if steps != [] {
      var init, last := steps[..|steps| - 1], steps[|steps| - 1];
      var s := Run(nodes, init);
      RunFrames(nodes, init);
      RunInv(nodes, init);
      if last.Consume? && Allowed(s, last) {
        KeepsTurns(s, last.consume, Abandoned(nodes, init));
        KeepsFrames(s, last.consume, Abandoned(nodes, init), Abandoned(nodes, steps));
      } else {
        Idles(s, last, Abandoned(nodes, init), Abandoned(nodes, steps));
      }
    }
  }

  lemma {:induction false} Idles(s: State, step: Step, ab: set<nat>, more: set<nat>)
    requires TurnsInv(s.back, ab) && FramesInv(s.back, ab) && ab <= more
    requires !(step.Consume? && Allowed(s, step))
    ensures TurnsInv(Next(s, step).back, more) && FramesInv(Next(s, step).back, more)
  {
    var c := Next(s, step).back;
    assert c == s.back;
    forall conn, i, j | conn in c.frames && 0 <= i < j < |c.frames[conn]|
      ensures InTurn(c, more, c.frames[conn][i], c.frames[conn][j])
    {
      assert InTurn(s.back, ab, c.frames[conn][i], c.frames[conn][j]);
    }
    forall h | 0 <= h < |c.numbered| && Settled(c, ab, h)
      ensures Settled(c, more, h)
    {
    }
  }

  ghost predicate OneLife(b: Consumer.State, conn: Fanout.Conn, i: nat, j: nat) {
    var hs := Consumer.FramesOf(b, conn);
    && i < |hs| && j < |hs| && hs[i] < |b.numbered| && hs[j] < |b.numbered|
    && b.numbered[hs[i]].life == b.numbered[hs[j]].life
  }

  function NumberAt(b: Consumer.State, conn: Fanout.Conn, i: nat): int
    requires i < |Consumer.FramesOf(b, conn)| && Consumer.FramesOf(b, conn)[i] < |b.numbered|
  {
    b.numbered[Consumer.FramesOf(b, conn)[i]].number
  }

  /** In every run, the frames pushed to one connection in one life of the consumer carry strictly
      increasing numbers; only a frame of an abandoned handling can come after one with a larger
      number. */
  lemma {:induction false} PushedNumbersIncrease(nodes: nat, steps: seq<Step>, conn: Fanout.Conn, i: nat, j: nat)
    requires i < j && OneLife(Run(nodes, steps).back, conn, i, j)
    ensures var b := Run(nodes, steps).back;
            NumberAt(b, conn, i) < NumberAt(b, conn, j) || Consumer.FramesOf(b, conn)[j] in Abandoned(nodes, steps)
  {
    RunInv(nodes, steps);
    RunFrames(nodes, steps);
    var s := Run(nodes, steps);
    var h, g := s.back.frames[conn][i], s.back.frames[conn][j];
    assert Reached(s.back, conn, h) && Reached(s.back, conn, g);
    assert Found(s, h, conn.node, conn) && Found(s, g, conn.node, conn);
    assert InTurn(s.back, Abandoned(nodes, steps), h, g);
  }

  /** From sent order to received order: of two messages accepted on one node (from one connection, say)
      for one receiver, both answered with empty content and both pushed to one connection in one life
      of the consumer, the one accepted first arrives first, unless its handling was abandoned. */
  lemma {:induction false} ReceivedInSentOrder(nodes: nat, steps: seq<Step>, n: nat, x: nat, y: nat,
                                               conn: Fanout.Conn, i: nat, j: nat)
    requires Guarantees.BothAnswered(Run(nodes, steps), n, x, y) && OneLife(Run(nodes, steps).back, conn, i, j)
    requires Guarantees.Handles(Run(nodes, steps), Consumer.FramesOf(Run(nodes, steps).back, conn)[i], n, x)
    requires Guarantees.Handles(Run(nodes, steps), Consumer.FramesOf(Run(nodes, steps).back, conn)[j], n, y)
    ensures i < j || Consumer.FramesOf(Run(nodes, steps).back, conn)[i] in Abandoned(nodes, steps)
  {
    var hs := Consumer.FramesOf(Run(nodes, steps).back, conn);
    Guarantees.EndToEndOrder(nodes, steps, n, x, y, hs[i], hs[j]);
    if j < i {
      PushedNumbersIncrease(nodes, steps, conn, j, i);
    }
  }

  // ---- Which handlings are abandoned ----

  lemma {:induction false} AbandonedAreHandlings(nodes: nat, steps: seq<Step>, h: nat)
    requires h in Abandoned(nodes, steps)
    ensures h < |Run(nodes, steps).back.numbered|
  {
    var init, last := steps[..|steps| - 1], steps[|steps| - 1];
    if h in Abandoned(nodes, init) {
      AbandonedAreHandlings(nodes, init, h);
    }
    RunInv(nodes, init);
    HandlingsStay(Run(nodes, init), last);
  }

  lemma {:induction false} HandlingsStay(s: State, step: Step)
    requires Inv(s)
    ensures s.back.numbered <= Next(s, step).back.numbered
    ensures forall h :: h in NewlyAbandoned(s, step) ==> h < |s.back.numbered|
  {
    if step.Consume? {
      Consumer.NextPushes(Topic(s), s.back, step.consume);
      assert s.back.phase.Dispatched? ==> Consumer.Current(s.back, s.back.phase.h);
    }
  }

  /** The consumer waits for the push of this handling. */
  ghost predicate Waited(b: Consumer.State, h: nat) {
    b.phase.Dispatched? && b.phase.h == h && !b.phase.pushEnded
  }

  /** What the consumer still waits for is not abandoned. */
  lemma {:induction false} WaitedIsNotAbandoned(nodes: nat, steps: seq<Step>, h: nat)
    requires Waited(Run(nodes, steps).back, h)
    ensures h !in Abandoned(nodes, steps)
  {
    if steps != [] {
      var init, last := steps[..|steps| - 1], steps[|steps| - 1];
      var s := Run(nodes, init);
      if h in Abandoned(nodes, init) {
        AbandonedAreHandlings(nodes, init, h);
        if Waited(s.back, h) {
          WaitedIsNotAbandoned(nodes, init, h);
        }
      }
      if last.Consume? && Allowed(s, last) {
        StartsWaiting(Topic(s), s.back, last.consume, h);
      }
    }
  }

  /** The consumer waits for a handling from its numbering on, until it ends or abandons it. */
  lemma {:induction false} StartsWaiting(log: seq<Msg>, b: Consumer.State, step: Consumer.Step, h: nat)
    requires Waited(Consumer.Next(log, b, step), h)
    ensures Waited(b, h) || h == |b.numbered|
    ensures !Abandons(log, b, step)
  {
  }

  /** What may still be written in the current life, and is not waited for, is abandoned. */
  lemma {:induction false} LeftIsAbandoned(nodes: nat, steps: seq<Step>, h: nat)
    requires var b := Run(nodes, steps).back;
             && h < |b.numbered| && b.numbered[h].life == b.life && !Awaited(b, h) && !PushOver(b, h)
    ensures h in Abandoned(nodes, steps)
  {
    RunFrames(nodes, steps);
    assert Settled(Run(nodes, steps).back, Abandoned(nodes, steps), h);
  }
}
