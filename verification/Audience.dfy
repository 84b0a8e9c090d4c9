/** Who gets a pushed message: what the pushes write on a connection, against what the hubs hold. */
module Audience {
  import opened Wrappers
  import opened Pipeline
  import Hub
  import Fanout
  import Consumer

  /** Whatever the schedule and the faults, a connection is pushed only messages to its own user, and
      each handling at most once. */
  lemma {:induction false} PushesReachTheReceiverOnce(nodes: nat, steps: seq<Step>, conn: Fanout.Conn, i: nat)
    requires conn in Run(nodes, steps).back.frames && i < |Run(nodes, steps).back.frames[conn]|
    ensures var s := Run(nodes, steps);
            var h := s.back.frames[conn][i];
            && h < |s.back.numbered| && s.back.numbered[h].offset < |Topic(s)|
            && Belongs(s, conn, Topic(s)[s.back.numbered[h].offset].receiverId)
            && forall j :: 0 <= j < |s.back.frames[conn]| && j != i ==> s.back.frames[conn][j] != h
  {
    RunInv(nodes, steps);
    var s := Run(nodes, steps);
    var h := s.back.frames[conn][i];
    assert Reached(s.back, conn, h);
    assert Found(s, h, conn.node, conn);
    assert Consumer.NumberOk(Topic(s), s.back, s.back.numbered[h]);
    assert NoneTwice(s.back.frames[conn]);
  }

  /** The steps a node's hub makes. */
  function HubSteps(steps: seq<Step>, n: nat): seq<Hub.Step> {
    if steps == [] then []
    else
      var last := steps[|steps| - 1];
      HubSteps(steps[..|steps| - 1], n) + if last.Conn? && last.node == n then [last.hub] else []
  }

  lemma {:induction false} HubIsItsRun(nodes: nat, steps: seq<Step>, n: nat)
    ensures |Run(nodes, steps).hubs| == nodes
    ensures n < nodes ==> Run(nodes, steps).hubs[n] == Hub.Run(HubSteps(steps, n))
  {
    if steps != [] {
      var init, last := steps[..|steps| - 1], steps[|steps| - 1];
      HubIsItsRun(nodes, init, n);
      NextHub(Run(nodes, init), last, n);
      if last.Conn? && last.node == n {
        RunOn(HubSteps(init, n), last.hub);
      } else {
        assert HubSteps(steps, n) == HubSteps(init, n);
      }
    }
  }

  lemma {:induction false} NextHub(s: State, step: Step, n: nat)
    ensures |Next(s, step).hubs| == |s.hubs|
    ensures n < |s.hubs| ==>
              Next(s, step).hubs[n] == if step.Conn? && step.node == n then Hub.Next(s.hubs[n], step.hub) else s.hubs[n]
  {
  }

  lemma {:induction false} RunOn(steps: seq<Hub.Step>, step: Hub.Step)
    ensures Hub.Run(steps + [step]) == Hub.Next(Hub.Run(steps), step)
  {
    assert (steps + [step])[..|steps|] == steps;
  }

  lemma {:induction false} RunRemembers(nodes: nat, steps: seq<Step>, k: nat)
    requires k <= |steps|
    ensures Consumer.Remembers(Run(nodes, steps[..k]).back, Run(nodes, steps).back)
  {
    if k == |steps| {
      assert steps[..k] == steps;
    } else {
      var init := steps[..|steps| - 1];
      assert init[..k] == steps[..k];
      RunRemembers(nodes, init, k);
      RunInv(nodes, init);
      var s, last := Run(nodes, init), steps[|steps| - 1];
      if last.Consume? {
        Consumer.NextRemembers(Topic(s), s.back, last.consume);
      }
    }
  }

  /** At this step the instance on node `n` looks up the receiver of handling `h`. */
  ghost predicate LooksUp(s: State, step: Step, h: nat, n: nat) {
    && step.Consume? && step.consume.Fan? && step.consume.h == h
    && step.consume.step.Lookup? && step.consume.step.node == n
    && Allowed(s, step) && Consumer.Enabled(Topic(s), s.back, step.consume)
  }

  /** An instance that answered has tried exactly the clients its hub held for the receiver when it
      looked, and each of them has the message once unless its socket was broken. */
  lemma {:induction false} AnsweredPushTriesTheHub(nodes: nat, steps: seq<Step>, k: nat, h: nat, conn: Fanout.Conn)
    requires k < |steps| && LooksUp(Run(nodes, steps[..k]), steps[k], h, conn.node)
    requires h in Run(nodes, steps).back.pushes && conn.node in Run(nodes, steps).back.pushes[h].served
    ensures var s, b := Run(nodes, steps[..k]), Run(nodes, steps).back;
            var tried := conn in Filed(s.hubs[conn.node], conn.node, s.back.numbered[h].user);
            multiset(Consumer.FramesOf(b, conn))[h] == if tried && conn !in b.pushes[h].missed then 1 else 0
  {
    var s, n := Run(nodes, steps[..k]), conn.node;
    var clients := Filed(s.hubs[n], n, s.back.numbered[h].user);
    assert steps[..k + 1][..k] == steps[..k];
    var t := Run(nodes, steps[..k + 1]);
    assert t == Next(s, steps[k]);
    assert t.back.pushes[h].lookups[n] == clients;
    RunRemembers(nodes, steps, k + 1);
    RunInv(nodes, steps);
    CountOfFrames(Run(nodes, steps).back, conn, h);
  }

  /** A handling is on a connection once if the push wrote it, and not at all otherwise. */
  lemma {:induction false} CountOfFrames(b: Consumer.State, conn: Fanout.Conn, h: nat)
    requires WrittenInv(b) && ReachedInv(b)
    ensures multiset(Consumer.FramesOf(b, conn))[h] == if Reached(b, conn, h) then 1 else 0
  {
    var hs := Consumer.FramesOf(b, conn);
    OnceInMultiset(hs, h);
    if h in hs {
      var k :| 0 <= k < |hs| && hs[k] == h;
      assert Reached(b, conn, b.frames[conn][k]);
    }
  }

  lemma {:induction false} OnceInMultiset(hs: seq<nat>, h: nat)
    requires NoneTwice(hs)
    ensures multiset(hs)[h] == if h in hs then 1 else 0
  {
    if hs != [] {
      assert hs == hs[..|hs| - 1] + [hs[|hs| - 1]];
      OnceInMultiset(hs[..|hs| - 1], h);
    }
  }

  /** As long as no connection of the node has opened a key that was busy, an answered push is on every
      connection of the receiver that was live when the instance looked, exactly once; the exception
      is a connection whose socket was broken. */
  lemma {:induction false} PushServesEveryLiveConnection(nodes: nat, steps: seq<Step>, k: nat, h: nat,
                                                         conn: Fanout.Conn)
    requires k < |steps| && LooksUp(Run(nodes, steps[..k]), steps[k], h, conn.node)
    requires h in Run(nodes, steps).back.pushes && conn.node in Run(nodes, steps).back.pushes[h].served
    requires conn !in Run(nodes, steps).back.pushes[h].missed
    requires Hub.NoOverlap(HubSteps(steps[..k], conn.node))
    requires var s := Run(nodes, steps[..k]);
             Belongs(s, conn, s.back.numbered[h].user) && s.hubs[conn.node].conns[conn.id].live
    ensures multiset(Consumer.FramesOf(Run(nodes, steps).back, conn))[h] == 1
  {
    var s, n := Run(nodes, steps[..k]), conn.node;
    HubIsItsRun(nodes, steps[..k], n);
    Hub.ExactIffNoOverlap(HubSteps(steps[..k], n));
    assert Hub.Exact(s.hubs[n]);
    var user := s.back.numbered[h].user;
    assert Hub.Lookup(s.hubs[n].table, user, s.hubs[n].conns[conn.id].platform) == Some(conn.id);
    assert conn in Filed(s.hubs[n], n, user);
    AnsweredPushTriesTheHub(nodes, steps, k, h, conn);
  }
}
