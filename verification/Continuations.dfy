/** How a run can go on from any reachable state without abandoning anything: the sending half works
    off its queues and publishes one more message, the consumer comes to it and numbers it, an instance
    writes what it may write. */
module Continuations {
  import opened Wrappers
  import opened Messages
  import opened Pipeline
  import opened Reach
  import Cache
  import Front
  import Hub
  import Fanout
  import Consumer
  import SocketOrder

  /** `next` goes on from `steps` and abandons nothing more. */
  ghost predicate GoesOn(nodes: nat, steps: seq<Step>, next: seq<Step>) {
    steps <= next && SocketOrder.Abandoned(nodes, next) == SocketOrder.Abandoned(nodes, steps)
  }

  lemma {:induction false} GoOn(nodes: nat, steps: seq<Step>, step: Step) returns (next: seq<Step>)
    requires SocketOrder.NewlyAbandoned(Run(nodes, steps), step) == {}
    ensures GoesOn(nodes, steps, next) && Run(nodes, next) == Next(Run(nodes, steps), step)
  {
    next := steps + [step];
    assert next[..|next| - 1] == steps;
  }

  /** One more step of the consumer's side. */
  lemma {:induction false} Goes(nodes: nat, steps: seq<Step>, c: Consumer.Step) returns (next: seq<Step>)
    requires Allowed(Run(nodes, steps), Consume(c))
    requires !SocketOrder.Abandons(Topic(Run(nodes, steps)), Run(nodes, steps).back, c)
    ensures GoesOn(nodes, steps, next)
    ensures var s, t := Run(nodes, steps), Run(nodes, next);
            t.front == s.front && t.hubs == s.hubs && t.back == Consumer.Next(Topic(s), s.back, c)
  {
    next := GoOn(nodes, steps, Consume(c));
  }

  // ---- The sending half ----

  /** The sending half works on; the rest of the pipeline stands still. */
  ghost predicate OnlySends(s: State, t: State) {
    && t.hubs == s.hubs && t.back == s.back
    && |t.front.nodes| == |s.front.nodes| && |s.front.log| <= |t.front.log|
  }

  lemma {:induction false} Sends(nodes: nat, steps: seq<Step>, ws: Front.Step) returns (next: seq<Step>)
    requires Allowed(Run(nodes, steps), Ws(ws))
    ensures GoesOn(nodes, steps, next)
    ensures var s, t := Run(nodes, steps), Run(nodes, next);
            t.front == Front.Next(s.front, ws) && t.hubs == s.hubs && t.back == s.back
  {
    next := GoOn(nodes, steps, Ws(ws));
  }

  lemma {:induction false} NewId(used: set<string>) returns (id: string)
    ensures id != "" && forall u :: u in used ==> |u| < |id|
    decreases used
  {
    id := "i";
    if used != {} {
      var u :| u in used;
      id := NewId(used - {u});
      id := id + u + id;
      assert forall v :: v in used ==> v == u || v in used - {u};
    }
  }

  /** How far a node is from having nothing to do. */
  function Ahead(node: Front.Node): nat {
    3 * |node.queue| + if node.phase.Calling? then 2 else if node.phase.Answered? then 1 else 0
  }

  /** A node can always work off its queue. */
  lemma {:induction false} ComesToRest(nodes: nat, steps: seq<Step>) returns (next: seq<Step>)
    requires |Run(nodes, steps).front.nodes| > 0
    ensures GoesOn(nodes, steps, next)
    ensures OnlySends(Run(nodes, steps), Run(nodes, next)) && Ahead(Run(nodes, next).front.nodes[0]) == 0
    decreases Ahead(Run(nodes, steps).front.nodes[0])
  {
    var f := Run(nodes, steps).front;
    next := steps;
    if Ahead(f.nodes[0]) > 0 {
      var id := NewId(f.used);
      next := Sends(nodes, steps, match f.nodes[0].phase
                                  case Idle => Front.Take(0)
                                  case Calling(_) => Front.Deliver(0, id, 0)
                                  case Answered(_, _) => Front.SendBack(0));
      next := ComesToRest(nodes, next);
    }
  }

  /** So a message to any user can be sent and published. */
  lemma {:induction false} Publishes(nodes: nat, steps: seq<Step>, user: string) returns (next: seq<Step>, r: nat)
    requires |Run(nodes, steps).front.nodes| > 0
    ensures GoesOn(nodes, steps, next)
    ensures var s, t := Run(nodes, steps), Run(nodes, next);
            OnlySends(s, t) && |s.front.log| <= r < |Topic(t)| && Topic(t)[r].receiverId == user
  {
    next := ComesToRest(nodes, steps);
    next := Sends(nodes, next, Front.Accept(0, None, Msg("", user, "", "", 0, 0, 0, 0, 0, "", false)));
    next := Sends(nodes, next, Front.Take(0));
    var id := NewId(Run(nodes, next).front.used);
    r := |Run(nodes, next).front.log|;
    next := Sends(nodes, next, Front.Deliver(0, id, 0));
  }

  lemma {:induction false} NodeCount(nodes: nat, steps: seq<Step>)
    ensures |Run(nodes, steps).front.nodes| == |Run(nodes, steps).hubs| == nodes
  {
    if steps != [] {
      NodeCount(nodes, steps[..|steps| - 1]);
    }
  }

  lemma {:induction false} ReadsTheTopic(nodes: nat, steps: seq<Step>)
    ensures Run(nodes, steps).back.position <= |Run(nodes, steps).front.log|
  {
    RunInv(nodes, steps);
  }

  /** A record that the consumer has yet to come to. */
  lemma {:induction false} PublishesFurther(nodes: nat, steps: seq<Step>, user: string)
    returns (next: seq<Step>, r: nat)
    requires |Run(nodes, steps).hubs| > 0
    ensures GoesOn(nodes, steps, next)
    ensures var s, t := Run(nodes, steps), Run(nodes, next);
            && t.hubs == s.hubs && t.back == s.back
            && s.back.position <= r < |Topic(t)| && Topic(t)[r].receiverId == user
  {
    NodeCount(nodes, steps);
    ReadsTheTopic(nodes, steps);
    next, r := Publishes(nodes, steps, user);
  }

  // ---- The consumer ----

  /** Handlings, frames, counters and the life stay as they are. */
  ghost predicate Stands(b: Consumer.State, c: Consumer.State) {
    && c.numbered == b.numbered && c.frames == b.frames && c.counters == b.counters && c.life == b.life
  }

  ghost predicate OthersStay(b: Consumer.State, c: Consumer.State, h: nat) {
    forall g :: g != h ==> (g in c.pushes <==> g in b.pushes) && (g in b.pushes ==> c.pushes[g] == b.pushes[g])
  }

  /** An instance that will write no more and has answered, or never will. */
  lemma {:induction false} Quietens(nodes: nat, steps: seq<Step>, h: nat) returns (next: seq<Step>)
    requires h in Run(nodes, steps).back.pushes
    ensures GoesOn(nodes, steps, next)
    ensures var s, t := Run(nodes, steps), Run(nodes, next);
            && t.hubs == s.hubs && Stands(s.back, t.back) && OthersStay(s.back, t.back, h)
            && t.back.phase == s.back.phase
            && h in t.back.pushes && t.back.pushes[h].working == {} && t.back.pushes[h].waiting == {}
    decreases var p := Run(nodes, steps).back.pushes[h]; |p.working| + |p.waiting|
  {
    var p := Run(nodes, steps).back.pushes[h];
    next := steps;
    if p.working != {} {
      var n :| n in p.working;
      next := Fans(nodes, steps, h, Fanout.NodeQuits(n));
      next := Quietens(nodes, next, h);
    } else if p.waiting != {} {
      var n :| n in p.waiting;
      next := Fans(nodes, steps, h, Fanout.NodeFails(n));
      next := Quietens(nodes, next, h);
    }
  }

  lemma {:induction false} Fans(nodes: nat, steps: seq<Step>, h: nat, f: Fanout.Step) returns (next: seq<Step>)
    requires var b := Run(nodes, steps).back; h in b.pushes && Fanout.Enabled(b.pushes[h], f)
    requires !f.Write? && Allowed(Run(nodes, steps), Consume(Consumer.Fan(h, f)))
    ensures GoesOn(nodes, steps, next)
    ensures var s, t := Run(nodes, steps), Run(nodes, next);
            && t.hubs == s.hubs && Stands(s.back, t.back) && OthersStay(s.back, t.back, h)
            && t.back.phase == s.back.phase
            && h in t.back.pushes && t.back.pushes[h] == Fanout.Apply(s.back.pushes[h], f)
  {
    next := Goes(nodes, steps, Consumer.Fan(h, f));
  }

  lemma {:induction false} Starts(nodes: nat, steps: seq<Step>, h: nat, n: nat) returns (next: seq<Step>)
    requires var b := Run(nodes, steps).back; h < |b.numbered| && h !in b.pushes
    ensures GoesOn(nodes, steps, next)
    ensures var s, t := Run(nodes, steps), Run(nodes, next);
            && t.hubs == s.hubs && Stands(s.back, t.back) && OthersStay(s.back, t.back, h)
            && t.back.phase == s.back.phase
            && h in t.back.pushes && t.back.pushes[h] == Fanout.Started({n})
  {
    next := Goes(nodes, steps, Consumer.StartPush(h, {n}));
  }

  ghost predicate LeftAlone(b: Consumer.State, c: Consumer.State, hs: set<nat>) {
    forall h :: h in hs ==> (h in c.pushes <==> h in b.pushes) && (h in b.pushes ==> c.pushes[h] == b.pushes[h])
  }

  /** What a step of the loop leaves as it is. */
  ghost predicate Continued(nodes: nat, steps: seq<Step>, next: seq<Step>) {
    var s, t := Run(nodes, steps), Run(nodes, next);
    && GoesOn(nodes, steps, next) && t.hubs == s.hubs && Stands(s.back, t.back)
    && LeftAlone(s.back, t.back, SocketOrder.Abandoned(nodes, steps))
  }

  lemma {:induction false} ContinuedOn(nodes: nat, steps: seq<Step>, mid: seq<Step>, next: seq<Step>)
    requires Continued(nodes, steps, mid) && Continued(nodes, mid, next)
    ensures Continued(nodes, steps, next)
  {
  }

  /** The consumer's loop makes a step that is none of a push. */
  lemma {:induction false} Loops(nodes: nat, steps: seq<Step>, c: Consumer.Step) returns (next: seq<Step>)
    requires c.NumberFails? || c.PushReturns? || c.SaveFails? || c.Join? || c.CommitFails? || c.Receive?
    requires c.NumberFails? ==> !c.applied
    requires !SocketOrder.Abandons(Topic(Run(nodes, steps)), Run(nodes, steps).back, c)
    requires Consumer.Enabled(Topic(Run(nodes, steps)), Run(nodes, steps).back, c)
    ensures Continued(nodes, steps, next) && Run(nodes, next).front == Run(nodes, steps).front
    ensures Run(nodes, next).back.pushes == Run(nodes, steps).back.pushes
    ensures var s, t := Run(nodes, steps), Run(nodes, next);
            && t.back.phase == Consumer.Apply(Topic(s), s.back, c).phase
            && t.back.position == s.back.position + if c.Receive? then 1 else 0
  {
    next := Goes(nodes, steps, c);
  }

  /** The push the consumer waits for can be over, its instances having stopped. */
  lemma {:induction false} EndsThePush(nodes: nat, steps: seq<Step>) returns (next: seq<Step>)
    requires var b := Run(nodes, steps).back; b.phase.Dispatched? && !b.phase.pushEnded && b.phase.h < |b.numbered|
    ensures Continued(nodes, steps, next)
    ensures Run(nodes, next).back.phase == Run(nodes, steps).back.phase.(pushEnded := true)
  {
    var h := Run(nodes, steps).back.phase.h;
    SocketOrder.WaitedIsNotAbandoned(nodes, steps, h);
    next := steps;
    if h !in Run(nodes, next).back.pushes {
      next := Starts(nodes, next, h, 0);
    }
    next := Quietens(nodes, next, h);
    assert Continued(nodes, steps, next);
    var more := Loops(nodes, next, Consumer.PushReturns);
    ContinuedOn(nodes, steps, next, more);
    next := more;
  }

  /** Whatever it is at, a consumer that is up can come to wait for its next record. */
  lemma {:induction false} ComesToReady(nodes: nat, steps: seq<Step>) returns (next: seq<Step>)
    requires !Run(nodes, steps).back.phase.Down?
    ensures Continued(nodes, steps, next) && Run(nodes, next).back.phase == Consumer.Ready
    decreases var b := Run(nodes, steps).back; StepsToReady(b.phase)
  {
    var phase := Run(nodes, steps).back.phase;
    next := steps;
    if phase != Consumer.Ready {
      next := ComesCloser(nodes, steps);
      var more := ComesToReady(nodes, next);
      ContinuedOn(nodes, steps, next, more);
      next := more;
    }
  }

  lemma {:induction false} ComesCloser(nodes: nat, steps: seq<Step>) returns (next: seq<Step>)
    requires var phase := Run(nodes, steps).back.phase; !phase.Down? && !phase.Ready?
    ensures Continued(nodes, steps, next) && !Run(nodes, next).back.phase.Down?
    ensures StepsToReady(Run(nodes, next).back.phase) < StepsToReady(Run(nodes, steps).back.phase)
  {
    AtWork(nodes, steps);
    var phase := Run(nodes, steps).back.phase;
    if phase.Received? {
      next := Loops(nodes, steps, Consumer.NumberFails(false));
    } else if phase.Joined? {
      next := Loops(nodes, steps, Consumer.CommitFails);
    } else if !phase.pushEnded {
      next := EndsThePush(nodes, steps);
    } else if !phase.saveEnded {
      next := Loops(nodes, steps, Consumer.SaveFails);
    } else {
      next := Loops(nodes, steps, Consumer.Join);
    }
  }

  function StepsToReady(phase: Consumer.Phase): nat {
    match phase
    case Down => 0
    case Ready => 0
    case Received(_) => 1
    case Joined(_) => 1
    case Dispatched(_, s, p) => 2 + (if s then 0 else 1) + if p then 0 else 1
  }

  lemma {:induction false} AtWork(nodes: nat, steps: seq<Step>)
    ensures var s := Run(nodes, steps);
            && (s.back.phase.Received? ==> s.back.phase.offset < |Topic(s)|)
            && (s.back.phase.Dispatched? ==> s.back.phase.h < |s.back.numbered|)
  {
    RunInv(nodes, steps);
  }

  /** It goes past the records before `r`. */
  lemma {:induction false} SkipsTo(nodes: nat, steps: seq<Step>, r: nat) returns (next: seq<Step>)
    requires var s := Run(nodes, steps); s.back.phase == Consumer.Ready && s.back.position <= r <= |Topic(s)|
    ensures Continued(nodes, steps, next) && Run(nodes, next).front == Run(nodes, steps).front
    ensures var b := Run(nodes, next).back;
            && b.phase == Consumer.Ready && b.position == r
            && b.pushes == Run(nodes, steps).back.pushes
    decreases r - Run(nodes, steps).back.position
  {
    next := steps;
    if Run(nodes, steps).back.position < r {
      var mid := Loops(nodes, steps, Consumer.Receive);
      next := Loops(nodes, mid, Consumer.NumberFails(false));
      ContinuedOn(nodes, steps, mid, next);
      var more := SkipsTo(nodes, next, r);
      ContinuedOn(nodes, steps, next, more);
      next := more;
    }
  }

  /** A further message to a user can be numbered. */
  lemma {:induction false} NumbersAnother(nodes: nat, steps: seq<Step>, user: string) returns (next: seq<Step>)
    requires var s := Run(nodes, steps); !s.back.phase.Down? && |s.hubs| > 0 && Cache.CanBump(s.back.counters, user)
    ensures GoesOn(nodes, steps, next)
    ensures var s, t := Run(nodes, steps), Run(nodes, next);
            t.hubs == s.hubs && NumberedOne(s.back, t.back, user)
            && LeftAlone(s.back, t.back, SocketOrder.Abandoned(nodes, steps))
  {
    next := ComesToReady(nodes, steps);
    var more, r := PublishesFurther(nodes, next, user);
    next := SkipsTo(nodes, more, r);
    RunInv(nodes, next);
    next := NumbersNext(nodes, next);
  }

  ghost predicate NumberedOne(b: Consumer.State, c: Consumer.State, user: string) {
    && |c.numbered| == |b.numbered| + 1 && b.numbered <= c.numbered && |b.numbered| !in c.pushes
    && c.numbered[|b.numbered|].user == user && c.numbered[|b.numbered|].life == b.life
    && c.frames == b.frames && c.life == b.life
  }

  lemma {:induction false} NumbersNext(nodes: nat, steps: seq<Step>) returns (next: seq<Step>)
    requires var s := Run(nodes, steps);
             && s.back.phase == Consumer.Ready && s.back.position < |Topic(s)| && Consumer.PushesInv(s.back)
             && Cache.CanBump(s.back.counters, Topic(s)[s.back.position].receiverId)
    ensures GoesOn(nodes, steps, next)
    ensures var s, t := Run(nodes, steps), Run(nodes, next);
            && t.hubs == s.hubs && t.back.pushes == s.back.pushes
            && NumberedOne(s.back, t.back, Topic(s)[s.back.position].receiverId)
  {
    next := Loops(nodes, steps, Consumer.Receive);
    next := Goes(nodes, next, Consumer.Number);
  }

  // ---- An instance ----

  /** The connection comes to be in its hub. */
  lemma {:induction false} Files(nodes: nat, steps: seq<Step>, conn: Fanout.Conn, user: string)
    returns (next: seq<Step>)
    requires Fileable(Run(nodes, steps).hubs, conn, user)
    ensures GoesOn(nodes, steps, next)
    ensures var s, t := Run(nodes, steps), Run(nodes, next);
            && t.back == s.back && |t.hubs| == |s.hubs| && conn in Filed(t.hubs[conn.node], conn.node, user)
  {
    next := steps;
    var hub := Run(nodes, steps).hubs[conn.node];
    if conn !in Filed(hub, conn.node, user) {
      next := GoOn(nodes, steps, Conn(conn.node, Hub.Open(conn.id, user, "phone")));
      OpenFiles(hub, conn.node, user, conn.id);
    }
  }

  lemma {:induction false} OpenFiles(hub: Hub.State, n: nat, user: string, c: nat)
    requires c !in hub.conns
    ensures Fanout.Conn(n, c) in Filed(Hub.Next(hub, Hub.Open(c, user, "phone")), n, user)
  {
    var t := Hub.Next(hub, Hub.Open(c, user, "phone"));
    assert t.table[user]["phone"] == c;
  }

  /** What is written in between: one handling, on one connection, with nothing said of other users. */
  ghost predicate WroteOnly(s: State, t: State, h: nat, conn: Fanout.Conn, user: string) {
    && t.back.numbered == s.back.numbered && OthersStay(s.back, t.back, h)
    && (Fileable(s.hubs, conn, user) ==> Fileable(t.hubs, conn, user))
  }

  /** An instance that may reach a connection finds it. */
  lemma {:induction false} Finds(nodes: nat, steps: seq<Step>, h: nat, conn: Fanout.Conn) returns (next: seq<Step>)
    requires var s := Run(nodes, steps); h in s.back.pushes && MayReach(s.hubs, s.back, h, conn)
    ensures GoesOn(nodes, steps, next)
    ensures var s, t := Run(nodes, steps), Run(nodes, next);
            && WroteOnly(s, t, h, conn, s.back.numbered[h].user) && t.back.frames == s.back.frames
            && h in t.back.pushes && t.back.pushes[h].Owes(conn)
  {
    next := steps;
    var s, n := Run(nodes, steps), conn.node;
    if n !in s.back.pushes[h].lookups {
      var user := s.back.numbered[h].user;
      next := Files(nodes, steps, conn, user);
      next := Fans(nodes, next, h, Fanout.Lookup(n, Filed(Run(nodes, next).hubs[n], n, user)));
    }
  }

  /** An instance that may reach a connection writes to it. */
  lemma {:induction false} Writes(nodes: nat, steps: seq<Step>, h: nat, conn: Fanout.Conn) returns (next: seq<Step>)
    requires MayReach(Run(nodes, steps).hubs, Run(nodes, steps).back, h, conn)
    ensures GoesOn(nodes, steps, next)
    ensures var s, t := Run(nodes, steps), Run(nodes, next);
            && WroteOnly(s, t, h, conn, s.back.numbered[h].user)
            && Consumer.FramesOf(t.back, conn) == Consumer.FramesOf(s.back, conn) + [h]
  {
    next := steps;
    if h !in Run(nodes, steps).back.pushes {
      next := Starts(nodes, steps, h, conn.node);
    }
    next := Finds(nodes, next, h, conn);
    next := WritesNow(nodes, next, h, conn);
  }

  lemma {:induction false} WritesNow(nodes: nat, steps: seq<Step>, h: nat, conn: Fanout.Conn) returns (next: seq<Step>)
    requires var b := Run(nodes, steps).back; h in b.pushes && b.pushes[h].Owes(conn)
    ensures GoesOn(nodes, steps, next)
    ensures var s, t := Run(nodes, steps), Run(nodes, next);
            && t.hubs == s.hubs && t.back.numbered == s.back.numbered && OthersStay(s.back, t.back, h)
            && Consumer.FramesOf(t.back, conn) == Consumer.FramesOf(s.back, conn) + [h]
  {
    var s := Run(nodes, steps);
    next := Goes(nodes, steps, Consumer.Fan(h, Fanout.Write(conn)));
    Consumer.NextFrames(Topic(s), s.back, Consumer.Fan(h, Fanout.Write(conn)));
    Consumer.NextPushes(Topic(s), s.back, Consumer.Fan(h, Fanout.Write(conn)));
    NumbersNone(Topic(s), s.back, Consumer.Fan(h, Fanout.Write(conn)));
  }

  lemma {:induction false} NumbersNone(log: seq<Msg>, b: Consumer.State, step: Consumer.Step)
    requires step.Fan?
    ensures Consumer.Next(log, b, step).numbered == b.numbered
  {
  }

  /** Writing one handling leaves another of the same user as reachable as it was. */
  lemma {:induction false} StillReachable(s: State, t: State, h: nat, g: nat, conn: Fanout.Conn)
    requires g != h && h < |s.back.numbered| && MayReach(s.hubs, s.back, g, conn)
    requires s.back.numbered[g].user == s.back.numbered[h].user
    requires WroteOnly(s, t, h, conn, s.back.numbered[h].user)
    ensures MayReach(t.hubs, t.back, g, conn)
  {
  }
}
