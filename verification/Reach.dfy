/** Which pushes may still reach a connection: the ones at work, the ones whose call has not reached the
    pusher yet, and what can become of them. */
module Reach {
  import opened Wrappers
  import opened Messages
  import opened Pipeline
  import Cache
  import Hub
  import Fanout
  import Consumer

  /** The node's hub holds the connection for this user, or will if it is opened. */
  ghost predicate Fileable(hubs: seq<Hub.State>, conn: Fanout.Conn, user: string) {
    && conn.node < |hubs|
    && (conn in Filed(hubs[conn.node], conn.node, user) || conn.id !in hubs[conn.node].conns)
  }

  /** An instance may still write this handling to this connection. */
  ghost predicate MayReach(hubs: seq<Hub.State>, b: Consumer.State, h: nat, conn: Fanout.Conn) {
    && h < |b.numbered|
    && if h in b.pushes then Pending(hubs, b.pushes[h], b.numbered[h].user, conn)
       else Fileable(hubs, conn, b.numbered[h].user)
  }

  ghost predicate Pending(hubs: seq<Hub.State>, p: Fanout.Push, user: string, conn: Fanout.Conn) {
    && conn.node in p.working && conn !in p.reached && conn !in p.missed
    && if conn.node in p.lookups then conn in p.lookups[conn.node] else Fileable(hubs, conn, user)
  }

  // ---- What may be reached could have been reached before ----

  lemma {:induction false} FiledBefore(hub: Hub.State, step: Hub.Step, n: nat, user: string, conn: Fanout.Conn)
    requires conn in Filed(Hub.Next(hub, step), n, user)
    ensures conn in Filed(hub, n, user) || (step.Open? && conn.id == step.c && step.c !in hub.conns)
  {
  }

  lemma {:induction false} FileableBefore(s: State, step: Step, conn: Fanout.Conn, user: string)
    requires Fileable(Next(s, step).hubs, conn, user)
    ensures Fileable(s.hubs, conn, user)
  {
    if step.Conn? && step.node < |s.hubs| {
      var n := conn.node;
      if step.node == n && conn in Filed(Next(s, step).hubs[n], n, user) {
        FiledBefore(s.hubs[n], step.hub, n, user, conn);
      }
    }
  }

  lemma {:induction false} ReachableBefore(s: State, step: Step, h: nat, conn: Fanout.Conn)
    requires Inv(s) && h < |s.back.numbered| && MayReach(Next(s, step).hubs, Next(s, step).back, h, conn)
    ensures MayReach(s.hubs, s.back, h, conn)
  {
    var t := Next(s, step);
    var user := s.back.numbered[h].user;
    if Fileable(t.hubs, conn, user) {
      FileableBefore(s, step, conn, user);
    }
    if step.Consume? && Allowed(s, step) {
      PushBefore(s, step.consume, h, conn);
    }
  }

  lemma {:induction false} PushBefore(s: State, c: Consumer.Step, h: nat, conn: Fanout.Conn)
    requires Inv(s) && Allowed(s, Consume(c)) && h < |s.back.numbered|
    requires MayReach(s.hubs, Consumer.Next(Topic(s), s.back, c), h, conn)
    ensures MayReach(s.hubs, s.back, h, conn)
  {
    Consumer.NextPushes(Topic(s), s.back, c);
    if c.Fan? && c.h == h && Consumer.Enabled(Topic(s), s.back, c) {
      PendingBefore(s.hubs, s.back.pushes[h], c.step, s.back.numbered[h].user, conn);
    }
  }

  lemma {:induction false} PendingBefore(hubs: seq<Hub.State>, p: Fanout.Push, f: Fanout.Step, user: string,
                                         conn: Fanout.Conn)
    requires Fanout.Enabled(p, f) && Pending(hubs, Fanout.Apply(p, f), user, conn)
    requires f.Lookup? ==> f.node < |hubs| && f.clients == Filed(hubs[f.node], f.node, user)
    ensures Pending(hubs, p, user, conn)
  {
  }

  // ---- What happened since ----

  /** Handling `g` of the later state could already reach the connection, or belongs to a user whom the
      connection could be filed under. */
  ghost predicate Could(s: State, t: State, g: nat, conn: Fanout.Conn) {
    && g < |t.back.numbered|
    && if g < |s.back.numbered| then MayReach(s.hubs, s.back, g, conn)
       else Fileable(s.hubs, conn, t.back.numbered[g].user)
  }

  ghost predicate ReachSince(s: State, t: State, conn: Fanout.Conn) {
    && (forall g: nat :: MayReach(t.hubs, t.back, g, conn) ==> Could(s, t, g, conn))
    && (forall u :: Fileable(t.hubs, conn, u) ==> Fileable(s.hubs, conn, u))
  }

  ghost predicate FramesSince(s: State, t: State, conn: Fanout.Conn) {
    var before, after := Consumer.FramesOf(s.back, conn), Consumer.FramesOf(t.back, conn);
    before <= after && forall j :: |before| <= j < |after| ==> Could(s, t, after[j], conn)
  }

  /** A handling numbered since then was numbered by a consumer that was up, in that life or a later one,
      and its receiver's counter had room. */
  ghost predicate NumberedSince(b: Consumer.State, c: Consumer.State) {
    && b.numbered <= c.numbered && b.life <= c.life
    && (b.phase.Down? && c.life == b.life ==> c.phase.Down?)
    && (forall u :: Cache.CounterOf(b.counters, u) <= Cache.CounterOf(c.counters, u))
    && (forall g :: |b.numbered| <= g < |c.numbered| ==> NumberedLater(b, c.numbered[g]))
  }

  ghost predicate NumberedLater(b: Consumer.State, n: Consumer.Numbering) {
    n.life >= b.life && (n.life == b.life ==> !b.phase.Down?) && Cache.CanBump(b.counters, n.user)
  }

  ghost predicate Since(s: State, t: State, conn: Fanout.Conn) {
    ReachSince(s, t, conn) && FramesSince(s, t, conn) && NumberedSince(s.back, t.back)
  }

  /** A step of the consumer numbers at most one record. */
  ghost predicate NumbersOne(b: Consumer.State, c: Consumer.State) {
    && b.numbered <= c.numbered && b.life <= c.life
    && (b.phase.Down? && c.life == b.life ==> c.phase.Down?)
    && (forall u :: Cache.CounterOf(b.counters, u) <= Cache.CounterOf(c.counters, u))
    && (|c.numbered| > |b.numbered| ==>
          |c.numbered| == |b.numbered| + 1 && |b.numbered| !in c.pushes && c.numbered[|b.numbered|].life == b.life
          && !b.phase.Down? && Cache.CanBump(b.counters, c.numbered[|b.numbered|].user))
  }

  lemma {:induction false} NextNumbers(log: seq<Msg>, b: Consumer.State, step: Consumer.Step)
    requires Consumer.PushesInv(b)
    ensures NumbersOne(b, Consumer.Next(log, b, step))
  {
  }

  lemma {:induction false} NumberedOn(b: Consumer.State, c: Consumer.State, d: Consumer.State)
    requires NumberedSince(b, c) && NumbersOne(c, d)
    ensures NumberedSince(b, d)
  {
    forall g | |b.numbered| <= g < |d.numbered|
      ensures NumberedLater(b, d.numbered[g])
    {
      if g < |c.numbered| {
        assert NumberedLater(b, c.numbered[g]);
      }
    }
  }

  /** A step writes at most one frame on the connection, of a handling that could reach it. */
  ghost predicate WritesOne(s: State, t: State, conn: Fanout.Conn) {
    var before, after := Consumer.FramesOf(s.back, conn), Consumer.FramesOf(t.back, conn);
    || after == before
    || (|after| == |before| + 1 && before <= after && MayReach(s.hubs, s.back, after[|before|], conn))
  }

  lemma {:induction false} NextWrites(s: State, step: Step, conn: Fanout.Conn)
    requires Consumer.PushesInv(s.back)
    ensures WritesOne(s, Next(s, step), conn)
  {
    if step.Consume? && Allowed(s, step) {
      var f := step.consume;
      Consumer.NextFrames(Topic(s), s.back, f);
      if Consumer.Writes(Topic(s), s.back, f) {
        assert f.h < |s.back.numbered| && s.back.pushes[f.h].Owes(f.step.conn);
      }
    } else {
      assert Next(s, step).back == s.back;
    }
  }

  /** What one step can do to the connection's prospects. */
  ghost predicate Moves(s: State, t: State, conn: Fanout.Conn) {
    && NumbersOne(s.back, t.back) && WritesOne(s, t, conn)
    && (forall u :: Fileable(t.hubs, conn, u) ==> Fileable(s.hubs, conn, u))
    && (forall g: nat :: g < |s.back.numbered| && MayReach(t.hubs, t.back, g, conn) ==>
                           MayReach(s.hubs, s.back, g, conn))
  }

  lemma {:induction false} NextMoves(s: State, step: Step, conn: Fanout.Conn)
    requires Inv(s)
    ensures Moves(s, Next(s, step), conn)
  {
    var t := Next(s, step);
    NextWrites(s, step, conn);
    if step.Consume? && Allowed(s, step) {
      NextNumbers(Topic(s), s.back, step.consume);
    }
    assert NumbersOne(s.back, t.back);
    forall u | Fileable(t.hubs, conn, u)
      ensures Fileable(s.hubs, conn, u)
    {
      FileableBefore(s, step, conn, u);
    }
    forall g: nat | g < |s.back.numbered| && MayReach(t.hubs, t.back, g, conn)
      ensures MayReach(s.hubs, s.back, g, conn)
    {
      ReachableBefore(s, step, g, conn);
    }
  }

  lemma {:induction false} FramesOn(s: State, t: State, u: State, conn: Fanout.Conn)
    requires ReachSince(s, t, conn) && FramesSince(s, t, conn) && Moves(t, u, conn)
    ensures FramesSince(s, u, conn)
  {
    var before, after := Consumer.FramesOf(s.back, conn), Consumer.FramesOf(u.back, conn);
    var mid := Consumer.FramesOf(t.back, conn);
    forall j | |before| <= j < |after|
      ensures Could(s, u, after[j], conn)
    {
      if j < |mid| {
        assert Could(s, t, mid[j], conn);
      } else {
        assert Could(s, t, after[j], conn);
      }
    }
  }

  lemma {:induction false} ReachOn(s: State, t: State, u: State, conn: Fanout.Conn)
    requires ReachSince(s, t, conn) && Moves(t, u, conn) && |s.back.numbered| <= |t.back.numbered|
    ensures ReachSince(s, u, conn)
  {
    forall g: nat | MayReach(u.hubs, u.back, g, conn)
      ensures Could(s, u, g, conn)
    {
      if g < |t.back.numbered| {
        assert Could(s, t, g, conn);
      } else {
        assert Fileable(u.hubs, conn, u.back.numbered[g].user);
      }
    }
  }

  /** Everything that can be said of a state and any later one of the run. */
  lemma {:induction false} SinceThen(nodes: nat, steps: seq<Step>, next: seq<Step>, conn: Fanout.Conn)
    requires steps <= next
    ensures Since(Run(nodes, steps), Run(nodes, next), conn)
    decreases |next|
  {
    if steps != next {
      var init, last := next[..|next| - 1], next[|next| - 1];
      SinceThen(nodes, steps, init, conn);
      RunInv(nodes, init);
      NextMoves(Run(nodes, init), last, conn);
      SinceOn(Run(nodes, steps), Run(nodes, init), Run(nodes, next), conn);
    }
  }

  lemma {:induction false} SinceOn(s: State, t: State, u: State, conn: Fanout.Conn)
    requires Since(s, t, conn) && Moves(t, u, conn)
    ensures Since(s, u, conn)
  {
    NumberedOn(s.back, t.back, u.back);
    ReachOn(s, t, u, conn);
    FramesOn(s, t, u, conn);
  }
}
