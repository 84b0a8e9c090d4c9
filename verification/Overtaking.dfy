/** From which states the order of the frames on a connection can break.

    The consumer can abandon a handling and let a later one overtake it. Whether that can happen without
    anything further being abandoned depends on three things a caller could look up: an abandoned
    handling that may still reach the connection, its receiver, and a later handling of its life that is
    on the connection, may reach it too, or can still be made. */
module Overtaking {
  import opened Pipeline
  import opened Reach
  import Cache
  import Fanout
  import Consumer
  import SocketOrder
  import Continuations

  // ---- The condition ----

  /** A later handling of the same life and receiver is on the connection or may reach it. */
  ghost predicate Follows(s: State, h: nat, g: nat, conn: Fanout.Conn) {
    && h < g < |s.back.numbered|
    && s.back.numbered[g].life == s.back.numbered[h].life && s.back.numbered[g].user == s.back.numbered[h].user
    && (g in Consumer.FramesOf(s.back, conn) || MayReach(s.hubs, s.back, g, conn))
  }

  /** Or the consumer is up, in the same life, and can still number one for the connection. */
  ghost predicate CanFollow(s: State, h: nat, conn: Fanout.Conn)
    requires h < |s.back.numbered|
  {
    var n := s.back.numbered[h];
    && n.life == s.back.life && !s.back.phase.Down?
    && Fileable(s.hubs, conn, n.user) && Cache.CanBump(s.back.counters, n.user)
  }

  /** Handling `h` of this life may still be written on the connection, behind a later one. */
  ghost predicate Overtakable(s: State, h: nat, conn: Fanout.Conn, life: nat) {
    && h < |s.back.numbered| && s.back.numbered[h].life == life && MayReach(s.hubs, s.back, h, conn)
    && (CanFollow(s, h, conn) || exists g :: Follows(s, h, g, conn))
  }

  // ---- What it is about ----

  /** Frame `j`, written since, comes after a frame of the same life with a larger number. */
  ghost predicate OutOfOrder(b: Consumer.State, c: Consumer.State, conn: Fanout.Conn, life: nat, i: nat, j: nat) {
    && |Consumer.FramesOf(b, conn)| <= j && i < j && SocketOrder.OneLife(c, conn, i, j)
    && c.numbered[Consumer.FramesOf(c, conn)[i]].life == life
    && SocketOrder.NumberAt(c, conn, i) > SocketOrder.NumberAt(c, conn, j)
  }

  /** The run goes on, abandons nothing more, and the order breaks. */
  ghost predicate Breaks(nodes: nat, steps: seq<Step>, next: seq<Step>, conn: Fanout.Conn, life: nat, i: nat, j: nat) {
    && Continuations.GoesOn(nodes, steps, next)
    && OutOfOrder(Run(nodes, steps).back, Run(nodes, next).back, conn, life, i, j)
  }

  ghost predicate CanBreak(nodes: nat, steps: seq<Step>, conn: Fanout.Conn, life: nat) {
    exists next, i: nat, j: nat :: Breaks(nodes, steps, next, conn, life, i, j)
  }

  // ---- It breaks only so ----

  /** Frames of one connection are numbered for one user, and their numbers rise with the handlings. */
  lemma {:induction false} LargerIsLater(s: State, conn: Fanout.Conn, i: nat, j: nat)
    requires Inv(s) && SocketOrder.OneLife(s.back, conn, i, j)
    requires SocketOrder.NumberAt(s.back, conn, i) > SocketOrder.NumberAt(s.back, conn, j)
    ensures var g, h := Consumer.FramesOf(s.back, conn)[i], Consumer.FramesOf(s.back, conn)[j];
            h < g && s.back.numbered[g].user == s.back.numbered[h].user
  {
    var g, h := s.back.frames[conn][i], s.back.frames[conn][j];
    assert Reached(s.back, conn, g) && Reached(s.back, conn, h);
    assert Found(s, g, conn.node, conn) && Found(s, h, conn.node, conn);
  }

  lemma {:induction false} BreaksOnlySo(nodes: nat, steps: seq<Step>, next: seq<Step>, conn: Fanout.Conn, life: nat,
                                        i: nat, j: nat)
    returns (h: nat)
    requires Breaks(nodes, steps, next, conn, life, i, j)
    ensures h in SocketOrder.Abandoned(nodes, steps) && Overtakable(Run(nodes, steps), h, conn, life)
    ensures h == Consumer.FramesOf(Run(nodes, next).back, conn)[j]
  {
    var s, t := Run(nodes, steps), Run(nodes, next);
    h := Consumer.FramesOf(t.back, conn)[j];
    SocketOrder.PushedNumbersIncrease(nodes, next, conn, i, j);
    SocketOrder.AbandonedAreHandlings(nodes, steps, h);
    RunInv(nodes, steps);
    RunInv(nodes, next);
    LargerIsLater(t, conn, i, j);
    SinceThen(nodes, steps, next, conn);
    assert Consumer.NumberOk(Topic(s), s.back, s.back.numbered[h]);
    FollowedBefore(s, t, conn, i, j);
  }

  /** The overtaking handling was there before, or could be made. */
  lemma {:induction false} FollowedBefore(s: State, t: State, conn: Fanout.Conn, i: nat, j: nat)
    requires Since(s, t, conn) && i < j && |Consumer.FramesOf(s.back, conn)| <= j
             && SocketOrder.OneLife(t.back, conn, i, j)
    requires var g, h := Consumer.FramesOf(t.back, conn)[i], Consumer.FramesOf(t.back, conn)[j];
             && h < g && t.back.numbered[g].user == t.back.numbered[h].user
             && h < |s.back.numbered| && s.back.numbered[h].life <= s.back.life
    requires WrittenInv(s.back) && Consumer.PushesInv(s.back)
    ensures var h := Consumer.FramesOf(t.back, conn)[j]; Overtakable(s, h, conn, s.back.numbered[h].life)
  {
    var before, after := Consumer.FramesOf(s.back, conn), Consumer.FramesOf(t.back, conn);
    var g, h := after[i], after[j];
    assert Could(s, t, h, conn);
    if g < |s.back.numbered| {
      assert i >= |before| ==> Could(s, t, g, conn);
      assert Follows(s, h, g, conn);
    } else {
      assert NumberedLater(s.back, t.back.numbered[g]);
      assert i < |before| ==> Reached(s.back, conn, before[i]);
      assert Could(s, t, after[i], conn);
    }
  }

  // ---- It can break so ----

  /** A handling that may reach the connection is written there; a later one was there before. */
  lemma {:induction false} WrittenBehind(nodes: nat, steps: seq<Step>, h: nat, g: nat, conn: Fanout.Conn)
    returns (next: seq<Step>, i: nat, j: nat)
    requires var s := Run(nodes, steps);
             MayReach(s.hubs, s.back, h, conn) && Follows(s, h, g, conn) && g in Consumer.FramesOf(s.back, conn)
    ensures Breaks(nodes, steps, next, conn, Run(nodes, steps).back.numbered[h].life, i, j)
  {
    var b := Run(nodes, steps).back;
    next := Continuations.Writes(nodes, steps, h, conn);
    i :| 0 <= i < |Consumer.FramesOf(b, conn)| && Consumer.FramesOf(b, conn)[i] == g;
    j := |Consumer.FramesOf(b, conn)|;
    RunInv(nodes, steps);
    Behind(b, Run(nodes, next).back, h, g, conn, i);
  }

  lemma {:induction false} Behind(b: Consumer.State, c: Consumer.State, h: nat, g: nat, conn: Fanout.Conn, i: nat)
    requires Consumer.OrderInv(b) && c.numbered == b.numbered && h < g < |b.numbered|
    requires b.numbered[g].life == b.numbered[h].life && b.numbered[g].user == b.numbered[h].user
    requires i < |Consumer.FramesOf(b, conn)| && Consumer.FramesOf(b, conn)[i] == g
    requires Consumer.FramesOf(c, conn) == Consumer.FramesOf(b, conn) + [h]
    ensures OutOfOrder(b, c, conn, b.numbered[h].life, i, |Consumer.FramesOf(b, conn)|)
  {
  }

  /** A later handling that may reach the connection is written there first. */
  lemma {:induction false} WrittenFirst(nodes: nat, steps: seq<Step>, h: nat, g: nat, conn: Fanout.Conn)
    returns (next: seq<Step>, i: nat, j: nat)
    requires var s := Run(nodes, steps); MayReach(s.hubs, s.back, h, conn) && Follows(s, h, g, conn)
    ensures Breaks(nodes, steps, next, conn, Run(nodes, steps).back.numbered[h].life, i, j)
  {
    var s := Run(nodes, steps);
    if g in Consumer.FramesOf(s.back, conn) {
      next, i, j := WrittenBehind(nodes, steps, h, g, conn);
    } else {
      var mid := Continuations.Writes(nodes, steps, g, conn);
      Continuations.StillReachable(s, Run(nodes, mid), g, h, conn);
      next, i, j := WrittenBehind(nodes, mid, h, g, conn);
    }
  }

  /** A later handling is made. */
  lemma {:induction false} FollowedNow(nodes: nat, steps: seq<Step>, h: nat, conn: Fanout.Conn)
    returns (next: seq<Step>)
    requires h in SocketOrder.Abandoned(nodes, steps)
    requires var s := Run(nodes, steps); MayReach(s.hubs, s.back, h, conn) && CanFollow(s, h, conn)
    ensures Continuations.GoesOn(nodes, steps, next)
    ensures var s, t := Run(nodes, steps), Run(nodes, next);
            && s.back.numbered <= t.back.numbered && t.back.frames == s.back.frames
            && MayReach(t.hubs, t.back, h, conn) && Follows(t, h, |s.back.numbered|, conn)
  {
    next := Continuations.NumbersAnother(nodes, steps, Run(nodes, steps).back.numbered[h].user);
  }

  /** When an abandoned handling may still reach a connection, and a later one of its life and receiver
      is there, may reach it or can be made, the order on that connection can break without anything
      more being abandoned. */
  lemma {:induction false} AbandonedPushIsOvertaken(nodes: nat, steps: seq<Step>, h: nat, conn: Fanout.Conn)
    returns (next: seq<Step>, i: nat, j: nat)
    requires h in SocketOrder.Abandoned(nodes, steps)
    requires h < |Run(nodes, steps).back.numbered|
    requires Overtakable(Run(nodes, steps), h, conn, Run(nodes, steps).back.numbered[h].life)
    ensures Breaks(nodes, steps, next, conn, Run(nodes, steps).back.numbered[h].life, i, j)
  {
    var s := Run(nodes, steps);
    if g :| Follows(s, h, g, conn) {
      next, i, j := WrittenFirst(nodes, steps, h, g, conn);
    } else {
      var mid := FollowedNow(nodes, steps, h, conn);
      next, i, j := WrittenFirst(nodes, mid, h, |s.back.numbered|, conn);
    }
  }

  // ---- Exactly so ----

  /** From any reachable state, for any connection and any life of the consumer: the order can break
      without anything more being abandoned if and only if an abandoned handling of that life is
      overtakable there. */
  lemma {:induction false} OrderCanBreakIff(nodes: nat, steps: seq<Step>, conn: Fanout.Conn, life: nat)
    ensures CanBreak(nodes, steps, conn, life) <==>
            exists h :: h in SocketOrder.Abandoned(nodes, steps) && Overtakable(Run(nodes, steps), h, conn, life)
  {
    if CanBreak(nodes, steps, conn, life) {
      var next, i: nat, j: nat :| Breaks(nodes, steps, next, conn, life, i, j);
      var h := BreaksOnlySo(nodes, steps, next, conn, life, i, j);
    }
    if h :| h in SocketOrder.Abandoned(nodes, steps) && Overtakable(Run(nodes, steps), h, conn, life) {
      var next, i, j := AbandonedPushIsOvertaken(nodes, steps, h, conn);
      assert Breaks(nodes, steps, next, conn, life, i, j);
    }
  }

  /** So once no abandoned handling of a life may reach a connection any more, what is pushed to it from
      then on comes in order in that life, until another handling is abandoned. */
  lemma {:induction false} OrderHoldsFromHere(nodes: nat, steps: seq<Step>, next: seq<Step>, conn: Fanout.Conn,
                                              i: nat, j: nat)
    requires Continuations.GoesOn(nodes, steps, next)
    requires i < j && |Consumer.FramesOf(Run(nodes, steps).back, conn)| <= j
             && SocketOrder.OneLife(Run(nodes, next).back, conn, i, j)
    requires var s, c := Run(nodes, steps), Run(nodes, next).back;
             var life := c.numbered[Consumer.FramesOf(c, conn)[i]].life;
             forall h :: h in SocketOrder.Abandoned(nodes, steps) ==> !Overtakable(s, h, conn, life)
    ensures SocketOrder.NumberAt(Run(nodes, next).back, conn, i) < SocketOrder.NumberAt(Run(nodes, next).back, conn, j)
  {
    SocketOrder.PushedNumbersIncrease(nodes, next, conn, i, j);
    var c := Run(nodes, next).back;
    var life := c.numbered[Consumer.FramesOf(c, conn)[i]].life;
    if SocketOrder.NumberAt(c, conn, i) > SocketOrder.NumberAt(c, conn, j) {
      var h := BreaksOnlySo(nodes, steps, next, conn, life, i, j);
    } else {
      NumbersDiffer(nodes, next, conn, i, j);
    }
  }

  /** No connection has two frames with one number. */
  lemma {:induction false} NumbersDiffer(nodes: nat, steps: seq<Step>, conn: Fanout.Conn, i: nat, j: nat)
    requires i < j && SocketOrder.OneLife(Run(nodes, steps).back, conn, i, j)
    ensures SocketOrder.NumberAt(Run(nodes, steps).back, conn, i) !=
            SocketOrder.NumberAt(Run(nodes, steps).back, conn, j)
  {
    RunInv(nodes, steps);
    var s := Run(nodes, steps);
    var g, h := s.back.frames[conn][i], s.back.frames[conn][j];
    assert Reached(s.back, conn, g) && Reached(s.back, conn, h);
    assert Found(s, g, conn.node, conn) && Found(s, h, conn.node, conn);
    assert NoneTwice(s.back.frames[conn]);
  }
}
