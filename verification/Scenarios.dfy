/** Concrete runs of the whole pipeline in which a promise of the design is not kept: a node takes
    messages, chat publishes them, and one thing goes wrong at the consumer. */
module Scenarios {
  import opened Wrappers
  import opened Messages
  import opened Pipeline
  import Chat
  import Cache
  import Store
  import Front
  import Hub
  import Fanout
  import Consumer
  import Delivery
  import SocketOrder
  import Overtaking

  // ---- Sending ----

  /** A message handed to node 0, published under `id` and answered. */
  function Sends(m: Msg, id: string): seq<Step> {
    [Ws(Front.Accept(0, None, m)), Ws(Front.Take(0)), Ws(Front.Deliver(0, id, 0)), Ws(Front.SendBack(0))]
  }

  /** Node 0 is the only one and has nothing to do. */
  ghost predicate Resting(f: Front.State) {
    |f.nodes| == 1 && f.nodes[0].phase.Idle? && f.nodes[0].queue == []
  }

  lemma {:induction false} AfterFour(s: State, a: Step, b: Step, c: Step, d: Step)
    ensures After(s, [a, b, c, d]) == Next(Next(Next(Next(s, a), b), c), d)
  {
    AfterOne(s, a);
    assert [a, b, c, d][..3] == [a, b, c] && [a, b, c][..2] == [a, b] && [a, b][..1] == [a];
    assert After(s, [a, b]) == Next(After(s, [a]), b);
    assert After(s, [a, b, c]) == Next(After(s, [a, b]), c);
  }

  lemma {:induction false} Sent(s: State, m: Msg, id: string)
    requires Resting(s.front) && id !in s.front.used
    ensures var t := After(s, Sends(m, id));
            && Resting(t.front) && t.back == s.back && t.hubs == s.hubs
            && t.front.used == s.front.used + {id}
            && Topic(t) == Topic(s) + [Chat.Stamped(m, id, 0)]
  {
    var steps := Sends(m, id);
    AfterFour(s, steps[0], steps[1], steps[2], steps[3]);
  }

  function TwoSent(m1: Msg, m2: Msg): seq<Step> {
    Sends(m1, "a") + Sends(m2, "b")
  }

  lemma {:induction false} SentTwo(s: State, m1: Msg, m2: Msg)
    requires Resting(s.front) && s.front.used == {} && Topic(s) == []
    ensures var t := After(s, TwoSent(m1, m2));
            && t.back == s.back && t.hubs == s.hubs
            && Topic(t) == [Chat.Stamped(m1, "a", 0), Chat.Stamped(m2, "b", 0)]
  {
    AfterAppend(s, Sends(m1, "a"), Sends(m2, "b"));
    Sent(s, m1, "a");
    Sent(After(s, Sends(m1, "a")), m2, "b");
  }

  lemma {:induction false} AfterTwoSent(m1: Msg, m2: Msg)
    ensures var s := Run(1, TwoSent(m1, m2));
            && s.back == Consumer.Init && |s.hubs| == 1 && s.hubs[0] == Hub.Init
            && Topic(s) == [Chat.Stamped(m1, "a", 0), Chat.Stamped(m2, "b", 0)]
  {
    RunAppend(1, [], TwoSent(m1, m2));
    assert [] + TwoSent(m1, m2) == TwoSent(m1, m2);
    SentTwo(Init(1), m1, m2);
  }

  // ---- Consuming ----

  function Consumes(cs: seq<Consumer.Step>): (steps: seq<Step>)
    ensures |steps| == |cs| && forall i :: 0 <= i < |cs| ==> steps[i] == Consume(cs[i])
  {
    seq(|cs|, i requires 0 <= i < |cs| => Consume(cs[i]))
  }

  /** An instance finds nobody when nobody is connected. */
  predicate FindsNobody(s: State, c: Consumer.Step) {
    c.Fan? && c.step.Lookup? ==> c.step.node == 0 && c.step.clients == {} && |s.hubs| > 0 && s.hubs[0] == Hub.Init
  }

  /** As long as nobody is found, the consumer's steps are a run of the consumer machine. */
  lemma {:induction false} AfterConsumes(s: State, cs: seq<Consumer.Step>)
    requires Consumer.PushesInv(s.back) && forall c :: c in cs ==> FindsNobody(s, c)
    ensures After(s, Consumes(cs)) == s.(back := Consumer.Play(Topic(s), s.back, cs))
    ensures Consumer.PushesInv(Consumer.Play(Topic(s), s.back, cs))
  {
    if cs != [] {
      var init, last := cs[..|cs| - 1], cs[|cs| - 1];
      assert last in cs && forall c :: c in init ==> c in cs;
      AfterConsumes(s, init);
      assert Consumes(cs)[..|cs| - 1] == Consumes(init);
      Consumer.NextRemembers(Topic(s), Consumer.Play(Topic(s), s.back, init), last);
    }
  }

  /** A push to a node where nobody is connected. */
  function Pushing(h: nat): seq<Consumer.Step> {
    [Consumer.StartPush(h, {0}), Consumer.Fan(h, Fanout.Lookup(0, {})), Consumer.Fan(h, Fanout.NodeDone(0))]
  }

  lemma {:induction false} Pushed(log: seq<Msg>, b: Consumer.State, h: nat)
    requires h < |b.numbered| && h !in b.pushes
    ensures var c := Consumer.Play(log, b, Pushing(h));
            c == b.(pushes := c.pushes) && h in c.pushes && c.pushes[h].waiting == {}
  {
    var steps := Pushing(h);
    var b1 := Consumer.Next(log, b, steps[0]);
    var b2 := Consumer.Next(log, b1, steps[1]);
    assert b2.pushes[h] == Fanout.Started({0}).(lookups := map[0 := {}]);
    var b3 := Consumer.Next(log, b2, steps[2]);
    Consumer.PlayIsChain(log, b, steps, [b1, b2, b3]);
  }

  function Committing(to: nat): seq<Consumer.Step> {
    [Consumer.PushReturns, Consumer.Join, Consumer.Commit, Consumer.BrokerCommits(to)]
  }

  lemma {:induction false} Committed(log: seq<Msg>, b: Consumer.State, h: nat, to: nat)
    requires b.phase == Consumer.Dispatched(h, true, false) && h < |b.numbered| && b.numbered[h].offset + 1 == to
    requires h in b.pushes && b.pushes[h].waiting == {}
    ensures var c := Consumer.Play(log, b, Committing(to));
            c == b.(phase := Consumer.Ready, pushEnds := b.pushEnds + {h}, committed := to, commits := b.commits - {to})
  {
    var steps := Committing(to);
    var b1 := Consumer.Next(log, b, steps[0]);
    var b2 := Consumer.Next(log, b1, steps[1]);
    var b3 := Consumer.Next(log, b2, steps[2]);
    assert b3 == b.(phase := Consumer.Ready, pushEnds := b.pushEnds + {h}, commits := b.commits + {to});
    var b4 := Consumer.Next(log, b3, steps[3]);
    assert b.commits + {to} - {to} == b.commits - {to};
    Consumer.PlayIsChain(log, b, steps, [b1, b2, b3, b4]);
  }

  /** The pushing and committing half of a handling whose save has ended. */
  function Finishing(h: nat, to: nat): seq<Consumer.Step> {
    Pushing(h) + Committing(to)
  }

  lemma {:induction false} Finished(log: seq<Msg>, b: Consumer.State, h: nat, to: nat)
    requires b.phase == Consumer.Dispatched(h, true, false) && h < |b.numbered| && h !in b.pushes
    requires b.numbered[h].offset + 1 == to
    ensures var c := Consumer.Play(log, b, Finishing(h, to));
            && c.committed == to && c.numbered == b.numbered && c.rows == b.rows
            && c.saveEnds == b.saveEnds && c.pushEnds == b.pushEnds + {h}
  {
    Consumer.PlayAppend(log, b, Pushing(h), Committing(to));
    Pushed(log, b, h);
    Committed(log, Consumer.Play(log, b, Pushing(h)), h, to);
  }

  function Numbering(): seq<Consumer.Step> {
    [Consumer.Receive, Consumer.Number]
  }

  lemma {:induction false} Numbered(log: seq<Msg>, b: Consumer.State)
    requires b.phase.Ready? && b.position < |log| && Cache.CanBump(b.counters, log[b.position].receiverId)
    ensures var c := Consumer.Play(log, b, Numbering());
            && c.phase == Consumer.Dispatched(|b.numbered|, false, false)
            && |c.numbered| == |b.numbered| + 1 && b.numbered <= c.numbered
            && c.numbered[|b.numbered|].offset == b.position
            && c.numbered[|b.numbered|].user == log[b.position].receiverId && c.numbered[|b.numbered|].life == b.life
            && c == b.(phase := c.phase, numbered := c.numbered,
                       counters := Cache.Bumped(b.counters, log[b.position].receiverId),
                       position := b.position + 1, received := b.received + {b.position})
  {
    var b1 := Consumer.Next(log, b, Consumer.Receive);
    var b2 := Consumer.Next(log, b1, Consumer.Number);
    Consumer.PlayIsChain(log, b, Numbering(), [b1, b2]);
  }

  function Saving(h: nat): seq<Consumer.Step> {
    [Consumer.StoreRow(h), Consumer.SaveSucceeds]
  }

  lemma {:induction false} Saved(log: seq<Msg>, b: Consumer.State, h: nat)
    requires b.phase == Consumer.Dispatched(h, false, false) && h < |b.numbered| && b.numbered[h].offset < |log|
    ensures var c, n := Consumer.Play(log, b, Saving(h)), b.numbered[h];
            c == b.(phase := Consumer.Dispatched(h, true, false), saveEnds := b.saveEnds + {h},
                    stored := b.stored + {n.offset},
                    rows := Store.Insert(b.rows, log[n.offset].(number := n.number)))
  {
    var b1 := Consumer.Next(log, b, Consumer.StoreRow(h));
    var b2 := Consumer.Next(log, b1, Consumer.SaveSucceeds);
    Consumer.PlayIsChain(log, b, Saving(h), [b1, b2]);
  }

  /** The next record is handled without any fault, as handling `h`, and committed. */
  function Handling(h: nat, to: nat): seq<Consumer.Step> {
    Numbering() + Saving(h) + Finishing(h, to)
  }

  lemma {:induction false} Handled(log: seq<Msg>, b: Consumer.State)
    requires b.phase.Ready? && b.position < |log| && Cache.CanBump(b.counters, log[b.position].receiverId)
    requires Consumer.PushesInv(b)
    ensures var h, o := |b.numbered|, b.position;
            var c := Consumer.Play(log, b, Handling(h, o + 1));
            && c.committed == o + 1 && |c.numbered| == h + 1 && b.numbered <= c.numbered && c.numbered[h].offset == o
            && c.saveEnds == b.saveEnds + {h} && c.rows == Store.Insert(b.rows, log[o].(number := c.numbered[h].number))
  {
    var h, to := |b.numbered|, b.position + 1;
    Consumer.PlayAppend(log, b, Numbering(), Saving(h));
    Consumer.PlayAppend(log, b, Numbering() + Saving(h), Finishing(h, to));
    Numbered(log, b);
    var b1 := Consumer.Play(log, b, Numbering());
    Saved(log, b1, h);
    Finished(log, Consumer.Play(log, b1, Saving(h)), h, to);
  }

  // ---- Records a commit steps over ----

  /** The record is committed, was never handled to the end, and its key is not in the table. */
  ghost predicate SteppedOver(s: State, o: nat) {
    o < s.back.committed <= |Topic(s)| && !Delivery.Done(s.back, o) && Store.KeyOf(Topic(s)[o]) !in s.back.rows
  }

  /** The consumer goes past the first of two records and handles the second without any fault. */
  lemma {:induction false} GoesPast(m1: Msg, m2: Msg, past: seq<Consumer.Step>, h: nat)
    requires forall c :: c in past ==> FindsNobody(Run(1, TwoSent(m1, m2)), c)
    requires var b := Consumer.Play(Topic(Run(1, TwoSent(m1, m2))), Consumer.Init, past);
             && b.phase == Consumer.Ready && b.position == 1 && h == |b.numbered| && b.rows == map[]
             && Consumer.PushesInv(b) && Cache.CanBump(b.counters, m2.receiverId)
             && forall g :: 0 <= g < h ==> g !in b.saveEnds
    ensures SteppedOver(Run(1, TwoSent(m1, m2) + Consumes(past + Handling(h, 2))), 0)
  {
    AfterTwoSent(m1, m2);
    var log := Topic(Run(1, TwoSent(m1, m2)));
    Consumer.PlayAppend(log, Consumer.Init, past, Handling(h, 2));
    LeavesBehind(log, Consumer.Play(log, Consumer.Init, past));
    AfterSteps(m1, m2, past + Handling(h, 2));
  }

  lemma {:induction false} LeavesBehind(log: seq<Msg>, b: Consumer.State)
    requires |log| == 2 && Store.KeyOf(log[0]) != Store.KeyOf(log[1])
    requires b.phase == Consumer.Ready && b.position == 1 && b.rows == map[] && Consumer.PushesInv(b)
    requires Cache.CanBump(b.counters, log[1].receiverId) && forall g :: 0 <= g < |b.numbered| ==> g !in b.saveEnds
    ensures var c := Consumer.Play(log, b, Handling(|b.numbered|, 2));
            c.committed == 2 && !Delivery.Done(c, 0) && Store.KeyOf(log[0]) !in c.rows
  {
    Handled(log, b);
  }

  /** A record whose increment failed is stepped over by the next one's commit. */
  lemma {:induction false} FailedIncrementIsSteppedOver(m1: Msg, m2: Msg)
    ensures var steps := [Consumer.Receive, Consumer.NumberFails(false)] + Handling(0, 2);
            SteppedOver(Run(1, TwoSent(m1, m2) + Consumes(steps)), 0)
  {
    AfterTwoSent(m1, m2);
    var log, past := Topic(Run(1, TwoSent(m1, m2))), [Consumer.Receive, Consumer.NumberFails(false)];
    var b1 := Consumer.Next(log, Consumer.Init, Consumer.Receive);
    var b2 := Consumer.Next(log, b1, Consumer.NumberFails(false));
    Consumer.PlayIsChain(log, Consumer.Init, past, [b1, b2]);
    GoesPast(m1, m2, past, 0);
  }

  /** So is a record whose save task died. */
  lemma {:induction false} DeadTaskIsSteppedOver(m1: Msg, m2: Msg)
    ensures SteppedOver(Run(1, TwoSent(m1, m2) + Consumes(Numbering() + [Consumer.JoinFails] + Handling(1, 2))), 0)
  {
    AfterTwoSent(m1, m2);
    var log, past := Topic(Run(1, TwoSent(m1, m2))), Numbering() + [Consumer.JoinFails];
    Numbered(log, Consumer.Init);
    assert past[..2] == Numbering();
    var numbered := Consumer.Play(log, Consumer.Init, Numbering());
    assert Consumer.Play(log, Consumer.Init, past) == Consumer.Next(log, numbered, Consumer.JoinFails);
    GoesPast(m1, m2, past, 1);
  }

  lemma {:induction false} AfterSteps(m1: Msg, m2: Msg, cs: seq<Consumer.Step>)
    requires forall c :: c in cs ==> FindsNobody(Run(1, TwoSent(m1, m2)), c)
    ensures var s, t := Run(1, TwoSent(m1, m2)), Run(1, TwoSent(m1, m2) + Consumes(cs));
            Topic(t) == Topic(s) && t.back == Consumer.Play(Topic(s), Consumer.Init, cs)
  {
    AfterTwoSent(m1, m2);
    RunAppend(1, TwoSent(m1, m2), Consumes(cs));
    AfterConsumes(Run(1, TwoSent(m1, m2)), cs);
  }

  /** A record whose save failed is committed all the same, and the table stays empty. */
  lemma {:induction false} FailedSaveIsCommitted(m1: Msg, m2: Msg)
    ensures var s := Run(1, TwoSent(m1, m2) + Consumes(Numbering() + [Consumer.SaveFails] + Finishing(0, 1)));
            s.back.committed == 1 && s.back.rows == map[]
  {
    AfterTwoSent(m1, m2);
    var log := Topic(Run(1, TwoSent(m1, m2)));
    var failing := Numbering() + [Consumer.SaveFails];
    Numbered(log, Consumer.Init);
    var b1 := Consumer.Play(log, Consumer.Init, Numbering());
    var b2 := Consumer.Next(log, b1, Consumer.SaveFails);
    assert failing[..2] == Numbering();
    assert Consumer.Play(log, Consumer.Init, failing) == b2;
    Consumer.PlayAppend(log, Consumer.Init, failing, Finishing(0, 1));
    Finished(log, b2, 0, 1);
    AfterSteps(m1, m2, failing + Finishing(0, 1));
  }

  // ---- A message overtaken on its connection ----

  /** A push starts, its call fails at the consumer, the record is committed. */
  function LosingThePush(): seq<Consumer.Step> {
    [Consumer.StartPush(0, {0}), Consumer.PushFails, Consumer.Join, Consumer.Commit]
  }

  lemma {:induction false} LostThePush(log: seq<Msg>, b: Consumer.State)
    requires b.phase == Consumer.Dispatched(0, true, false) && |b.numbered| == 1 && b.pushes == map[]
    ensures var c := Consumer.Play(log, b, LosingThePush());
            c == b.(phase := Consumer.Ready, pushes := map[0 := Fanout.Started({0})], pushEnds := c.pushEnds,
                    commits := c.commits)
  {
    var steps := LosingThePush();
    var b1 := Consumer.Next(log, b, steps[0]);
    var b2 := Consumer.Next(log, b1, steps[1]);
    assert b1 == b.(pushes := map[0 := Fanout.Started({0})]);
    assert b2 == b.(phase := Consumer.Dispatched(0, true, true), pushes := b1.pushes, pushEnds := b.pushEnds + {0});
    var b3 := Consumer.Next(log, b2, steps[2]);
    assert b3 == b2.(phase := Consumer.Joined(0));
    var b4 := Consumer.Next(log, b3, steps[3]);
    Consumer.PlayIsChain(log, b, steps, [b1, b2, b3, b4]);
  }

  function Abandoning(): seq<Consumer.Step> {
    Numbering() + Saving(0) + LosingThePush()
  }

  lemma {:induction false} FirstAbandoned(log: seq<Msg>)
    requires log != []
    ensures var b := Consumer.Play(log, Consumer.Init, Abandoning());
            && b.phase == Consumer.Ready && b.position == 1 && b.life == 0 && |b.numbered| == 1
            && b.numbered[0].user == log[0].receiverId && b.numbered[0].life == 0
            && b.pushes == map[0 := Fanout.Started({0})]
            && Cache.CounterOf(b.counters, log[0].receiverId) == 1
  {
    Consumer.PlayAppend(log, Consumer.Init, Numbering(), Saving(0));
    Consumer.PlayAppend(log, Consumer.Init, Numbering() + Saving(0), LosingThePush());
    Numbered(log, Consumer.Init);
    Saved(log, Consumer.Play(log, Consumer.Init, Numbering()), 0);
    LostThePush(log, Consumer.Play(log, Consumer.Init, Numbering() + Saving(0)));
  }

  /** The receiver is connected, two messages for it are sent, the push call of the first fails at the
      consumer. */
  function LostPush(m1: Msg, m2: Msg): seq<Step> {
    [Conn(0, Hub.Open(0, m1.receiverId, "phone"))] + TwoSent(m1, m2) + Consumes(Abandoning())
  }

  lemma {:induction false} AfterLostPush(m1: Msg, m2: Msg)
    ensures var s := Run(1, LostPush(m1, m2));
            && |s.hubs| == 1 && s.hubs[0].table == map[m1.receiverId := map["phone" := 0]]
            && Topic(s) == [Chat.Stamped(m1, "a", 0), Chat.Stamped(m2, "b", 0)]
            && s.back == Consumer.Play(Topic(s), Consumer.Init, Abandoning())
  {
    var open := Conn(0, Hub.Open(0, m1.receiverId, "phone"));
    var s := Next(Init(1), open);
    assert [open][..0] == [] && Run(1, [open]) == s;
    RunAppend(1, [open], TwoSent(m1, m2));
    RunAppend(1, [open] + TwoSent(m1, m2), Consumes(Abandoning()));
    SentTwo(s, m1, m2);
    AfterConsumes(After(s, TwoSent(m1, m2)), Abandoning());
  }

  /** From there the second message can arrive before the first on the receiver's connection. */
  lemma {:induction false} FailedPushIsOvertaken(m1: Msg, m2: Msg) returns (steps: seq<Step>, i: nat, j: nat)
    requires m1.receiverId == m2.receiverId
    ensures Overtaking.Breaks(1, LostPush(m1, m2), steps, Fanout.Conn(0, 0), 0, i, j)
  {
    AfterLostPush(m1, m2);
    FirstAbandoned(Topic(Run(1, LostPush(m1, m2))));
    SocketOrder.LeftIsAbandoned(1, LostPush(m1, m2), 0);
    var s := Run(1, LostPush(m1, m2));
    assert s.hubs[0].table[m1.receiverId]["phone"] == 0;
    assert Fanout.Conn(0, 0) in Filed(s.hubs[0], 0, m1.receiverId);
    assert Overtaking.Overtakable(s, 0, Fanout.Conn(0, 0), 0);
    steps, i, j := Overtaking.AbandonedPushIsOvertaken(1, LostPush(m1, m2), 0, Fanout.Conn(0, 0));
  }
}
