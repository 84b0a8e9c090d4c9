/** What every run of the pipeline guarantees, whatever the schedule and the faults. */
module Guarantees {
  import opened Messages
  import opened Pipeline
  import Cache
  import Store
  import Front
  import Consumer

  // ---- The sending half ----

  function Answered(replies: seq<Front.Reply>): (es: seq<Front.Entry>)
    ensures |es| == |replies| && forall i :: 0 <= i < |es| ==> es[i] == replies[i].entry
  {
    seq(|replies|, i requires 0 <= i < |replies| => replies[i].entry)
  }

  function InFlight(phase: Front.Phase): seq<Front.Entry> {
    if phase.Idle? then [] else [phase.entry]
  }

  /** Every message accepted on a node is answered, in flight or queued, in acceptance order and
      each in one place; the queue is bounded. */
  lemma {:induction false} QueueConservation(nodes: nat, steps: seq<Step>, n: nat)
    requires n < |Run(nodes, steps).front.nodes|
    ensures var node := Run(nodes, steps).front.nodes[n];
            && node.accepted == Answered(node.replies) + InFlight(node.phase) + node.queue
            && |node.queue| <= 1024
  {
    RunInv(nodes, steps);
    PlacesOf(Run(nodes, steps).front.nodes[n]);
  }

  lemma {:induction false} PlacesOf(node: Front.Node)
    requires Front.Conserved(node)
    ensures node.accepted == Answered(node.replies) + InFlight(node.phase) + node.queue
  {
  }

  /** The content of the i-th reply a node sent. */
  function ReplyContent(s: Front.State, n: nat, i: nat): string
    requires n < |s.nodes| && i < |s.nodes[n].replies|
  {
    var r := s.nodes[n].replies[i];
    Front.ReplyTo(r.entry.msg, r.outcome).content
  }

  function ReplyId(s: Front.State, n: nat, i: nat): string
    requires n < |s.nodes| && i < |s.nodes[n].replies|
  {
    var r := s.nodes[n].replies[i];
    Front.ReplyTo(r.entry.msg, r.outcome).serverId
  }

  /** The offset of the one record of a positively answered message. */
  lemma {:induction false} PositiveAnswerIsDurable(nodes: nat, steps: seq<Step>, n: nat, i: nat) returns (k: nat)
    requires var f := Run(nodes, steps).front;
             n < |f.nodes| && i < |f.nodes[n].replies| && ReplyContent(f, n, i) == ""
    ensures var f := Run(nodes, steps).front;
            && k < |f.log| && !f.log[k].late
            && f.log[k].msg.serverId == ReplyId(f, n, i)
            && f.log[k].msg.localId == f.nodes[n].replies[i].entry.msg.localId
            && f.log[k].origin == Front.Origin(n, i)
            && forall o :: 0 <= o < |f.log| && f.log[o].origin == Front.Origin(n, i) ==> o == k
  {
    RunInv(nodes, steps);
    k := RecordOf(Run(nodes, steps).front, n, i);
  }

  lemma {:induction false} RecordOf(f: Front.State, n: nat, i: nat) returns (k: nat)
    requires Front.Inv(f) && n < |f.nodes| && i < |f.nodes[n].replies| && ReplyContent(f, n, i) == ""
    ensures k < |f.log| && !f.log[k].late && f.log[k].origin == Front.Origin(n, i)
    ensures f.log[k].msg.serverId == ReplyId(f, n, i)
    ensures f.log[k].msg.localId == f.nodes[n].replies[i].entry.msg.localId
    ensures forall o :: 0 <= o < |f.log| && f.log[o].origin == Front.Origin(n, i) ==> o == k
  {
    var node, o := f.nodes[n], Front.Origin(n, i);
    assert Front.Conserved(node);
    assert Front.Backed(f.log, node.OutcomeOf(i), node.accepted[i], o);
    k :| 0 <= k < |f.log| && f.log[k].origin == o && !f.log[k].late && f.log[k].msg.serverId == ReplyId(f, n, i);
    assert Front.Stems(f, f.log[k].msg, f.log[k].origin);
  }

  /** Once in the topic, always in the topic, at the same offset. */
  lemma {:induction false} TopicOnlyGrows(nodes: nat, steps: seq<Step>, k: nat)
    requires k <= |steps|
    ensures Run(nodes, steps[..k]).front.log <= Run(nodes, steps).front.log
  {
    if k == |steps| {
      assert steps[..k] == steps;
    } else {
      var init := steps[..|steps| - 1];
      TopicOnlyGrows(nodes, init, k);
      assert init[..k] == steps[..k];
      RunInv(nodes, init);
      KeepsInv(Run(nodes, init), steps[|steps| - 1]);
    }
  }

  /** What chat publishes is what the sender sent: in every run a record has the fields of the accepted
      message it came from, but for the id and the time chat gave it. */
  lemma {:induction false} RecordCarriesItsMessage(nodes: nat, steps: seq<Step>, k: nat)
    requires k < |Run(nodes, steps).front.log|
    ensures var f := Run(nodes, steps).front;
            var o, m := f.log[k].origin, f.log[k].msg;
            && o.node < |f.nodes| && o.index < |f.nodes[o.node].accepted|
            && var sent := f.nodes[o.node].accepted[o.index].msg;
               && m.sendId == sent.sendId && m.receiverId == sent.receiverId && m.localId == sent.localId
               && m.createTime == sent.createTime && m.number == sent.number && m.msgType == sent.msgType
               && m.contentType == sent.contentType && m.content == sent.content && m.isRead == sent.isRead
  {
    RunInv(nodes, steps);
    var f := Run(nodes, steps).front;
    assert Front.Stems(f, f.log[k].msg, f.log[k].origin);
  }

  // ---- End-to-end order ----

  /** Handling `h` is a handling of the i-th message accepted on node `n`. */
  ghost predicate Handles(s: State, h: nat, n: nat, i: nat) {
    && h < |s.back.numbered| && s.back.numbered[h].offset < |s.front.log|
    && s.front.log[s.back.numbered[h].offset].origin == Front.Origin(n, i)
  }

  /** The x-th and the y-th message accepted on a node go to one receiver and were answered with empty
      content. */
  ghost predicate BothAnswered(s: State, n: nat, x: nat, y: nat) {
    && n < |s.front.nodes| && x < y < |s.front.nodes[n].replies|
    && ReplyContent(s.front, n, x) == "" && ReplyContent(s.front, n, y) == ""
    && s.front.nodes[n].replies[x].entry.msg.receiverId == s.front.nodes[n].replies[y].entry.msg.receiverId
  }

  /** Two messages accepted on one node (from one connection, say) for one receiver, both answered
      with empty content and both handled in one life of the consumer, get their numbers in the
      order they were accepted, however they interleave with anything else. */
  lemma {:induction false} EndToEndOrder(nodes: nat, steps: seq<Step>, n: nat, i: nat, j: nat, g: nat, h: nat)
    requires var s := Run(nodes, steps);
             BothAnswered(s, n, i, j) && Handles(s, g, n, i) && Handles(s, h, n, j)
             && s.back.numbered[g].life == s.back.numbered[h].life
    ensures Run(nodes, steps).back.numbered[g].number < Run(nodes, steps).back.numbered[h].number
  {
    RunInv(nodes, steps);
    var s := Run(nodes, steps);
    HandledInOrder(s, n, i, j, g, h);
    assert s.back.numbered[g].user == s.back.numbered[h].user by {
      HandledFor(s, n, i, g);
      HandledFor(s, n, j, h);
    }
  }

  /** The records of positively answered messages lie in acceptance order, and so do their handlings
      within a life. */
  lemma {:induction false} HandledInOrder(s: State, n: nat, i: nat, j: nat, g: nat, h: nat)
    requires Front.Inv(s.front) && Consumer.OrderInv(s.back)
    requires n < |s.front.nodes| && i < j < |s.front.nodes[n].replies|
    requires ReplyContent(s.front, n, i) == "" && ReplyContent(s.front, n, j) == ""
    requires Handles(s, g, n, i) && Handles(s, h, n, j)
    requires s.back.numbered[g].life == s.back.numbered[h].life
    ensures g < h
  {
  }

  lemma {:induction false} HandledFor(s: State, n: nat, i: nat, h: nat)
    requires Inv(s) && n < |s.front.nodes| && i < |s.front.nodes[n].replies| && Handles(s, h, n, i)
    ensures s.back.numbered[h].user == s.front.nodes[n].replies[i].entry.msg.receiverId
  {
  }

  // ---- Commits ----

  /** Every offset below the committed one was received, and the record just below it was numbered
      with both its dispatch tasks ended. */
  lemma {:induction false} CommitSafety(nodes: nat, steps: seq<Step>)
    ensures var s := Run(nodes, steps);
            && s.back.committed <= |s.front.log|
            && (forall o: nat :: o < s.back.committed ==> o in s.back.received)
            && (s.back.committed > 0 ==>
                  exists h :: 0 <= h < |s.back.numbered| && s.back.numbered[h].offset + 1 == s.back.committed &&
                              h in s.back.saveEnds && h in s.back.pushEnds)
  {
    RunInv(nodes, steps);
    var b := Run(nodes, steps).back;
    assert Consumer.Reached(b, b.committed);
    assert b.committed > 0 ==> b.committed - 1 in b.received;
  }

  /** So a restarted consumer begins past nothing that was never received. */
  lemma {:induction false} RestartSkipsNothingUnseen(nodes: nat, steps: seq<Step>)
    requires Run(nodes, steps).back.phase.Down?
    ensures var b := Next(Run(nodes, steps), Consume(Consumer.Restart)).back;
            && b.phase.Ready? && b.position == Run(nodes, steps).back.committed
            && forall o: nat :: o < b.position ==> o in Run(nodes, steps).back.received
  {
    CommitSafety(nodes, steps);
    Restarted(Topic(Run(nodes, steps)), Run(nodes, steps).back);
  }

  lemma {:induction false} Restarted(log: seq<Msg>, b: Consumer.State)
    requires b.phase.Down?
    ensures Consumer.Next(log, b, Consumer.Restart) ==
            b.(phase := Consumer.Ready, position := b.committed, life := b.life + 1)
  {
  }

  // ---- The table ----

  /** In every run the table is exactly the rows of the records that were ever saved, one row each,
      whatever was redelivered, renumbered or repeated. */
  lemma {:induction false} TableHoldsSavedRecordsOnce(nodes: nat, steps: seq<Step>)
    ensures var s := Run(nodes, steps);
            && (forall r :: r in s.back.stored ==> r < |Topic(s)|)
            && Store.IsTableOf(s.back.rows, Topic(s), s.back.stored)
            && |s.back.rows| == |s.back.stored|
  {
    RunInv(nodes, steps);
    var s := Run(nodes, steps);
    FreshIdsMakeKeysDistinct(s);
    Store.OneRowPerRecord(s.back.rows, Topic(s), s.back.stored);
  }

  // ---- Numbers ----

  /** Over all lives and redeliveries, one receiver's numbers strictly increase in the order they
      are assigned, so none is used twice, and they lie between 1 and the counter. */
  lemma {:induction false} NumbersNeverReused(nodes: nat, steps: seq<Step>, g: nat, h: nat)
    requires g < h < |Run(nodes, steps).back.numbered|
    requires Run(nodes, steps).back.numbered[g].user == Run(nodes, steps).back.numbered[h].user
    ensures var b := Run(nodes, steps).back;
            1 <= b.numbered[g].number < b.numbered[h].number <= Cache.CounterOf(b.counters, b.numbered[h].user)
  {
    RunInv(nodes, steps);
    var s := Run(nodes, steps);
    assert Consumer.NumberOk(Topic(s), s.back, s.back.numbered[g]);
    assert Consumer.NumberOk(Topic(s), s.back, s.back.numbered[h]);
  }
}
