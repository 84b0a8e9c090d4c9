/** Without faults the pipeline refines a small atomic service: sending appends the next accepted
    message of a node to one log, handling gives the next log record its rank among the records to
    the same receiver, saving stores its row. */
module Refinement {
  import opened Messages
  import opened Pipeline
  import Chat
  import Store
  import Front
  import Consumer
  import Numbers
  import Guarantees

  // ---- The atomic service ----

  /** `sent[n]` of the messages accepted on node `n` are in the log. */
  datatype Service = Service(
    accepted: seq<seq<Front.Entry>>,
    sent: seq<nat>,
    log: seq<Msg>,
    numbers: seq<int>,
    table: Store.Table
  )

  datatype Move = Stay | Post(n: nat, entry: Front.Entry) | Send(n: nat, id: string, now: int) | Handle | Save(i: nat)

  /** How many of the messages go to a receiver. */
  function CountTo(log: seq<Msg>, user: string): nat {
    if log == [] then 0 else CountTo(log[..|log| - 1], user) + if log[|log| - 1].receiverId == user then 1 else 0
  }

  /** A record's rank among the records to its receiver, from 1. */
  function Rank(log: seq<Msg>, i: nat): nat
    requires i < |log|
  {
    CountTo(log[..i + 1], log[i].receiverId)
  }

  ghost predicate CanMove(a: Service, move: Move) {
    match move
    case Stay => true
    case Post(n, _) => n < |a.accepted|
    case Send(n, id, _) =>
      && n < |a.sent| && n < |a.accepted| && a.sent[n] < |a.accepted[n]|
      && forall k :: 0 <= k < |a.log| ==> a.log[k].serverId != id
    case Handle => |a.numbers| < |a.log|
    case Save(i) => i < |a.numbers| && i < |a.log|
  }

  function Moved(a: Service, move: Move): Service
    requires CanMove(a, move)
  {
    match move
    case Stay => a
    case Post(n, entry) => a.(accepted := a.accepted[n := a.accepted[n] + [entry]])
    case Send(n, id, now) =>
      a.(sent := a.sent[n := a.sent[n] + 1], log := a.log + [Chat.Stamped(a.accepted[n][a.sent[n]].msg, id, now)])
    case Handle => a.(numbers := a.numbers + [Rank(a.log, |a.numbers|)])
    case Save(i) => a.(table := Store.Insert(a.table, a.log[i]))
  }

  // ---- The mapping ----

  function Abs(s: State): Service {
    Service(
      seq(|s.front.nodes|, n requires 0 <= n < |s.front.nodes| => s.front.nodes[n].accepted),
      seq(|s.front.nodes|, n requires 0 <= n < |s.front.nodes| => s.front.nodes[n].Called()),
      Topic(s),
      seq(|s.back.numbered|, h requires 0 <= h < |s.back.numbered| => s.back.numbered[h].number),
      s.back.rows)
  }

  /** The move a step makes. */
  ghost function MoveOf(s: State, step: Step): Move {
    if !Allowed(s, step) then Stay
    else match step
      case Ws(ws) =>
        if !Front.Enabled(s.front, ws) then Stay
        else if ws.Accept? then Post(ws.n, Front.Entry(ws.conn, ws.msg))
        else if ws.Deliver? then Send(ws.n, ws.id, ws.now)
        else Stay
      case Conn(_, _) => Stay
      case Consume(c) =>
        if !Consumer.Enabled(Topic(s), s.back, c) then Stay
        else if c.Number? then Handle
        else if c.StoreRow? then Save(c.h)
        else Stay
  }

  predicate FaultFree(step: Step) {
    match step
    case Ws(ws) => !ws.Refuse? && !ws.Fail? && !ws.Lose? && !ws.Surface?
    case Conn(_, _) => true
    case Consume(c) => !c.NumberFails? && !c.SaveFails? && !c.PushFails? && !c.JoinFails? && !c.Crash? && !c.Restart?
  }

  // ---- What fault-free runs keep ----

  ghost predicate AllDelivered(f: Front.State) {
    && f.pending == map[]
    && (forall n, i :: 0 <= n < |f.nodes| && 0 <= i < f.nodes[n].Called() ==>
                         f.nodes[n].OutcomeOf(i).Response? && f.nodes[n].OutcomeOf(i).answer.err == "")
  }

  ghost predicate InStep(b: Consumer.State) {
    && b.life == 0 && !b.phase.Down? && b.lost == []
    && b.position == |b.numbered| + (if b.phase.Received? then 1 else 0)
    && (forall h :: 0 <= h < |b.numbered| ==> b.numbered[h].offset == h)
    && (forall h: nat :: h in b.stored ==> h < |b.numbered|)
    && (forall h: nat :: h < |b.numbered| && !(b.phase.Dispatched? && b.phase.h == h && !b.phase.saveEnded) ==>
                           h in b.stored)
  }

  lemma {:induction false} KeepsDelivered(f: Front.State, step: Front.Step)
    requires Front.NodesInv(f) && AllDelivered(f) && FaultFree(Ws(step))
    ensures AllDelivered(Front.Next(f, step))
  {
    var g := Front.Next(f, step);
    forall n, i | 0 <= n < |g.nodes| && 0 <= i < g.nodes[n].Called()
      ensures g.nodes[n].OutcomeOf(i).Response? && g.nodes[n].OutcomeOf(i).answer.err == ""
    {
      assert i < f.nodes[n].Called() ==> f.nodes[n].OutcomeOf(i).Response? && f.nodes[n].OutcomeOf(i).answer.err == "";
    }
  }

  lemma {:induction false} KeepsInStep(log: seq<Msg>, b: Consumer.State, step: Consumer.Step)
    requires Consumer.PhaseInv(b) && InStep(b) && FaultFree(Consume(step))
    ensures InStep(Consumer.Next(log, b, step))
  {
  }

  lemma {:induction false} RunHealthy(nodes: nat, steps: seq<Step>)
    requires forall st :: st in steps ==> FaultFree(st)
    ensures AllDelivered(Run(nodes, steps).front) && InStep(Run(nodes, steps).back)
  {
    if steps != [] {
      var init, last := steps[..|steps| - 1], steps[|steps| - 1];
      var s := Run(nodes, init);
      assert last in steps;
      RunHealthy(nodes, init);
      RunInv(nodes, init);
      if Allowed(s, last) {
        match last
        case Ws(ws) => KeepsDelivered(s.front, ws);
        case Conn(_, _) =>
        case Consume(c) => KeepsInStep(Topic(s), s.back, c);
      }
    }
  }

  /** Without lost increments a handling's rank is its record's rank. */
  lemma {:induction false} CountsAgree(log: seq<Msg>, ns: seq<Consumer.Numbering>, user: string)
    requires |ns| <= |log|
    requires forall h :: 0 <= h < |ns| ==> ns[h].user == log[h].receiverId
    ensures Numbers.CountOf(ns, user) == CountTo(log[..|ns|], user)
  {
    if ns != [] {
      CountsAgree(log, ns[..|ns| - 1], user);
      assert log[..|ns|][..|ns| - 1] == log[..|ns| - 1];
    }
  }

  lemma {:induction false} NumberIsRecordRank(nodes: nat, steps: seq<Step>, h: nat)
    requires forall st :: st in steps ==> FaultFree(st)
    requires h < |Run(nodes, steps).back.numbered|
    ensures var s := Run(nodes, steps);
            s.back.numbered[h].offset == h < |Topic(s)| && s.back.numbered[h].number == Rank(Topic(s), h)
  {
    RunHealthy(nodes, steps);
    RunInv(nodes, steps);
    Numbers.RunGap(nodes, steps);
    var s := Run(nodes, steps);
    assert Numbers.RankOk(s.back, h);
    HandledAreRecords(Topic(s), s.back, h + 1);
    CountsAgree(Topic(s), s.back.numbered[..h + 1], s.back.numbered[h].user);
  }

  /** The handlings are the first records, one each. */
  lemma {:induction false} HandledAreRecords(log: seq<Msg>, b: Consumer.State, k: nat)
    requires Consumer.NumbersInv(log, b) && InStep(b) && k <= |b.numbered|
    ensures k <= |log|
    ensures forall g :: 0 <= g < k ==> b.numbered[..k][g].offset == g && b.numbered[..k][g].user == log[g].receiverId
  {
    forall g | 0 <= g < k
      ensures b.numbered[g].offset == g < |log| && b.numbered[g].user == log[g].receiverId
    {
      assert Consumer.NumberOk(log, b, b.numbered[g]);
    }
    assert k > 0 ==> b.numbered[k - 1].offset == k - 1;
  }

  // ---- The refinement ----

  /** Every step of a fault-free run is one move of the atomic service, or none. */
  lemma {:induction false} RefinesService(nodes: nat, steps: seq<Step>, step: Step)
    requires FaultFree(step) && forall st :: st in steps ==> FaultFree(st)
    ensures var s := Run(nodes, steps);
            CanMove(Abs(s), MoveOf(s, step)) && Abs(Next(s, step)) == Moved(Abs(s), MoveOf(s, step))
  {
    RunInv(nodes, steps);
    RunHealthy(nodes, steps);
    var s := Run(nodes, steps);
    if Allowed(s, step) {
      match step
      case Ws(ws) => FrontRefines(s, ws);
      case Conn(_, _) =>
      case Consume(c) => 
        if Consumer.Enabled(Topic(s), s.back, c) && c.Number? {
          NumberRefines(nodes, steps);
        } else {
          BackRefines(s, c);
        }
    }
  }

  /** The atomic service doing the moves one after the other. */
  ghost function Play(nodes: nat, moves: seq<Move>): Service {
    if moves == [] then Service(seq(nodes, _ => []), seq(nodes, _ => 0), [], [], map[])
    else
      var a := Play(nodes, moves[..|moves| - 1]);
      if CanMove(a, moves[|moves| - 1]) then Moved(a, moves[|moves| - 1]) else a
  }

  ghost function MovesOf(nodes: nat, steps: seq<Step>): seq<Move> {
    if steps == [] then []
    else MovesOf(nodes, steps[..|steps| - 1]) + [MoveOf(Run(nodes, steps[..|steps| - 1]), steps[|steps| - 1])]
  }

  /** So a whole fault-free run of any number of nodes is a run of the atomic service. */
  lemma {:induction false} RunRefinesService(nodes: nat, steps: seq<Step>)
    requires forall st :: st in steps ==> FaultFree(st)
    ensures Abs(Run(nodes, steps)) == Play(nodes, MovesOf(nodes, steps))
  {
    if steps != [] {
      var init, last := steps[..|steps| - 1], steps[|steps| - 1];
      assert last in steps;
      RunRefinesService(nodes, init);
      RefinesService(nodes, init, last);
      var moves := MovesOf(nodes, steps);
      assert moves[..|moves| - 1] == MovesOf(nodes, init);
    }
  }

  lemma {:induction false} FrontRefines(s: State, ws: Front.Step)
    requires Inv(s) && FaultFree(Ws(ws)) && Allowed(s, Ws(ws))
    ensures CanMove(Abs(s), MoveOf(s, Ws(ws)))
    ensures Abs(Next(s, Ws(ws))) == Moved(Abs(s), MoveOf(s, Ws(ws)))
  {
    if Front.Enabled(s.front, ws) {
      if ws.Deliver? {
        DeliverRefines(s, ws);
      } else if !ws.Surface? {
        OthersRefine(s, ws);
      }
    }
  }

  /** Accepting posts; taking and answering change nothing the service sees. */
  lemma {:induction false} OthersRefine(s: State, ws: Front.Step)
    requires Front.Enabled(s.front, ws) && (ws.Accept? || ws.Take? || ws.SendBack?)
    ensures var t := s.(front := Front.Apply(s.front, ws));
            Abs(t) == if ws.Accept? then Moved(Abs(s), Post(ws.n, Front.Entry(ws.conn, ws.msg))) else Abs(s)
  {
  }

  lemma {:induction false} DeliverRefines(s: State, ws: Front.Step)
    requires Inv(s) && ws.Deliver? && Front.Enabled(s.front, ws)
    ensures CanMove(Abs(s), Send(ws.n, ws.id, ws.now))
    ensures Abs(Next(s, Ws(ws))) == Moved(Abs(s), Send(ws.n, ws.id, ws.now))
  {
    assert Front.Conserved(s.front.nodes[ws.n]);
    UnusedId(s, ws.id);
    DeliverSends(s, ws);
  }

  lemma {:induction false} UnusedId(s: State, id: string)
    requires Front.OriginsInv(s.front) && id !in s.front.used
    ensures forall k :: 0 <= k < |Topic(s)| ==> Topic(s)[k].serverId != id
  {
  }

  lemma {:induction false} DeliverSends(s: State, ws: Front.Step)
    requires ws.Deliver? && Front.Enabled(s.front, ws) && Front.Conserved(s.front.nodes[ws.n])
    requires forall k :: 0 <= k < |Topic(s)| ==> Topic(s)[k].serverId != ws.id
    ensures CanMove(Abs(s), Send(ws.n, ws.id, ws.now))
    ensures Abs(Next(s, Ws(ws))) == Moved(Abs(s), Send(ws.n, ws.id, ws.now))
  {
  }

  lemma {:induction false} NumberRefines(nodes: nat, steps: seq<Step>)
    requires forall st :: st in steps ==> FaultFree(st)
    requires var s := Run(nodes, steps); Consumer.Enabled(Topic(s), s.back, Consumer.Number)
    ensures var s := Run(nodes, steps);
            CanMove(Abs(s), Handle) && Abs(Next(s, Consume(Consumer.Number))) == Moved(Abs(s), Handle)
  {
    RunHealthy(nodes, steps);
    var s := Run(nodes, steps);
    var more := steps + [Consume(Consumer.Number)];
    assert more[..|more| - 1] == steps;
    NumberIsRecordRank(nodes, more, |s.back.numbered|);
    var t := Run(nodes, more);
    assert Abs(t).numbers == Abs(s).numbers + [t.back.numbered[|s.back.numbered|].number];
  }

  lemma {:induction false} BackRefines(s: State, c: Consumer.Step)
    requires Inv(s) && InStep(s.back) && FaultFree(Consume(c)) && Allowed(s, Consume(c))
    requires !(Consumer.Enabled(Topic(s), s.back, c) && c.Number?)
    ensures CanMove(Abs(s), MoveOf(s, Consume(c)))
    ensures Abs(Next(s, Consume(c))) == Moved(Abs(s), MoveOf(s, Consume(c)))
  {
    if Consumer.Enabled(Topic(s), s.back, c) {
      var back := Consumer.Apply(Topic(s), s.back, c);
      if c.StoreRow? {
        Stores(Topic(s), s.back, c.h);
        NumberIsNoColumn(s.back.rows, Topic(s)[c.h], s.back.numbered[c.h].number);
      } else {
        Unseen(Topic(s), s.back, c);
      }
      AbsOfBack(s, back);
    }
  }

  lemma {:induction false} AbsOfBack(s: State, back: Consumer.State)
    requires back.numbered == s.back.numbered
    ensures Abs(s.(back := back)) == Abs(s).(table := back.rows)
  {
  }

  lemma {:induction false} Stores(log: seq<Msg>, b: Consumer.State, h: nat)
    requires Consumer.Enabled(log, b, Consumer.StoreRow(h))
    ensures var c, n := Consumer.Apply(log, b, Consumer.StoreRow(h)), b.numbered[h];
            c.numbered == b.numbered && c.rows == Store.Insert(b.rows, log[n.offset].(number := n.number))
  {
  }

  lemma {:induction false} NumberIsNoColumn(rows: Store.Table, m: Msg, number: int)
    ensures Store.Insert(rows, m.(number := number)) == Store.Insert(rows, m)
  {
  }

  /** The other steps change no number and no row. */
  lemma {:induction false} Unseen(log: seq<Msg>, b: Consumer.State, c: Consumer.Step)
    requires Consumer.Enabled(log, b, c) && !c.Number? && !c.StoreRow?
    ensures Consumer.Apply(log, b, c).numbered == b.numbered && Consumer.Apply(log, b, c).rows == b.rows
  {
  }

  // ---- When everything has drained ----

  ghost predicate Drained(s: State) {
    && (forall n :: 0 <= n < |s.front.nodes| ==> s.front.nodes[n].phase.Idle? && s.front.nodes[n].queue == [])
    && s.back.phase.Ready? && s.back.position == |s.front.log|
  }

  ghost predicate HasOneRecord(f: Front.State, o: Front.Origin) {
    exists k :: && 0 <= k < |f.log| && f.log[k].origin == o
                && forall j :: 0 <= j < |f.log| && f.log[j].origin == o ==> j == k
  }

  /** Drained, every accepted message has exactly one record, every record has its rank as its
      number, and the table is exactly the rows of the log, one per record. */
  lemma {:induction false} DrainedRunIsComplete(nodes: nat, steps: seq<Step>)
    requires Drained(Run(nodes, steps)) && forall st :: st in steps ==> FaultFree(st)
    ensures var s := Run(nodes, steps);
            && (forall n, i :: 0 <= n < |s.front.nodes| && 0 <= i < |s.front.nodes[n].accepted| ==>
                                 HasOneRecord(s.front, Front.Origin(n, i)))
            && |s.back.numbered| == |Topic(s)|
            && (forall h :: 0 <= h < |Topic(s)| ==>
                              s.back.numbered[h].offset == h && s.back.numbered[h].number == Rank(Topic(s), h))
            && |s.back.rows| == |Topic(s)|
            && (forall h :: 0 <= h < |Topic(s)| ==> Store.Holds(s.back.rows, Topic(s)[h]))
  {
    RunInv(nodes, steps);
    RunHealthy(nodes, steps);
    var s := Run(nodes, steps);
    forall n, i | 0 <= n < |s.front.nodes| && 0 <= i < |s.front.nodes[n].accepted|
      ensures HasOneRecord(s.front, Front.Origin(n, i))
    {
      DeliveredHasRecord(s.front, n, i);
    }
    forall h | 0 <= h < |Topic(s)|
      ensures s.back.numbered[h].offset == h && s.back.numbered[h].number == Rank(Topic(s), h)
    {
      NumberIsRecordRank(nodes, steps, h);
    }
    FreshIdsMakeKeysDistinct(s);
    Store.OneRowPerRecord(s.back.rows, Topic(s), s.back.stored);
    AllBelow(s.back.stored, |Topic(s)|);
  }

  /** So every accepted message is stored as it was sent, under the id and time of its one record `k`, and
      was numbered with its rank. */
  lemma {:induction false} AcceptedIsStored(nodes: nat, steps: seq<Step>, n: nat, i: nat) returns (k: nat)
    requires Drained(Run(nodes, steps)) && forall st :: st in steps ==> FaultFree(st)
    requires n < |Run(nodes, steps).front.nodes| && i < |Run(nodes, steps).front.nodes[n].accepted|
    ensures var s := Run(nodes, steps);
            var m := s.front.nodes[n].accepted[i].msg;
            && k < |Topic(s)| && s.front.log[k].origin == Front.Origin(n, i)
            && k < |s.back.numbered| && s.back.numbered[k].number == Rank(Topic(s), k)
            && var key := Store.Key(m.sendId, Topic(s)[k].serverId, Topic(s)[k].sendTime);
               && key in s.back.rows
               && s.back.rows[key].sendId == m.sendId && s.back.rows[key].receiverId == m.receiverId
               && s.back.rows[key].localId == m.localId && s.back.rows[key].content == m.content
               && s.back.rows[key].msgType == m.msgType && s.back.rows[key].contentType == m.contentType
               && s.back.rows[key].serverId == Topic(s)[k].serverId && s.back.rows[key].sendTime == Topic(s)[k].sendTime
  {
    DrainedRunIsComplete(nodes, steps);
    var f := Run(nodes, steps).front;
    assert HasOneRecord(f, Front.Origin(n, i));
    k :| 0 <= k < |f.log| && f.log[k].origin == Front.Origin(n, i);
    Guarantees.RecordCarriesItsMessage(nodes, steps, k);
    assert Store.Holds(Run(nodes, steps).back.rows, Topic(Run(nodes, steps))[k]);
  }

  lemma {:induction false} DeliveredHasRecord(f: Front.State, n: nat, i: nat)
    requires Front.Inv(f) && AllDelivered(f) && n < |f.nodes| && i < |f.nodes[n].accepted|
    requires f.nodes[n].phase.Idle? && f.nodes[n].queue == []
    ensures HasOneRecord(f, Front.Origin(n, i))
  {
  }

  lemma {:induction false} AllBelow(s: set<nat>, n: nat)
    requires forall i: nat :: i in s <==> i < n
    ensures |s| == n
  {
    if n > 0 {
      AllBelow(s - {n - 1}, n - 1);
    } else {
      assert s == {};
    }
  }
}
