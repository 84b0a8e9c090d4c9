/** The whole message pipeline: websocket nodes and chat (Front), connection hubs (Hub) and
    consumer, counters, table and pushes (Consumer) interleaved step by step. Theorems about every
    schedule, crashes and failed calls included, are stated here. */
module Pipeline {
  import opened Wrappers
  import opened Messages
  import Store
  import Front
  import Hub
  import Fanout
  import Consumer

  datatype State = State(front: Front.State, hubs: seq<Hub.State>, back: Consumer.State)

  datatype Step =
    | Ws(ws: Front.Step)
    | Conn(node: nat, hub: Hub.Step)
    | Consume(consume: Consumer.Step)

  function MessagesOf(log: seq<Front.Record>): (ms: seq<Msg>)
    ensures |ms| == |log| && forall i :: 0 <= i < |log| ==> ms[i] == log[i].msg
  {
    seq(|log|, i requires 0 <= i < |log| => log[i].msg)
  }

  function Topic(s: State): seq<Msg> {
    MessagesOf(s.front.log)
  }

  function Init(nodes: nat): State {
    State(Front.Init(nodes), seq(nodes, _ => Hub.Init), Consumer.Init)
  }

  /** The clients a node's hub holds for a user. */
  ghost function Filed(hub: Hub.State, n: nat, user: string): set<Fanout.Conn> {
    if user in hub.table then set p | p in hub.table[user] :: Fanout.Conn(n, hub.table[user][p]) else {}
  }

  /** A message comes from a live connection of its node, or from a direct call; an instance pushes
      to the clients its hub holds under the receiver when it looks. */
  ghost predicate Allowed(s: State, step: Step) {
    match step
    case Ws(Accept(n, Some(c), _)) => n < |s.hubs| && c in s.hubs[n].conns && s.hubs[n].conns[c].live
    case Ws(_) => true
    case Conn(n, _) => n < |s.hubs|
    case Consume(Fan(h, Lookup(n, clients))) =>
      h < |s.back.numbered| && n < |s.hubs| && clients == Filed(s.hubs[n], n, s.back.numbered[h].user)
    case Consume(_) => true
  }

  ghost function Next(s: State, step: Step): State {
    if !Allowed(s, step) then s
    else match step
      case Ws(ws) => s.(front := Front.Next(s.front, ws))
      case Conn(n, hub) => s.(hubs := s.hubs[n := Hub.Next(s.hubs[n], hub)])
      case Consume(c) => s.(back := Consumer.Next(Topic(s), s.back, c))
  }

  ghost function Run(nodes: nat, steps: seq<Step>): State {
    if steps == [] then Init(nodes) else Next(Run(nodes, steps[..|steps| - 1]), steps[|steps| - 1])
  }

  /** The steps one after the other, from any state. */
  ghost function After(s: State, steps: seq<Step>): State {
    if steps == [] then s else Next(After(s, steps[..|steps| - 1]), steps[|steps| - 1])
  }

  lemma {:induction false} RunAppend(nodes: nat, a: seq<Step>, b: seq<Step>)
    ensures Run(nodes, a + b) == After(Run(nodes, a), b)
  {
    if b == [] {
      assert a + b == a;
    } else {
      RunAppend(nodes, a, b[..|b| - 1]);
      assert (a + b)[..|a + b| - 1] == a + b[..|b| - 1];
    }
  }

  lemma {:induction false} AfterAppend(s: State, a: seq<Step>, b: seq<Step>)
    ensures After(s, a + b) == After(After(s, a), b)
  {
    if b == [] {
      assert a + b == a;
    } else {
      AfterAppend(s, a, b[..|b| - 1]);
      assert (a + b)[..|a + b| - 1] == a + b[..|b| - 1];
    }
  }

  lemma {:induction false} AfterOne(s: State, step: Step)
    ensures After(s, [step]) == Next(s, step)
  {
    assert [step][..0] == [];
  }

  // ---- Who is pushed what ----

  /** Pushes go to connections of the receiver, and a connection's frames are the handlings written
      to it, each once. */
  ghost predicate AudienceInv(s: State) {
    Consumer.PushesInv(s.back) && FoundInv(s) && WrittenInv(s.back) && ReachedInv(s.back)
  }

  ghost predicate Belongs(s: State, conn: Fanout.Conn, user: string) {
    && conn.node < |s.hubs| && conn.id in s.hubs[conn.node].conns
    && s.hubs[conn.node].conns[conn.id].user == user
  }

  ghost predicate FoundInv(s: State) {
    forall h, n, conn :: h in s.back.pushes && n in s.back.pushes[h].lookups && conn in s.back.pushes[h].lookups[n] ==>
                           Found(s, h, n, conn)
  }

  ghost predicate Found(s: State, h: nat, n: nat, conn: Fanout.Conn) {
    conn.node == n && h < |s.back.numbered| && Belongs(s, conn, s.back.numbered[h].user)
  }

  ghost predicate WrittenInv(b: Consumer.State) {
    && (forall conn, k :: conn in b.frames && 0 <= k < |b.frames[conn]| ==> Reached(b, conn, b.frames[conn][k]))
    && (forall conn :: conn in b.frames ==> NoneTwice(b.frames[conn]))
  }

  ghost predicate ReachedInv(b: Consumer.State) {
    forall h, conn :: h in b.pushes && conn in b.pushes[h].reached ==> h in Consumer.FramesOf(b, conn)
  }

  ghost predicate NoneTwice(hs: seq<nat>) {
    forall i, j :: 0 <= i < j < |hs| ==> hs[i] != hs[j]
  }

  ghost predicate Reached(b: Consumer.State, conn: Fanout.Conn, h: nat) {
    h in b.pushes && conn in b.pushes[h].reached
  }

  ghost predicate Inv(s: State) {
    && Front.Inv(s.front)
    && (forall n :: 0 <= n < |s.hubs| ==> Hub.Inv(s.hubs[n]))
    && Consumer.Inv(Topic(s), s.back)
    && AudienceInv(s)
  }

  lemma {:induction false} FreshIdsMakeKeysDistinct(s: State)
    requires Front.Inv(s.front)
    ensures Store.DistinctKeys(Topic(s))
  {
  }

  /** A hub never forgets a connection. */
  ghost predicate Extends(s: State, t: State) {
    && |s.hubs| == |t.hubs|
    && forall n, c :: 0 <= n < |s.hubs| && c in s.hubs[n].conns ==>
                        c in t.hubs[n].conns && s.hubs[n].conns[c].user == t.hubs[n].conns[c].user
  }

  lemma {:induction false} NextExtends(s: State, step: Step)
    requires forall n :: 0 <= n < |s.hubs| ==> Hub.Inv(s.hubs[n])
    ensures Extends(s, Next(s, step))
    ensures step.Consume? || Next(s, step).back == s.back
    ensures step.Conn? || Next(s, step).hubs == s.hubs
  {
    match step
    case Ws(_) =>
    case Conn(n, hub) =>
      if n < |s.hubs| {
        Hub.KeepsInv(s.hubs[n], hub);
      }
    case Consume(c) =>
  }

  lemma {:induction false} KeepsAudience(s: State, step: Step)
    requires Inv(s)
    ensures AudienceInv(Next(s, step))
  {
    var t := Next(s, step);
    NextExtends(s, step);
    if step.Consume? && Allowed(s, step) {
      Consumer.NextRemembers(Topic(s), s.back, step.consume);
      KeepsFound(s, step.consume);
      KeepsWritten(Topic(s), s.back, step.consume);
      KeepsReached(Topic(s), s.back, step.consume);
    } else {
      forall h, n, conn | h in t.back.pushes && n in t.back.pushes[h].lookups && conn in t.back.pushes[h].lookups[n]
        ensures Found(t, h, n, conn)
      {
        assert Found(s, h, n, conn);
      }
    }
  }

  /** What the hub holds under the receiver are connections of the receiver. */
  lemma {:induction false} KeepsFound(s: State, c: Consumer.Step)
    requires Inv(s) && Allowed(s, Consume(c))
    ensures FoundInv(Next(s, Consume(c)))
  {
    var t := Next(s, Consume(c));
    Consumer.NextPushes(Topic(s), s.back, c);
    forall h, n, conn | h in t.back.pushes && n in t.back.pushes[h].lookups && conn in t.back.pushes[h].lookups[n]
      ensures Found(t, h, n, conn)
    {
      if h in s.back.pushes && n in s.back.pushes[h].lookups
          && t.back.pushes[h].lookups[n] == s.back.pushes[h].lookups[n] {
        assert Found(s, h, n, conn);
      } else {
        IsLookup(s, c, h, n);
        FiledBelong(s, n, s.back.numbered[h].user, conn);
      }
    }
  }

  lemma {:induction false} IsLookup(s: State, c: Consumer.Step, h: nat, n: nat)
    requires Consumer.PushesInv(s.back) && Allowed(s, Consume(c))
    requires var d := Consumer.Next(Topic(s), s.back, c).pushes; h in d && n in d[h].lookups
    requires var d := Consumer.Next(Topic(s), s.back, c).pushes;
             !(h in s.back.pushes && n in s.back.pushes[h].lookups && d[h].lookups[n] == s.back.pushes[h].lookups[n])
    ensures h in s.back.pushes && h < |s.back.numbered| && n < |s.hubs|
    ensures Consumer.Next(Topic(s), s.back, c).pushes[h].lookups[n] == Filed(s.hubs[n], n, s.back.numbered[h].user)
  {
    Consumer.NextPushes(Topic(s), s.back, c);
  }

  lemma {:induction false} FiledBelong(s: State, n: nat, user: string, conn: Fanout.Conn)
    requires n < |s.hubs| && Hub.Inv(s.hubs[n]) && conn in Filed(s.hubs[n], n, user)
    ensures conn.node == n && Belongs(s, conn, user) && s.hubs[n].conns[conn.id].live
  {
  }

  lemma {:induction false} KeepsWritten(log: seq<Msg>, b: Consumer.State, c: Consumer.Step)
    requires WrittenInv(b) && Consumer.PushesInv(b)
    ensures WrittenInv(Consumer.Next(log, b, c))
  {
    var d := Consumer.Next(log, b, c);
    Consumer.NextFrames(log, b, c);
    Consumer.NextPushes(log, b, c);
    Consumer.NextRemembers(log, b, c);
    forall conn, k | conn in d.frames && 0 <= k < |d.frames[conn]|
      ensures Reached(d, conn, d.frames[conn][k])
    {
      if conn in b.frames && k < |b.frames[conn]| {
        assert Reached(b, conn, b.frames[conn][k]);
      }
    }
    if Consumer.Writes(log, b, c) {
      NotWrittenBefore(b, c.h, c.step.conn);
    }
  }

  /** A push skips the connections it has reached. */
  lemma {:induction false} NotWrittenBefore(b: Consumer.State, h: nat, conn: Fanout.Conn)
    requires WrittenInv(b) && h in b.pushes && b.pushes[h].Owes(conn)
    ensures NoneTwice(Consumer.FramesOf(b, conn) + [h])
  {
  }

  lemma {:induction false} KeepsReached(log: seq<Msg>, b: Consumer.State, c: Consumer.Step)
    requires ReachedInv(b) && Consumer.PushesInv(b)
    ensures ReachedInv(Consumer.Next(log, b, c))
  {
    var d := Consumer.Next(log, b, c);
    Consumer.NextFrames(log, b, c);
    Consumer.NextPushes(log, b, c);
    forall h, conn | h in d.pushes && conn in d.pushes[h].reached
      ensures h in Consumer.FramesOf(d, conn)
    {
      if Reached(b, conn, h) {
        assert h in Consumer.FramesOf(b, conn);
      }
    }
  }

  lemma {:induction false} KeepsInv(s: State, step: Step)
    requires Inv(s)
    ensures Inv(Next(s, step)) && s.front.log <= Next(s, step).front.log
  {
    KeepsAudience(s, step);
    if Allowed(s, step) {
      match step
      case Ws(ws) =>
        Front.KeepsInv(s.front, ws);
        Consumer.LogGrows(Topic(s), Topic(Next(s, step)), s.back);
      case Conn(n, hub) =>
        Hub.KeepsInv(s.hubs[n], hub);
      case Consume(c) =>
        FreshIdsMakeKeysDistinct(s);
        Consumer.KeepsInv(Topic(s), s.back, c);
    }
  }

  lemma {:induction false} RunInv(nodes: nat, steps: seq<Step>)
    ensures Inv(Run(nodes, steps))
  {
    if steps == [] {
      Front.InitInv(nodes);
      Consumer.InitInv();
    } else {
      RunInv(nodes, steps[..|steps| - 1]);
      KeepsInv(Run(nodes, steps[..|steps| - 1]), steps[|steps| - 1]);
    }
  }
}
