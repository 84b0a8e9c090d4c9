/** The sending half of the pipeline, as a machine of interleaved steps: every websocket node's
    bounded queue and manager loop, the chat calls they make, and the shared topic. */
module Front {
  import opened Wrappers
  import opened Messages
  import Chat

  const QUEUE_CAPACITY := 1024

  /** A message accepted on a node's queue and the connection it came from, if any. */
  datatype Entry = Entry(conn: Option<nat>, msg: Msg)

  /** How the manager's call to chat ended. */
  datatype Outcome = Response(answer: Chat.Answer) | RpcError(text: string)

  /** The message the manager sends back: the taken message, rewritten in place. */
  function ReplyTo(m: Msg, outcome: Outcome): Msg {
    match outcome
    case Response(answer) =>
      m.(contentType := if answer.err == "" then m.contentType else CONTENT_ERROR,
         msgType := MSG_REC_RESP,
         serverId := answer.serverId,
         content := answer.err)
    case RpcError(text) => m.(content := text)
  }

  /** What the reply says. After a response it is marked as one and carries chat's id and error; the content
      type tells whether there was an error. After a failed call only the content is new. */
  lemma {:induction false} ReplyFields(m: Msg, outcome: Outcome)
    ensures var r := ReplyTo(m, outcome);
            && r.sendId == m.sendId && r.receiverId == m.receiverId && r.localId == m.localId
            && r.createTime == m.createTime && r.sendTime == m.sendTime && r.number == m.number && r.isRead == m.isRead
    ensures outcome.Response? ==>
              var r := ReplyTo(m, outcome);
              && r.msgType == 1 && r.serverId == outcome.answer.serverId && r.content == outcome.answer.err
              && (outcome.answer.err != "" ==> r.contentType == 2)
              && (outcome.answer.err == "" ==> r.contentType == m.contentType)
    ensures outcome.RpcError? ==>
              var r := ReplyTo(m, outcome);
              && r.content == outcome.text && r.msgType == m.msgType
              && r.contentType == m.contentType && r.serverId == m.serverId
  {
  }

  datatype Phase = Idle | Calling(entry: Entry) | Answered(entry: Entry, outcome: Outcome)

  datatype Reply = Reply(entry: Entry, outcome: Outcome)

  /** `accepted` and `replies` only record the past; the manager reads `queue` and `phase`. */
  datatype Node = Node(queue: seq<Entry>, phase: Phase, accepted: seq<Entry>, replies: seq<Reply>)
  {
    /** How many accepted messages have a finished chat call. */
    function Called(): nat {
      |replies| + if phase.Answered? then 1 else 0
    }

    function OutcomeOf(i: nat): Outcome
      requires i < Called()
    {
      if i < |replies| then replies[i].outcome else phase.outcome
    }
  }

  /** The i-th message accepted on a node. */
  datatype Origin = Origin(node: nat, index: nat)

  /** A topic record. `late` marks a record that appeared after its chat call had failed. */
  datatype Record = Record(msg: Msg, origin: Origin, late: bool)

  /** `pending` holds stamped messages of failed calls that may still reach the topic, `used` the
      ids generated so far. */
  datatype State = State(nodes: seq<Node>, log: seq<Record>, pending: map<Origin, Msg>, used: set<string>)

  function Init(n: nat): State {
    State(seq(n, _ => Node([], Idle, [], [])), [], map[], {})
  }

  datatype Step =
    | Accept(n: nat, conn: Option<nat>, msg: Msg)
    | Take(n: nat)
    | Deliver(n: nat, id: string, now: int)               // chat appends and answers
    | Refuse(n: nat, id: string, now: int, err: string)   // chat answers a producer error
    | Fail(n: nat, id: string, now: int, text: string)    // the call fails while chat may be working
    | Lose(n: nat, text: string)                          // chat's answer is lost on the way
    | SendBack(n: nat)
    | Surface(origin: Origin)                             // a failed call's record reaches the topic

  predicate Enabled(s: State, step: Step) {
    match step
    case Accept(n, _, _) => n < |s.nodes| && |s.nodes[n].queue| < QUEUE_CAPACITY
    case Take(n) => n < |s.nodes| && s.nodes[n].phase.Idle? && s.nodes[n].queue != []
    case Deliver(n, id, _) => n < |s.nodes| && s.nodes[n].phase.Calling? && id !in s.used
    case Refuse(n, id, _, err) => n < |s.nodes| && s.nodes[n].phase.Calling? && id !in s.used && err != ""
    case Fail(n, id, _, text) => n < |s.nodes| && s.nodes[n].phase.Calling? && id !in s.used && text != ""
    case Lose(n, text) => n < |s.nodes| && s.nodes[n].phase.Answered? && text != ""
    case SendBack(n) => n < |s.nodes| && s.nodes[n].phase.Answered?
    case Surface(o) => o in s.pending
  }

  function Ended(s: State, n: nat, outcome: Outcome): seq<Node>
    requires n < |s.nodes| && !s.nodes[n].phase.Idle?
  {
    s.nodes[n := s.nodes[n].(phase := Answered(s.nodes[n].phase.entry, outcome))]
  }

  function Apply(s: State, step: Step): State
    requires Enabled(s, step)
  {
    match step
    case Accept(n, conn, m) =>
      var node := s.nodes[n];
      s.(nodes := s.nodes[n := node.(queue := node.queue + [Entry(conn, m)],
                                     accepted := node.accepted + [Entry(conn, m)])])
    case Take(n) =>
      var node := s.nodes[n];
      s.(nodes := s.nodes[n := node.(queue := node.queue[1..], phase := Calling(node.queue[0]))])
    case Deliver(n, id, now) =>
      var m := s.nodes[n].phase.entry.msg;
      s.(nodes := Ended(s, n, Response(Chat.AnswerTo(m, id, now, ""))),
         log := s.log + [Record(Chat.Stamped(m, id, now), Origin(n, |s.nodes[n].replies|), false)],
         used := s.used + {id})
    case Refuse(n, id, now, err) =>
      var m := s.nodes[n].phase.entry.msg;
      s.(nodes := Ended(s, n, Response(Chat.AnswerTo(m, id, now, err))),
         pending := s.pending[Origin(n, |s.nodes[n].replies|) := Chat.Stamped(m, id, now)],
         used := s.used + {id})
    case Fail(n, id, now, text) =>
      var m := s.nodes[n].phase.entry.msg;
      s.(nodes := Ended(s, n, RpcError(text)),
         pending := s.pending[Origin(n, |s.nodes[n].replies|) := Chat.Stamped(m, id, now)],
         used := s.used + {id})
    case Lose(n, text) =>
      s.(nodes := Ended(s, n, RpcError(text)))
    case SendBack(n) =>
      var node := s.nodes[n];
      s.(nodes := s.nodes[n := node.(phase := Idle,
                                     replies := node.replies + [Reply(node.phase.entry, node.phase.outcome)])])
    case Surface(o) =>
      s.(log := s.log + [Record(s.pending[o], o, true)], pending := s.pending - {o})
  }

  /** A step that is not enabled does not happen. */
  function Next(s: State, step: Step): State {
    if Enabled(s, step) then Apply(s, step) else s
  }

  /** The steps one after the other. */
  function Play(s: State, steps: seq<Step>): State {
    if steps == [] then s else Next(Play(s, steps[..|steps| - 1]), steps[|steps| - 1])
  }

  // ---- What every step keeps ----

  /** Every accepted message is in exactly one place, in acceptance order: answered, in flight or
      queued; and the queue is never over its capacity. */
  ghost predicate Conserved(node: Node) {
    && |node.queue| <= QUEUE_CAPACITY
    && |node.accepted| == |node.replies| + (if node.phase.Idle? then 0 else 1) + |node.queue|
    && (forall i :: 0 <= i < |node.replies| ==> node.replies[i].entry == node.accepted[i])
    && (!node.phase.Idle? ==> node.phase.entry == node.accepted[|node.replies|])
    && node.queue == node.accepted[|node.accepted| - |node.queue|..]
  }

  ghost predicate NodesInv(s: State) {
    forall n :: 0 <= n < |s.nodes| ==> Conserved(s.nodes[n])
  }

  /** `m` is the stamped form of the accepted message `o`, whose chat call has ended. */
  ghost predicate Stems(s: State, m: Msg, o: Origin) {
    && o.node < |s.nodes|
    && o.index < s.nodes[o.node].Called() <= |s.nodes[o.node].accepted|
    && m == Chat.Stamped(s.nodes[o.node].accepted[o.index].msg, m.serverId, m.sendTime)
    && m.serverId in s.used
  }

  ghost predicate OriginsInv(s: State) {
    && (forall k :: 0 <= k < |s.log| ==> Stems(s, s.log[k].msg, s.log[k].origin))
    && (forall o :: o in s.pending ==> Stems(s, s.pending[o], o))
  }

  /** At most one record per accepted message. */
  ghost predicate OnceInv(s: State) {
    OnceLog(s.log) && OnceBetween(s)
  }

  ghost predicate OnceLog(log: seq<Record>) {
    forall i, j :: 0 <= i < j < |log| ==> log[i].origin != log[j].origin
  }

  ghost predicate OnceBetween(s: State) {
    forall i :: 0 <= i < |s.log| ==> s.log[i].origin !in s.pending
  }

  /** No id twice. */
  ghost predicate FreshInv(s: State) {
    FreshLog(s.log) && FreshBetween(s) && FreshPending(s.pending)
  }

  ghost predicate FreshLog(log: seq<Record>) {
    forall i, j :: 0 <= i < j < |log| ==> log[i].msg.serverId != log[j].msg.serverId
  }

  ghost predicate FreshBetween(s: State) {
    forall i, o :: 0 <= i < |s.log| && o in s.pending ==> s.log[i].msg.serverId != s.pending[o].serverId
  }

  ghost predicate FreshPending(pending: map<Origin, Msg>) {
    forall o, p :: o in pending && p in pending && o != p ==> pending[o].serverId != pending[p].serverId
  }

  /** A node's records enter the topic in acceptance order, late ones apart. */
  ghost predicate OrderInv(s: State) {
    forall i, j :: && 0 <= i < j < |s.log| && s.log[i].origin.node == s.log[j].origin.node
                   && !s.log[i].late && !s.log[j].late ==>
                     s.log[i].origin.index < s.log[j].origin.index
  }

  ghost predicate HasRecord(log: seq<Record>, o: Origin, serverId: string) {
    exists k :: 0 <= k < |log| && log[k].origin == o && !log[k].late && log[k].msg.serverId == serverId
  }

  ghost predicate Backed(log: seq<Record>, outcome: Outcome, entry: Entry, o: Origin) {
    && (outcome.RpcError? ==> outcome.text != "")
    && (outcome.Response? ==> outcome.answer.localId == entry.msg.localId)
    && (outcome.Response? && outcome.answer.err == "" ==> HasRecord(log, o, outcome.answer.serverId))
  }

  ghost predicate DurableInv(s: State) {
    forall n, i :: 0 <= n < |s.nodes| && 0 <= i < s.nodes[n].Called() && i < |s.nodes[n].accepted| ==>
                     Backed(s.log, s.nodes[n].OutcomeOf(i), s.nodes[n].accepted[i], Origin(n, i))
  }

  ghost predicate Inv(s: State) {
    NodesInv(s) && OriginsInv(s) && OnceInv(s) && FreshInv(s) && OrderInv(s) && DurableInv(s)
  }

  lemma {:induction false} InitInv(n: nat)
    ensures Inv(Init(n))
  {
  }

  lemma {:induction false} KeepsNodes(s: State, step: Step)
    requires NodesInv(s) && Enabled(s, step)
    ensures NodesInv(Apply(s, step))
  {
  }

  lemma {:induction false} KeepsStem(s: State, step: Step, m: Msg, o: Origin)
    requires NodesInv(s) && Enabled(s, step) && Stems(s, m, o)
    ensures Stems(Apply(s, step), m, o)
  {
  }

  lemma {:induction false} KeepsOrigins(s: State, step: Step)
    requires NodesInv(s) && OriginsInv(s) && Enabled(s, step)
    ensures OriginsInv(Apply(s, step))
  {
    var t := Apply(s, step);
    forall k | 0 <= k < |s.log|
      ensures Stems(t, s.log[k].msg, s.log[k].origin)
    {
      KeepsStem(s, step, s.log[k].msg, s.log[k].origin);
    }
    forall o | o in s.pending
      ensures Stems(t, s.pending[o], o)
    {
      KeepsStem(s, step, s.pending[o], o);
    }
  }

  lemma {:induction false} KeepsOnce(s: State, step: Step)
    requires NodesInv(s) && OriginsInv(s) && OnceInv(s) && Enabled(s, step)
    ensures OnceInv(Apply(s, step))
  {
    KeepsOnceLog(s, step);
    KeepsOnceBetween(s, step);
  }

  /** The message a node is calling chat for has no record yet and none to come. */
  lemma {:induction false} CalledForHasNone(s: State, n: nat)
    requires OriginsInv(s) && n < |s.nodes| && s.nodes[n].phase.Calling?
    ensures forall i :: 0 <= i < |s.log| ==> s.log[i].origin != Origin(n, |s.nodes[n].replies|)
    ensures Origin(n, |s.nodes[n].replies|) !in s.pending
  {
    forall i | 0 <= i < |s.log|
      ensures s.log[i].origin != Origin(n, |s.nodes[n].replies|)
    {
      assert Stems(s, s.log[i].msg, s.log[i].origin);
    }
  }

  lemma {:induction false} KeepsOnceLog(s: State, step: Step)
    requires OriginsInv(s) && OnceInv(s) && Enabled(s, step)
    ensures OnceLog(Apply(s, step).log)
  {
    if step.Deliver? {
      CalledForHasNone(s, step.n);
    }
  }

  lemma {:induction false} KeepsOnceBetween(s: State, step: Step)
    requires OriginsInv(s) && OnceInv(s) && Enabled(s, step)
    ensures OnceBetween(Apply(s, step))
  {
    if step.Deliver? || step.Refuse? || step.Fail? {
      CalledForHasNone(s, step.n);
    }
  }

  lemma {:induction false} KeepsFresh(s: State, step: Step)
    requires OriginsInv(s) && FreshInv(s) && Enabled(s, step)
    ensures FreshInv(Apply(s, step))
  {
    KeepsFreshLog(s, step);
    KeepsFreshBetween(s, step);
    KeepsFreshPending(s, step);
  }

  lemma {:induction false} KeepsFreshLog(s: State, step: Step)
    requires OriginsInv(s) && FreshLog(s.log) && FreshBetween(s) && Enabled(s, step)
    ensures FreshLog(Apply(s, step).log)
  {
  }

  lemma {:induction false} KeepsFreshBetween(s: State, step: Step)
    requires OriginsInv(s) && FreshBetween(s) && FreshPending(s.pending) && Enabled(s, step)
    ensures FreshBetween(Apply(s, step))
  {
  }

  lemma {:induction false} KeepsFreshPending(s: State, step: Step)
    requires OriginsInv(s) && FreshPending(s.pending) && Enabled(s, step)
    ensures FreshPending(Apply(s, step).pending)
  {
  }

  lemma {:induction false} KeepsOrder(s: State, step: Step)
    requires NodesInv(s) && OriginsInv(s) && OrderInv(s) && Enabled(s, step)
    ensures OrderInv(Apply(s, step))
  {
  }

  lemma {:induction false} KeepsBacked(log: seq<Record>, more: seq<Record>, outcome: Outcome, entry: Entry, o: Origin)
    requires Backed(log, outcome, entry, o) && log <= more
    ensures Backed(more, outcome, entry, o)
  {
  }

  lemma {:induction false} KeepsDurable(s: State, step: Step)
    requires NodesInv(s) && DurableInv(s) && Enabled(s, step)
    ensures DurableInv(Apply(s, step))
  {
    var t := Apply(s, step);
    forall n, i | 0 <= n < |t.nodes| && 0 <= i < t.nodes[n].Called() && i < |t.nodes[n].accepted|
      ensures Backed(t.log, t.nodes[n].OutcomeOf(i), t.nodes[n].accepted[i], Origin(n, i))
    {
      StaysBacked(s, step, n, i);
    }
  }

  lemma {:induction false} StaysBacked(s: State, step: Step, n: nat, i: nat)
    requires NodesInv(s) && DurableInv(s) && Enabled(s, step)
    requires var t := Apply(s, step); n < |t.nodes| && i < t.nodes[n].Called() && i < |t.nodes[n].accepted|
    ensures var t := Apply(s, step); Backed(t.log, t.nodes[n].OutcomeOf(i), t.nodes[n].accepted[i], Origin(n, i))
  {
    var t := Apply(s, step);
    assert Conserved(s.nodes[n]);
    if i < s.nodes[n].Called() && t.nodes[n].OutcomeOf(i) == s.nodes[n].OutcomeOf(i) {
      KeepsBacked(s.log, t.log, s.nodes[n].OutcomeOf(i), s.nodes[n].accepted[i], Origin(n, i));
    } else if step.Deliver? {
      assert t.log[|s.log|].origin == Origin(n, i);
    }
  }

  lemma {:induction false} KeepsInv(s: State, step: Step)
    requires Inv(s)
    ensures Inv(Next(s, step)) && s.log <= Next(s, step).log
    ensures |Next(s, step).nodes| == |s.nodes|
  {
    if Enabled(s, step) {
      KeepsNodes(s, step);
      KeepsOrigins(s, step);
      KeepsOnce(s, step);
      KeepsFresh(s, step);
      KeepsOrder(s, step);
      KeepsDurable(s, step);
    }
  }

  lemma {:induction false} PlayKeepsInv(s: State, steps: seq<Step>)
    requires Inv(s)
    ensures Inv(Play(s, steps)) && s.log <= Play(s, steps).log
  {
    if steps != [] {
      PlayKeepsInv(s, steps[..|steps| - 1]);
      KeepsInv(Play(s, steps[..|steps| - 1]), steps[|steps| - 1]);
    }
  }
}
