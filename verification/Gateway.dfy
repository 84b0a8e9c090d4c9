/** The websocket service as the code runs it (sandcat_prectice/ws/src/manager.rs,
    sandcat_prectice/ws/src/ws_server.rs, sandcat_prectice/ws/src/client.rs): the hub and the sends
    to its clients, the bounded queue, and the manager loop. What the loop does is a run of the
    sending machine with one node. */
module Gateway {
  import opened Wrappers
  import opened Messages
  import opened Channels
  import Chat
  import Hub
  import Front
  import Pipeline

  /** The sending end of one websocket, shared by everyone who writes to it. */
  class Socket {
    var written: seq<Msg>
    var open: bool

    constructor ()
      ensures written == [] && open
    {
      written, open := [], true;
    }

    method SendText(content: Msg) returns (ok: bool)
      modifies `written
      ensures ok == open
      ensures written == if open then old(written) + [content] else old(written)
    {
      ok := open;
      if open {
        written := written + [content];
      }
    }
  }

  datatype Client = Client(userId: string, platformId: string, sender: Socket)

  /** How the chat call of one turn ends; `Never` fails it before chat answers. */
  datatype Rpc = Returned | AnswerLost(text: string) | Never(text: string)

  /** One turn: the sends polled before the next message is taken, then the chat call. */
  datatype Io = Io(arrivals: seq<Msg>, id: string, now: int, produce: Chat.Produce, rpc: Rpc)
  {
    predicate Sensible() {
      && (produce.Failed? ==> produce.error != "")
      && (rpc.AnswerLost? || rpc.Never? ==> rpc.text != "")
    }

    /** How the manager sees the call end, for message `m`. */
    function Outcome(m: Msg): Front.Outcome {
      if rpc.Returned? then Front.Response(Chat.AnswerTo(m, id, now, if produce.Failed? then produce.error else ""))
      else Front.RpcError(rpc.text)
    }

    /** The steps of the call, for the `index`-th message taken. */
    function CallScript(index: nat): seq<Front.Step> {
      if rpc.Never? then [Front.Fail(0, id, now, rpc.text)]
      else if rpc.AnswerLost? then PublishScript(index) + [Front.Lose(0, rpc.text)]
      else PublishScript(index)
    }

    function PublishScript(index: nat): seq<Front.Step> {
      match produce
      case Delivered => [Front.Deliver(0, id, now)]
      case Failed(error, true) => [Front.Refuse(0, id, now, error), Front.Surface(Front.Origin(0, index))]
      case Failed(error, false) => [Front.Refuse(0, id, now, error)]
    }
  }

  ghost function SocketsOf(clients: map<string, Client>): set<Socket> {
    set p | p in clients :: clients[p].sender
  }

  ghost predicate OwnSockets(clients: map<string, Client>) {
    forall p, q :: p in clients && q in clients && p != q ==> clients[p].sender != clients[q].sender
  }

  /** Every client of the user, on every platform, is written once; a client whose socket is gone is
      only logged. */
  method SendMsgToClients(clients: map<string, Client>, msg: Msg)
    requires OwnSockets(clients)
    modifies SocketsOf(clients)`written
    ensures forall p :: p in clients ==>
                          clients[p].sender.written == old(clients[p].sender.written)
                            + if clients[p].sender.open then [msg] else []
  {
    var todo := clients.Keys;
    while todo != {}
      invariant todo <= clients.Keys
      invariant forall p :: p in clients ==>
                              clients[p].sender.written == old(clients[p].sender.written)
                                                           + if p !in todo && clients[p].sender.open then [msg] else []
      decreases todo
    {
      var p :| p in todo;
      var ok := clients[p].sender.SendText(msg);
      todo := todo - {p};
    }
  }

  ghost function ClientOf(conns: map<nat, Client>, c: Option<nat>): Option<Client> {
    if c.Some? && c.value in conns then Some(conns[c.value]) else None
  }

  /** The hub is the machine's table with each connection's client in place of its id. */
  ghost predicate Mirrors(hub: Hub.Table<Client>, conns: map<nat, Client>, v: Hub.State) {
    && hub.Keys == v.table.Keys && conns.Keys == v.conns.Keys
    && forall u, p :: Hub.Lookup(hub, u, p) == ClientOf(conns, Hub.Lookup(v.table, u, p))
  }

  lemma {:induction false} OpenMirrors(hub: Hub.Table<Client>, conns: map<nat, Client>, v: Hub.State, c: nat,
                                       user: string, client: Client)
    requires Mirrors(hub, conns, v) && Hub.Inv(v) && c !in conns
    ensures Mirrors(Hub.Register(hub, user, client.platformId, client), conns[c := client],
                    Hub.Next(v, Hub.Open(c, user, client.platformId)))
  {
    var after := Hub.Register(hub, user, client.platformId, client);
    var table := Hub.Register(v.table, user, client.platformId, c);
    forall u, p
      ensures Hub.Lookup(after, u, p) == ClientOf(conns[c := client], Hub.Lookup(table, u, p))
    {
      Hub.LookupRegistered(hub, user, client.platformId, client, u, p);
      Hub.LookupRegistered(v.table, user, client.platformId, c, u, p);
      assert Hub.Lookup(hub, u, p) == ClientOf(conns, Hub.Lookup(v.table, u, p));
    }
  }

  lemma {:induction false} CloseMirrors(hub: Hub.Table<Client>, conns: map<nat, Client>, v: Hub.State, c: nat)
    requires Mirrors(hub, conns, v) && c in v.conns && v.conns[c].live
    ensures Mirrors(Hub.Unregister(hub, v.conns[c].user, v.conns[c].platform), conns, Hub.Next(v, Hub.Close(c)))
  {
    var user, platform := v.conns[c].user, v.conns[c].platform;
    forall u, p
      ensures Hub.Lookup(Hub.Unregister(hub, user, platform), u, p) ==
              ClientOf(conns, Hub.Lookup(Hub.Unregister(v.table, user, platform), u, p))
    {
      Hub.LookupUnregistered(hub, user, platform, u, p);
      Hub.LookupUnregistered(v.table, user, platform, u, p);
      assert Hub.Lookup(hub, u, p) == ClientOf(conns, Hub.Lookup(v.table, u, p));
    }
  }

  /** What the turns so far did: which of them found a message, what was sent back, how chat's calls
      ended. */
  datatype Served = Served(turns: seq<nat>, replies: seq<Msg>, answers: seq<Front.Reply>)
  {
    function On(turn: nat, m: Msg, answer: Front.Reply): Served {
      Served(turns + [turn], replies + [Front.ReplyTo(m, answer.outcome)], answers + [answer])
    }
  }

  /** Some of the first `k` turns answered the messages in order, each with what its own call gave. */
  ghost predicate Answers(ms: seq<Msg>, ios: seq<Io>, k: nat, d: Served) {
    && |d.turns| == |d.replies| == |d.answers| <= |ms| && k <= |ios|
    && (forall i :: 0 <= i < |d.turns| ==> d.turns[i] < k)
    && (forall i, j :: 0 <= i < j < |d.turns| ==> d.turns[i] < d.turns[j])
    && (forall i :: 0 <= i < |d.turns| ==> Answered(ms[i], ios[d.turns[i]], d.replies[i], d.answers[i]))
  }

  ghost predicate Answered(m: Msg, io: Io, reply: Msg, answer: Front.Reply) {
    answer.outcome == io.Outcome(m) && reply == Front.ReplyTo(m, answer.outcome)
  }

  /** What a reply tells the sender, field by field. */
  ghost predicate Tells(m: Msg, io: Io, reply: Msg) {
    && reply.sendId == m.sendId && reply.receiverId == m.receiverId && reply.localId == m.localId
    && reply.createTime == m.createTime && reply.sendTime == m.sendTime
    && reply.number == m.number && reply.isRead == m.isRead
    && if io.rpc.Returned?
       then && reply.msgType == 1 && reply.serverId == io.id
            && reply.content == (if io.produce.Failed? then io.produce.error else "")
            && reply.contentType == (if reply.content != "" then 2 else m.contentType)
       else && reply.content == io.rpc.text && reply.serverId == m.serverId
            && reply.msgType == m.msgType && reply.contentType == m.contentType
  }

  /** Every reply of a turn does. */
  lemma {:induction false} RepliesTell(m: Msg, io: Io)
    ensures Tells(m, io, Front.ReplyTo(m, io.Outcome(m)))
  {
    Front.ReplyFields(m, io.Outcome(m));
  }

  lemma {:induction false} AnswersStay(ms: seq<Msg>, more: seq<Msg>, ios: seq<Io>, k: nat, d: Served)
    requires Answers(ms, ios, k, d) && ms <= more
    ensures Answers(more, ios, k, d)
  {
  }

  lemma {:induction false} AnswersOn(ms: seq<Msg>, ios: seq<Io>, k: nat, d: Served, answer: Front.Reply)
    requires Answers(ms, ios, k, d) && |d.turns| < |ms| && k < |ios|
    requires answer.outcome == ios[k].Outcome(ms[|d.turns|])
    ensures Answers(ms, ios, k + 1, d.On(k, ms[|d.turns|], answer))
  {
  }

  ghost predicate AllTell(ms: seq<Msg>, ios: seq<Io>, d: Served) {
    && |d.turns| == |d.replies| <= |ms|
    && forall i :: 0 <= i < |d.turns| ==> d.turns[i] < |ios| && Tells(ms[i], ios[d.turns[i]], d.replies[i])
  }

  lemma {:induction false} AnswersTell(ms: seq<Msg>, ios: seq<Io>, k: nat, d: Served)
    requires Answers(ms, ios, k, d)
    ensures AllTell(ms, ios, d)
  {
    forall i | 0 <= i < |d.turns|
      ensures Tells(ms[i], ios[d.turns[i]], d.replies[i])
    {
      RepliesTell(ms[i], ios[d.turns[i]]);
    }
  }

  /** The messages of one sender. */
  function SentBy(ms: seq<Msg>, user: string): seq<Msg> {
    if ms == [] then []
    else SentBy(ms[..|ms| - 1], user) + if ms[|ms| - 1].sendId == user then [ms[|ms| - 1]] else []
  }

  lemma {:induction false} SentByOn(ms: seq<Msg>, m: Msg, user: string)
    ensures SentBy(ms + [m], user) == SentBy(ms, user) + if m.sendId == user then [m] else []
  {
    assert (ms + [m])[..|ms|] == ms;
  }

  /** They are all and only the sender's, as often as they are there. */
  lemma {:induction false} SentByIsExact(ms: seq<Msg>, user: string, m: Msg)
    ensures multiset(SentBy(ms, user))[m] == if m.sendId == user then multiset(ms)[m] else 0
  {
    if ms != [] {
      assert ms == ms[..|ms| - 1] + [ms[|ms| - 1]];
      SentByIsExact(ms[..|ms| - 1], user, m);
    }
  }

  lemma {:induction false} Regroup(a: seq<Msg>, b: seq<Msg>, c: seq<Msg>)
    ensures a + b + c == a + (b + c)
  {
  }

  /** A reply to a user goes to an open socket of that user and to no other. */
  lemma {:induction false} WrittenOn(was: seq<Msg>, now: seq<Msg>, base: seq<Msg>, replies: seq<Msg>, answer: Msg,
                                     user: string, open: bool)
    requires was == if open then base + SentBy(replies, user) else base
    requires now == was + if answer.sendId == user && open then [answer] else []
    ensures now == if open then base + SentBy(replies + [answer], user) else base
  {
    SentByOn(replies, answer, user);
  }

  class Manager {
    const tx: Channel<Msg>
    const chat: Chat.ChatRpcService
    var hub: Hub.Table<Client>
    ghost var trace: seq<Front.Step>
    ghost var conns: map<nat, Client> // every connection that ever registered
    ghost var hubTrace: seq<Hub.Step>

    ghost function View(): Front.State
      reads this
    {
      Front.Play(Front.Init(1), trace)
    }

    ghost predicate QueueMatches(node: Front.Node)
      reads tx
    {
      && |tx.sent| == |node.accepted|
      && (forall i :: 0 <= i < |tx.sent| ==> tx.sent[i] == node.accepted[i].msg)
      && tx.taken + |node.queue| == |tx.sent|
    }

    /** The channel, the chat service's topic and the view of the machine agree. */
    ghost predicate Valid()
      reads this, tx, chat
    {
      && tx.Valid() && tx.capacity == Front.QUEUE_CAPACITY
      && |View().nodes| == 1
      && QueueMatches(View().nodes[0])
      && chat.topic == Pipeline.MessagesOf(View().log)
    }

    ghost function HubView(): Hub.State
      reads this
    {
      Hub.Run(hubTrace)
    }

    /** The hub agrees with its machine, and every connection has its own socket. */
    ghost predicate HubValid()
      reads this
    {
      && Mirrors(hub, conns, HubView())
      && (forall c :: c in conns ==> c < |hubTrace|)
      && (forall c, d :: c in conns && d in conns && c != d ==> conns[c].sender != conns[d].sender)
    }

    ghost predicate OwnSocketsOf(user: string)
      reads this
    {
      user in hub ==> OwnSockets(hub[user])
    }

    constructor (tx: Channel<Msg>, chat: Chat.ChatRpcService)
      requires tx.Valid() && tx.capacity == Front.QUEUE_CAPACITY && tx.sent == [] && chat.topic == []
      ensures Valid() && HubValid() && hub == map[] && this.tx == tx && this.chat == chat && trace == []
              && hubTrace == []
    {
      this.tx, this.chat := tx, chat;
      hub, trace, conns, hubTrace := map[], [], map[], [];
      new;
    }

    ghost method Tick(step: Front.Step)
      modifies `trace
      ensures trace == old(trace) + [step] && View() == Front.Next(old(View()), step)
    {
      trace := trace + [step];
      assert trace[..|trace| - 1] == old(trace);
    }

    /** Whatever the service did, it is in a state the machine's theorems speak of. */
    lemma StateIsSound()
      ensures Front.Inv(View())
    {
      Front.InitInv(1);
      Front.PlayKeepsInv(Front.Init(1), trace);
    }

    /** The hub holds exactly the client of the connection registered last on a key, if no connection of
        that key ended since; all its clients are of live connections under their own keys. */
    lemma HubIsSound(user: string, platform: string)
      requires HubValid()
      ensures Hub.Lookup(hub, user, platform) == ClientOf(conns, Hub.Holder(hubTrace, user, platform))
      ensures Hub.Lookup(hub, user, platform).Some? ==>
                exists c :: c in conns && HubView().conns[c] == Hub.Conn(user, platform, true)
                            && Hub.Lookup(hub, user, platform) == Some(conns[c])
    {
      Hub.HubHoldsLastRegistered(hubTrace, user, platform);
      Hub.EntriesAreLive(hubTrace);
    }

    /** When no connection has opened a busy key, the hub holds every live connection's client. */
    lemma HubHoldsTheLive(c: nat)
      requires HubValid() && Hub.NoOverlap(hubTrace) && c in conns && HubView().conns[c].live
      ensures Hub.Lookup(hub, HubView().conns[c].user, HubView().conns[c].platform) == Some(conns[c])
    {
      Hub.ExactIffNoOverlap(hubTrace);
    }

    /** A connection's first act; `client` holds the connection's own socket. */
    method Register(user: string, client: Client) returns (ghost c: nat)
      requires HubValid() && forall d :: d in conns ==> conns[d].sender != client.sender
      modifies `hub, `conns, `hubTrace
      ensures HubValid() && c !in old(conns) && conns == old(conns)[c := client]
      ensures hubTrace == old(hubTrace) + [Hub.Open(c, user, client.platformId)]
      ensures HubView().conns == old(HubView()).conns[c := Hub.Conn(user, client.platformId, true)]
      ensures user in hub && client.platformId in hub[user] && hub[user][client.platformId] == client
      ensures Hub.Lookup(hub, user, client.platformId) == Some(client)
      ensures forall u, p :: u != user || p != client.platformId ==> Hub.Lookup(hub, u, p) == Hub.Lookup(old(hub), u, p)
    {
      c := |hubTrace|;
      Hub.EntriesAreLive(hubTrace);
      OpenMirrors(hub, conns, HubView(), c, user, client);
      forall u, p {
        Hub.LookupRegistered(hub, user, client.platformId, client, u, p);
      }
      var entry := if user in hub then hub[user] else map[];
      hub := hub[user := entry[client.platformId := client]];
      conns := conns[c := client];
      HubTick(Hub.Open(c, user, client.platformId));
    }

    ghost method HubTick(step: Hub.Step)
      modifies `hubTrace
      ensures hubTrace == old(hubTrace) + [step] && HubView() == Hub.Next(old(HubView()), step)
    {
      hubTrace := hubTrace + [step];
      assert hubTrace[..|hubTrace| - 1] == old(hubTrace);
    }

    /** A connection's last act: it unregisters the key it registered under, whoever holds it now. */
    method Unregister(user: string, platform: string, ghost c: nat)
      requires HubValid() && c in HubView().conns && HubView().conns[c] == Hub.Conn(user, platform, true)
      modifies `hub, `hubTrace
      ensures HubValid() && hubTrace == old(hubTrace) + [Hub.Close(c)]
      ensures HubView().conns == old(HubView()).conns[c := Hub.Conn(user, platform, false)]
      ensures Hub.Lookup(hub, user, platform) == None
      ensures forall u, p :: u != user || p != platform ==> Hub.Lookup(hub, u, p) == Hub.Lookup(old(hub), u, p)
      ensures user in old(hub) ==> user in hub && platform !in hub[user]
    {
      CloseMirrors(hub, conns, HubView(), c);
      forall u, p {
        Hub.LookupUnregistered(hub, user, platform, u, p);
      }
      if user in hub {
        hub := hub[user := map p | p in hub[user] && p != platform :: hub[user][p]];
        assert hub[user] == old(hub)[user] - {platform};
      }
      HubTick(Hub.Close(c));
    }

    /** A message to a user goes to each of the user's clients on this node, once. */
    method SendSingleMsg(user: string, msg: Msg)
      requires OwnSocketsOf(user)
      modifies ClientSockets(user)`written
      ensures user in hub ==>
                forall p :: p in hub[user] ==>
                              hub[user][p].sender.written == old(hub[user][p].sender.written)
                                                             + if hub[user][p].sender.open then [msg] else []
    {
      if user in hub {
        SendMsgToClients(hub[user], msg);
      }
    }

    /** One poll of a connection's send into the queue. */
    method Broadcast(msg: Msg) returns (r: Poll)
      requires Valid()
      modifies `trace, tx`sent
      ensures Valid()
      ensures r.Failed? <==> tx.closed
      ensures r.Done? <==> !tx.closed && |old(tx.Queue())| < 1024
      ensures tx.sent == old(tx.sent) + if r.Done? then [msg] else []
      ensures trace == old(trace) + if r.Done? then [Front.Accept(0, None, msg)] else []
      ensures View().nodes[0].phase == old(View()).nodes[0].phase
              && View().nodes[0].replies == old(View()).nodes[0].replies
      ensures View().used == old(View()).used
    {
      r := tx.Offer(msg);
      if r.Done? {
        Tick(Front.Accept(0, None, msg));
      } else {
        assert trace == trace + [];
      }
    }

    /** Take the next message, if there is one. */
    method TakeOne() returns (message: Option<Msg>)
      requires Valid() && View().nodes[0].phase.Idle?
      modifies `trace, tx`taken
      ensures Valid() && hub == old(hub)
      ensures message.None? <==> old(tx.Queue()) == []
      ensures message.None? ==> trace == old(trace) && tx.taken == old(tx.taken)
      ensures message.Some? ==>
                && message.value == old(tx.Queue())[0] && tx.Queue() == old(tx.Queue())[1..]
                && trace == old(trace) + [Front.Take(0)]
                && View().used == old(View()).used
                && View().nodes[0].phase.Calling? && View().nodes[0].phase.entry.msg == message.value
                && View().nodes[0].replies == old(View()).nodes[0].replies
    {
      StateIsSound();
      ghost var node := View().nodes[0];
      HeadOfQueue(node);
      message := tx.Receive();
      if message.Some? {
        Tick(Front.Take(0));
        assert View().nodes[0] == node.(queue := node.queue[1..], phase := Front.Calling(node.queue[0]));
      }
    }

    lemma HeadOfQueue(node: Front.Node)
      requires tx.Valid() && Front.Conserved(node) && QueueMatches(node)
      ensures |node.queue| == |tx.Queue()|
      ensures node.queue != [] ==> node.queue[0].msg == tx.Queue()[0]
    {
    }

    /** Ask chat to publish the message and see how the call ends. */
    method CallChat(message: Msg, io: Io) returns (outcome: Front.Outcome)
      requires Valid() && io.Sensible() && io.id !in View().used
      requires View().nodes[0].phase.Calling? && View().nodes[0].phase.entry.msg == message
      modifies `trace, chat
      ensures Valid() && outcome == io.Outcome(message)
      ensures var node := old(View()).nodes[0];
              View().nodes[0] == node.(phase := Front.Answered(node.phase.entry, outcome))
      ensures trace == old(trace) + io.CallScript(|old(View()).nodes[0].replies|)
      ensures View().used == old(View()).used + {io.id}
      ensures io.rpc.Returned? ==>
                && outcome.Response? && outcome.answer.localId == message.localId
                && outcome.answer.serverId == io.id && outcome.answer.sendTime == io.now
                && outcome.answer.err == if io.produce.Failed? then io.produce.error else ""
      ensures !io.rpc.Returned? ==> outcome == Front.RpcError(io.rpc.text)
      ensures chat.topic == old(chat.topic) +
                            if io.rpc.Never? || (io.produce.Failed? && !io.produce.appended) then []
                            else [message.(serverId := io.id, sendTime := io.now)]
    {
      if io.rpc.Never? {
        outcome := Front.RpcError(io.rpc.text);
        Tick(Front.Fail(0, io.id, io.now, io.rpc.text));
        return;
      }
      var answer := Publish(message, io);
      outcome := Front.Response(answer);
      if io.rpc.AnswerLost? {
        outcome := Front.RpcError(io.rpc.text);
        Tick(Front.Lose(0, io.rpc.text));
      }
    }

    method Publish(message: Msg, io: Io) returns (answer: Chat.Answer)
      requires Valid() && io.Sensible() && io.id !in View().used && !io.rpc.Never?
      requires View().nodes[0].phase.Calling? && View().nodes[0].phase.entry.msg == message
      modifies `trace, chat
      ensures Valid()
      ensures answer == Chat.AnswerTo(message, io.id, io.now, if io.produce.Failed? then io.produce.error else "")
      ensures var node := old(View()).nodes[0];
              View().nodes[0] == node.(phase := Front.Answered(node.phase.entry, Front.Response(answer)))
      ensures trace == old(trace) + io.PublishScript(|old(View()).nodes[0].replies|)
      ensures View().used == old(View()).used + {io.id}
      ensures chat.topic == old(chat.topic) + if io.produce.Failed? && !io.produce.appended then []
                                              else [message.(serverId := io.id, sendTime := io.now)]
    {
      ghost var index := |View().nodes[0].replies|;
      var r := chat.SendMsg(Some(message), io.id, io.now, io.produce);
      answer := r.value;
      match io.produce {
        case Delivered =>
          Tick(Front.Deliver(0, io.id, io.now));
        case Failed(error, appended) =>
          Tick(Front.Refuse(0, io.id, io.now, error));
          if appended {
            Tick(Front.Surface(Front.Origin(0, index)));
          }
      }
    }

    /** Rewrite the taken message and send it back to every client of its sender. */
    method SendBack(taken: Msg, outcome: Front.Outcome) returns (ghost sent: Msg)
      requires Valid() && OwnSocketsOf(taken.sendId)
      requires View().nodes[0].phase.Answered? && View().nodes[0].phase.outcome == outcome
      modifies `trace, ClientSockets(taken.sendId)`written
      ensures Valid() && View().nodes[0].phase.Idle? && View().used == old(View()).used
      ensures trace == old(trace) + [Front.SendBack(0)]
      ensures View().nodes[0].replies == old(View()).nodes[0].replies
              + [Front.Reply(old(View()).nodes[0].phase.entry, outcome)]
      ensures taken.sendId in hub ==>
                forall p :: p in hub[taken.sendId] ==>
                              var socket := hub[taken.sendId][p].sender;
                              socket.written == old(socket.written) + if socket.open then [sent] else []
      ensures sent == Front.ReplyTo(taken, outcome)
      ensures outcome.Response? ==>
                && sent.msgType == 1 && sent.serverId == outcome.answer.serverId && sent.content == outcome.answer.err
                && sent.contentType == if outcome.answer.err != "" then 2 else taken.contentType
      ensures outcome.RpcError? ==>
                && sent.content == outcome.text && sent.serverId == taken.serverId
                && sent.msgType == taken.msgType && sent.contentType == taken.contentType
      ensures && sent.sendId == taken.sendId && sent.receiverId == taken.receiverId && sent.localId == taken.localId
              && sent.createTime == taken.createTime && sent.sendTime == taken.sendTime
              && sent.number == taken.number && sent.isRead == taken.isRead
    {
      var message := taken;
      match outcome {
        case Response(answer) =>
          if answer.err != "" {
            message := message.(contentType := CONTENT_ERROR);
          }
          message := message.(msgType := MSG_REC_RESP);
          message := message.(serverId := answer.serverId);
          message := message.(content := answer.err);
        case RpcError(text) =>
          message := message.(content := text);
      }
      assert message == Front.ReplyTo(taken, outcome);
      sent := message;
      SendSingleMsg(message.sendId, message);
      Tick(Front.SendBack(0));
    }

    ghost function ClientSockets(user: string): set<Socket>
      reads this
    {
      if user in hub then SocketsOf(hub[user]) else {}
    }

    /** One turn of the manager loop: publish the next message and answer its sender. `sender` is the
        sender of the message at the head of the queue. */
    method Turn(io: Io, ghost sender: string) returns (served: bool, ghost reply: Option<Front.Reply>)
      requires Valid() && View().nodes[0].phase.Idle? && io.Sensible() && io.id !in View().used
      requires tx.Queue() != [] ==> sender == tx.Queue()[0].sendId
      requires OwnSocketsOf(sender)
      modifies `trace, tx`taken, chat, ClientSockets(sender)`written
      ensures Valid() && View().nodes[0].phase.Idle?
      ensures View().used <= old(View()).used + if served then {io.id} else {}
      ensures served <==> old(tx.Queue()) != []
      ensures !served ==> trace == old(trace) && tx.taken == old(tx.taken)
      ensures !served ==> forall o :: o in ClientSockets(sender) ==> o.written == old(o.written)
      ensures served ==>
                && trace == old(trace) + TurnScript(io, |old(View()).nodes[0].replies|)
                && tx.Queue() == old(tx.Queue())[1..]
                && reply.Some? && View().nodes[0].replies == old(View()).nodes[0].replies + [reply.value]
                && reply.value.outcome == io.Outcome(old(tx.Queue())[0])
      ensures served && sender in hub ==>
                var m := old(tx.Queue())[0];
                forall p :: p in hub[sender] ==>
                              var socket := hub[sender][p].sender;
                              socket.written == old(socket.written)
                                + if socket.open then [Front.ReplyTo(m, io.Outcome(m))] else []
      ensures served ==> var m := old(tx.Queue())[0]; Tells(m, io, Front.ReplyTo(m, io.Outcome(m)))
    {
      reply := None;
      var taken := TakeOne();
      served := taken.Some?;
      if served {
        RepliesTell(taken.value, io);
        reply := Serve(taken.value, io);
      }
    }

    /** Publish the message just taken and answer its sender. */
    method Serve(taken: Msg, io: Io) returns (ghost reply: Option<Front.Reply>)
      requires Valid() && io.Sensible() && io.id !in View().used && OwnSocketsOf(taken.sendId)
      requires View().nodes[0].phase.Calling? && View().nodes[0].phase.entry.msg == taken
      modifies `trace, chat, ClientSockets(taken.sendId)`written
      ensures Valid() && View().nodes[0].phase.Idle? && View().used == old(View()).used + {io.id}
      ensures trace == old(trace) + io.CallScript(|old(View()).nodes[0].replies|) + [Front.SendBack(0)]
      ensures reply.Some? && View().nodes[0].replies == old(View()).nodes[0].replies + [reply.value]
      ensures reply.value.outcome == io.Outcome(taken)
      ensures taken.sendId in hub ==>
                forall p :: p in hub[taken.sendId] ==>
                              var socket := hub[taken.sendId][p].sender;
                              socket.written == old(socket.written)
                                + if socket.open then [Front.ReplyTo(taken, io.Outcome(taken))] else []
    {
      var outcome := CallChat(taken, io);
      reply := Some(Front.Reply(View().nodes[0].phase.entry, outcome));
      ghost var sent := SendBack(taken, outcome);
    }

    static function TurnScript(io: Io, index: nat): seq<Front.Step> {
      [Front.Take(0)] + io.CallScript(index) + [Front.SendBack(0)]
    }

    ghost function AllSockets(): set<Socket>
      reads this
    {
      set u, p | u in hub && p in hub[u] :: hub[u][p].sender
    }

    /** Every socket is filed once. */
    ghost predicate SocketsApart()
      reads this
    {
      forall u, p, v, q :: u in hub && p in hub[u] && v in hub && q in hub[v] && (u != v || p != q) ==>
                             hub[u][p].sender != hub[v][q].sender
    }

    lemma SocketsAreApart()
      requires HubValid()
      ensures SocketsApart()
    {
      Hub.EntriesAreLive(hubTrace);
      forall u, p, v, q | u in hub && p in hub[u] && v in hub && q in hub[v] && (u != v || p != q)
        ensures hub[u][p].sender != hub[v][q].sender
      {
        assert Hub.Lookup(hub, u, p) == ClientOf(conns, Hub.Lookup(HubView().table, u, p));
        assert Hub.Lookup(hub, v, q) == ClientOf(conns, Hub.Lookup(HubView().table, v, q));
      }
    }

    /** The manager loop over as many turns as `ios` describes, while connections send. Messages are
        answered in the order they were accepted, none left out, one reply each, with what their own
        turn's call gave; each reply is written once to every open client of its sender and to nobody
        else. */
    method Run(ios: seq<Io>) returns (served: nat, ghost done: Served)
      requires Valid() && HubValid() && View().nodes[0].phase.Idle? && Unspent(ios, 0)
      modifies `trace, tx`sent, tx`taken, chat, AllSockets()`written
      ensures Valid() && HubValid() && View().nodes[0].phase.Idle?
      ensures old(tx.sent) <= tx.sent && tx.taken == old(tx.taken) + served && served == |done.turns|
      ensures served <= |ios| && (served == |ios| || served >= |old(tx.Queue())|)
      ensures View().nodes[0].replies == old(View()).nodes[0].replies + done.answers
      ensures Answers(tx.sent[old(tx.taken)..], ios, |ios|, done)
      ensures AllTell(tx.sent[old(tx.taken)..], ios, done)
      ensures forall u, p :: u in hub && p in hub[u] ==>
                               var socket := hub[u][p].sender;
                               socket.written == if socket.open then old(socket.written) + SentBy(done.replies, u)
                                                 else old(socket.written)
    {
      SocketsAreApart();
      served, done := RunApart(ios);
      AnswersTell(tx.sent[old(tx.taken)..], ios, |ios|, done);
    }

    method RunApart(ios: seq<Io>) returns (served: nat, ghost done: Served)
      requires Valid() && View().nodes[0].phase.Idle? && SocketsApart() && Unspent(ios, 0)
      modifies `trace, tx`sent, tx`taken, chat, AllSockets()`written
      ensures Valid() && View().nodes[0].phase.Idle?
      ensures old(tx.sent) <= tx.sent && tx.taken == old(tx.taken) + served && served == |done.turns|
      ensures served <= |ios| && (served == |ios| || served >= |old(tx.Queue())|)
      ensures View().nodes[0].replies == old(View()).nodes[0].replies + done.answers
      ensures Answers(tx.sent[old(tx.taken)..], ios, |ios|, done)
      ensures forall u, p :: u in hub && p in hub[u] ==>
                               var socket := hub[u][p].sender;
                               socket.written == if socket.open then old(socket.written) + SentBy(done.replies, u)
                                                 else old(socket.written)
    {
      ghost var base := map o | o in AllSockets() :: o.written;
      served, done := Turns(ios, base);
    }

    method Turns(ios: seq<Io>, ghost base: map<Socket, seq<Msg>>) returns (served: nat, ghost done: Served)
      requires Valid() && View().nodes[0].phase.Idle? && SocketsApart() && Unspent(ios, 0) && Wrote(base, [])
      modifies `trace, tx`sent, tx`taken, chat, AllSockets()`written
      ensures Valid() && View().nodes[0].phase.Idle?
      ensures old(tx.sent) <= tx.sent && tx.taken == old(tx.taken) + served && served == |done.turns|
      ensures served <= |ios| && (served == |ios| || served >= |old(tx.Queue())|)
      ensures View().nodes[0].replies == old(View()).nodes[0].replies + done.answers
      ensures Answers(tx.sent[old(tx.taken)..], ios, |ios|, done) && Wrote(base, done.replies)
    {
      ghost var before, queued := View().nodes[0].replies, |tx.Queue()|;
      served, done := 0, Served([], [], []);
      for k := 0 to |ios|
        invariant Valid() && View().nodes[0].phase.Idle?
        invariant old(tx.sent) <= tx.sent && tx.taken == old(tx.taken) + served && served == |done.turns|
        invariant served <= k && (served == k || served >= queued)
        invariant Answers(tx.sent[old(tx.taken)..], ios, k, done)
        invariant View().nodes[0].replies == before + done.answers
        invariant Unspent(ios, k) && Wrote(base, done.replies)
      {
        var more;
        more, done := OfferAndTurn(ios, k, old(tx.taken), before, base, done);
        if more {
          served := served + 1;
        }
      }
    }

    /** The turns from `k` on use ids that are new. */
    ghost predicate Unspent(ios: seq<Io>, k: nat)
      reads this
    {
      && (forall j :: k <= j < |ios| ==> ios[j].Sensible() && ios[j].id !in View().used)
      && (forall i, j :: k <= i < j < |ios| ==> ios[i].id != ios[j].id)
    }

    /** Every open client has been written exactly the replies to its user. */
    ghost predicate Wrote(base: map<Socket, seq<Msg>>, replies: seq<Msg>)
      reads this, AllSockets()
    {
      forall u, p :: u in hub && p in hub[u] ==> WroteTo(hub[u][p].sender, base, SentBy(replies, u))
    }

    static ghost predicate WroteTo(socket: Socket, base: map<Socket, seq<Msg>>, replies: seq<Msg>)
      reads socket
    {
      socket in base && socket.written == if socket.open then base[socket] + replies else base[socket]
    }

    method OfferAndTurn(ios: seq<Io>, k: nat, ghost from: nat, ghost before: seq<Front.Reply>,
                        ghost base: map<Socket, seq<Msg>>, ghost done: Served)
      returns (served: bool, ghost after: Served)
      requires Valid() && View().nodes[0].phase.Idle? && SocketsApart()
      requires k < |ios| && Unspent(ios, k) && View().nodes[0].replies == before + done.answers
      requires tx.taken == from + |done.turns| && Answers(tx.sent[from..], ios, k, done) && Wrote(base, done.replies)
      modifies `trace, tx`sent, tx`taken, chat, AllSockets()`written
      ensures Valid() && View().nodes[0].phase.Idle? && old(tx.sent) <= tx.sent
      ensures Unspent(ios, k + 1) && View().nodes[0].replies == before + after.answers
      ensures old(tx.taken < |tx.sent|) ==> served
      ensures |after.turns| == |done.turns| + (if served then 1 else 0) && tx.taken == from + |after.turns|
      ensures Answers(tx.sent[from..], ios, k + 1, after) && Wrote(base, after.replies)
    {
      OfferMore(ios, k, from, done);
      served, after := OneTurn(ios, k, from, before, base, done);
    }

    method OneTurn(ios: seq<Io>, k: nat, ghost from: nat, ghost before: seq<Front.Reply>,
                   ghost base: map<Socket, seq<Msg>>, ghost done: Served)
      returns (served: bool, ghost after: Served)
      requires Valid() && View().nodes[0].phase.Idle? && SocketsApart()
      requires k < |ios| && Unspent(ios, k) && View().nodes[0].replies == before + done.answers
      requires tx.taken == from + |done.turns| && Answers(tx.sent[from..], ios, k, done) && Wrote(base, done.replies)
      modifies `trace, tx`taken, chat, AllSockets()`written
      ensures Valid() && View().nodes[0].phase.Idle?
      ensures Unspent(ios, k + 1) && View().nodes[0].replies == before + after.answers
      ensures served <==> old(tx.taken) < |tx.sent|
      ensures |after.turns| == |done.turns| + (if served then 1 else 0) && tx.taken == from + |after.turns|
      ensures Answers(tx.sent[from..], ios, k + 1, after) && Wrote(base, after.replies)
    {
      ghost var ms := tx.sent[from..];
      ghost var reply, m;
      served, reply, m := AnswerNext(ios[k], base, done.replies);
      assert tx.sent[from..] == ms;
      if served {
        assert m == ms[|done.turns|];
        AnswersOn(ms, ios, k, done, reply.value);
        after := done.On(k, m, reply.value);
      } else {
        after := done;
      }
    }

    method OfferMore(ios: seq<Io>, k: nat, ghost from: nat, ghost done: Served)
      requires Valid() && from <= tx.taken && k < |ios| && Unspent(ios, k) && Answers(tx.sent[from..], ios, k, done)
      modifies `trace, tx`sent
      ensures Valid() && old(tx.sent) <= tx.sent && Unspent(ios, k) && Answers(tx.sent[from..], ios, k, done)
      ensures View().nodes[0].phase == old(View()).nodes[0].phase
              && View().nodes[0].replies == old(View()).nodes[0].replies
    {
      ghost var queued := tx.sent[from..];
      OfferAll(ios[k].arrivals);
      AnswersStay(queued, tx.sent[from..], ios, k, done);
    }

    method AnswerNext(io: Io, ghost base: map<Socket, seq<Msg>>, ghost replies: seq<Msg>)
      returns (served: bool, ghost reply: Option<Front.Reply>, ghost m: Msg)
      requires Valid() && View().nodes[0].phase.Idle? && io.Sensible() && io.id !in View().used && SocketsApart()
      requires Wrote(base, replies)
      modifies `trace, tx`taken, chat, AllSockets()`written
      ensures Valid() && View().nodes[0].phase.Idle?
      ensures View().used <= old(View()).used + {io.id}
      ensures served <==> old(tx.taken) < |tx.sent|
      ensures tx.taken == old(tx.taken) + if served then 1 else 0
      ensures !served ==> View().nodes[0].replies == old(View()).nodes[0].replies
      ensures served ==>
                && reply.Some? && View().nodes[0].replies == old(View()).nodes[0].replies + [reply.value]
                && m == tx.sent[old(tx.taken)] && reply.value.outcome == io.Outcome(m)
      ensures Wrote(base, if served then replies + [Front.ReplyTo(m, io.Outcome(m))] else replies)
    {
      served, reply, m := TurnForAny(io);
      if served {
        ghost var answer := Front.ReplyTo(m, io.Outcome(m));
        assert answer.sendId == m.sendId;
        forall u, p | u in hub && p in hub[u]
          ensures WroteTo(hub[u][p].sender, base, SentBy(replies + [answer], u))
        {
          var socket := hub[u][p].sender;
          assert old(WroteTo(hub[u][p].sender, base, SentBy(replies, u)));
          WrittenOn(old(socket.written), socket.written, base[socket], replies, answer, u, socket.open);
        }
      }
    }

    /** Connections poll their sends. */
    method OfferAll(ms: seq<Msg>)
      requires Valid()
      modifies `trace, tx`sent
      ensures Valid() && old(tx.sent) <= tx.sent
      ensures View().nodes[0].phase == old(View()).nodes[0].phase
              && View().nodes[0].replies == old(View()).nodes[0].replies
      ensures View().used == old(View()).used
    {
      for k := 0 to |ms|
        invariant Valid() && old(tx.sent) <= tx.sent
        invariant View().nodes[0].phase == old(View()).nodes[0].phase
                  && View().nodes[0].replies == old(View()).nodes[0].replies
        invariant View().used == old(View()).used
      {
        var r := Broadcast(ms[k]);
      }
    }

    method TurnForAny(io: Io) returns (served: bool, ghost reply: Option<Front.Reply>, ghost m: Msg)
      requires Valid() && View().nodes[0].phase.Idle? && io.Sensible() && io.id !in View().used && SocketsApart()
      modifies `trace, tx`taken, chat, AllSockets()`written
      ensures Valid() && View().nodes[0].phase.Idle?
      ensures View().used <= old(View()).used + if served then {io.id} else {}
      ensures served <==> old(tx.taken) < |tx.sent|
      ensures tx.taken == old(tx.taken) + if served then 1 else 0
      ensures !served ==> View().nodes[0].replies == old(View()).nodes[0].replies
      ensures served ==> reply.Some? && View().nodes[0].replies == old(View()).nodes[0].replies + [reply.value]
                         && m == tx.sent[old(tx.taken)] && reply.value.outcome == io.Outcome(m)
      ensures forall u, p :: u in hub && p in hub[u] ==>
                               var socket := hub[u][p].sender;
                               socket.written == old(socket.written) + if served && m.sendId == u && socket.open
                                                                       then [Front.ReplyTo(m, io.Outcome(m))] else []
    {
      if tx.Queue() != [] {
        m := tx.Queue()[0];
      } else {
        m := *;
      }
      assert ClientSockets(m.sendId) <= AllSockets();
      served, reply := Turn(io, m.sendId);
    }
  }

  // ---- One connection's receive task ----

  /** What the socket's reader yields; a text that is no message carries none. */
  datatype Frame = Text(parsed: Option<Msg>) | Ping(answered: bool) | Pong | Binary | Close | Broken

  predicate Ends(f: Frame) {
    f.Close? || f.Broken? || f == Ping(false)
  }

  /** The messages among the frames before the one that ends the receive loop. */
  function MessagesRead(frames: seq<Frame>): seq<Msg> {
    if frames == [] || Ends(frames[0]) then []
    else (if frames[0].Text? && frames[0].parsed.Some? then [frames[0].parsed.value] else [])
         + MessagesRead(frames[1..])
  }

  lemma {:induction false} ReadOn(frames: seq<Frame>, i: nat)
    requires i < |frames|
    ensures Ends(frames[i]) ==> MessagesRead(frames[i..]) == []
    ensures !Ends(frames[i]) ==>
              MessagesRead(frames[i..]) ==
              (if frames[i].Text? && frames[i].parsed.Some? then [frames[i].parsed.value] else [])
                + MessagesRead(frames[i + 1..])
  {
    assert frames[i..][1..] == frames[i + 1..];
  }

  /** Where the readable messages lie: from `from` on, `e` is the first frame that is a close, broken, or a ping
      that could not be answered; `picks` are the frames before it that hold a readable message. */
  ghost predicate Lie(frames: seq<Frame>, from: nat, e: nat, picks: seq<nat>) {
    EndsAt(frames, from, e) && Rises(picks, from, e) && Complete(frames, from, e, picks)
  }

  ghost predicate EndsAt(frames: seq<Frame>, from: nat, e: nat) {
    && from <= e <= |frames|
    && (forall i :: from <= i < e ==> frames[i] != Close && frames[i] != Broken && frames[i] != Ping(false))
    && (e < |frames| ==> frames[e] == Close || frames[e] == Broken || frames[e] == Ping(false))
  }

  ghost predicate Rises(picks: seq<nat>, from: nat, e: nat) {
    && (forall k :: 0 <= k < |picks| ==> from <= picks[k] < e)
    && (forall i, j :: 0 <= i < j < |picks| ==> picks[i] < picks[j])
  }

  ghost predicate Complete(frames: seq<Frame>, from: nat, e: nat, picks: seq<nat>) {
    e <= |frames| && forall i: nat :: from <= i < e ==> (i in picks <==> Readable(frames[i]))
  }

  predicate Readable(f: Frame) {
    f.Text? && f.parsed.Some?
  }

  ghost predicate Picked(frames: seq<Frame>, picks: seq<nat>, ms: seq<Msg>) {
    && |ms| == |picks|
    && forall k :: 0 <= k < |picks| ==> picks[k] < |frames| && frames[picks[k]] == Text(Some(ms[k]))
  }

  lemma {:induction false} WhereTheyLie(frames: seq<Frame>, from: nat) returns (e: nat, picks: seq<nat>)
    requires from <= |frames|
    ensures Lie(frames, from, e, picks) && Picked(frames, picks, MessagesRead(frames[from..]))
    decreases |frames| - from
  {
    e, picks := from, [];
    if from < |frames| {
      ReadOn(frames, from);
      if !Ends(frames[from]) {
        e, picks := WhereTheyLie(frames, from + 1);
        LieOn(frames, from, e, picks);
        if Readable(frames[from]) {
          PickedOn(frames, from, picks, frames[from].parsed.value, MessagesRead(frames[from + 1..]));
          picks := [from] + picks;
        }
      }
    }
  }

  lemma {:induction false} LieOn(frames: seq<Frame>, from: nat, e: nat, picks: seq<nat>)
    requires from < |frames| && !Ends(frames[from]) && Lie(frames, from + 1, e, picks)
    ensures Lie(frames, from, e, if Readable(frames[from]) then [from] + picks else picks)
  {
    EndsOn(frames, from, e);
    RisesOn(picks, from, e);
    CompleteOn(frames, from, e, picks);
  }

  lemma {:induction false} EndsOn(frames: seq<Frame>, from: nat, e: nat)
    requires from < |frames| && !Ends(frames[from]) && EndsAt(frames, from + 1, e)
    ensures EndsAt(frames, from, e)
  {
  }

  lemma {:induction false} RisesOn(picks: seq<nat>, from: nat, e: nat)
    requires from < e && Rises(picks, from + 1, e)
    ensures Rises(picks, from, e) && Rises([from] + picks, from, e)
  {
  }

  lemma {:induction false} CompleteOn(frames: seq<Frame>, from: nat, e: nat, picks: seq<nat>)
    requires from < e && Rises(picks, from + 1, e) && Complete(frames, from + 1, e, picks)
    ensures Complete(frames, from, e, if Readable(frames[from]) then [from] + picks else picks)
  {
    forall i: nat | from <= i < e
      ensures i in (if Readable(frames[from]) then [from] + picks else picks) <==> Readable(frames[i])
    {
      assert i in [from] + picks <==> i == from || i in picks;
      assert from !in picks;
    }
  }

  lemma {:induction false} PickedOn(frames: seq<Frame>, i: nat, picks: seq<nat>, m: Msg, ms: seq<Msg>)
    requires Picked(frames, picks, ms) && i < |frames| && frames[i] == Text(Some(m))
    ensures Picked(frames, [i] + picks, [m] + ms)
  {
  }

  /** The receive task hands over exactly the readable messages (`picks`), in the order they were sent, up to
      the frame that ends it (`e`); it stops early when the manager's receiver is gone, found after
      `lives` sends. */
  method ReceiveTask(frames: seq<Frame>, tx: Channel<Msg>, drained: nat, lives: nat)
    returns (ghost e: nat, ghost picks: seq<nat>)
    requires tx.Valid() && !tx.closed
    modifies tx
    ensures tx.Valid()
    ensures var ms := MessagesRead(frames);
            tx.sent == old(tx.sent) + ms[..if lives < |ms| then lives else |ms|]
    ensures e <= |frames|
    ensures forall i :: 0 <= i < e ==> frames[i] != Close && frames[i] != Broken && frames[i] != Ping(false)
    ensures e < |frames| ==> frames[e] == Close || frames[e] == Broken || frames[e] == Ping(false)
    ensures forall i, j :: 0 <= i < j < |picks| ==> picks[i] < picks[j]
    ensures forall k :: 0 <= k < |picks| ==> picks[k] < e
    ensures forall i: nat :: i in picks <==> i < e && frames[i].Text? && frames[i].parsed.Some?
    ensures |tx.sent| == |old(tx.sent)| + (if lives < |picks| then lives else |picks|) && old(tx.sent) <= tx.sent
    ensures forall k :: 0 <= k < |picks| && k < lives ==>
                          frames[picks[k]] == Text(Some(tx.sent[|old(tx.sent)| + k]))
  {
    e, picks := WhereTheyLie(frames, 0);
    assert frames[0..] == frames;
    HandOver(frames, tx, drained, lives);
  }

  /** One more frame read. */
  lemma {:induction false} ReadStep(frames: seq<Frame>, i: nat, read: seq<Msg>)
    requires i < |frames| && MessagesRead(frames) == read + MessagesRead(frames[i..])
    ensures Ends(frames[i]) ==> MessagesRead(frames) == read
    ensures !Ends(frames[i]) && !Readable(frames[i]) ==> MessagesRead(frames) == read + MessagesRead(frames[i + 1..])
    ensures Readable(frames[i]) ==>
              var m, rest := frames[i].parsed.value, MessagesRead(frames[i + 1..]);
              && MessagesRead(frames) == read + ([m] + rest) && MessagesRead(frames) == read + [m] + rest
  {
    ReadOn(frames, i);
    if Readable(frames[i]) {
      Regroup(read, [frames[i].parsed.value], MessagesRead(frames[i + 1..]));
    }
  }

  method HandOver(frames: seq<Frame>, tx: Channel<Msg>, drained: nat, lives: nat)
    requires tx.Valid() && !tx.closed
    modifies tx
    ensures tx.Valid()
    ensures var ms := MessagesRead(frames);
            tx.sent == old(tx.sent) + ms[..if lives < |ms| then lives else |ms|]
  {
    var i, sends := 0, 0;
    ghost var read: seq<Msg> := [];
    while i < |frames|
      invariant 0 <= i <= |frames| && |read| == sends <= lives
      invariant tx.Valid() && !tx.closed
      invariant MessagesRead(frames) == read + MessagesRead(frames[i..])
      invariant tx.sent == old(tx.sent) + read
    {
      ReadStep(frames, i, read);
      match frames[i] {
        case Text(parsed) =>
          if parsed.Some? {
            var ok := tx.Send(parsed.value, drained, sends == lives);
            if !ok {
              StopsAt(MessagesRead(frames), read, [parsed.value] + MessagesRead(frames[i + 1..]), lives);
              return;
            }
            sends := sends + 1;
            read := read + [parsed.value];
          }
        case Ping(answered) =>
          if !answered {
            break;
          }
        case Pong =>
        case Binary =>
        case Close => break;
        case Broken => break;
      }
      i := i + 1;
    }
    StopsAt(MessagesRead(frames), read, [], lives);
  }

  lemma {:induction false} StopsAt(all: seq<Msg>, read: seq<Msg>, rest: seq<Msg>, lives: nat)
    requires all == read + rest && |read| <= lives && (rest == [] || |read| == lives)
    ensures read == all[..if lives < |all| then lives else |all|]
  {
  }
}
