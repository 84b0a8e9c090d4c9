/** Service discovery (sandcat_prectice/utils/src/tonic_service_discovery.rs): each round diffs the
    registry's snapshot against the last one and sends the changes, in whatever order the sets are
    walked, through a bounded channel. An address is usable when an endpoint can be built from it;
    which ones are is a parameter (`builds`). */
module Discovery {
  import opened Wrappers
  import opened Channels

  datatype SocketAddr = SocketAddr(ip: string, port: nat)

  datatype Change = Insert(addr: SocketAddr) | Remove(addr: SocketAddr)

  /** The set a receiver has after applying the changes to the empty set. */
  function Replay(cs: seq<Change>): set<SocketAddr> {
    if cs == [] then {}
    else
      var before := Replay(cs[..|cs| - 1]);
      match cs[|cs| - 1]
      case Insert(a) => before + {a}
      case Remove(a) => before - {a}
  }

  function Buildable(s: set<SocketAddr>, builds: SocketAddr -> bool): set<SocketAddr> {
    set a | a in s && builds(a)
  }

  /** Every Insert is of a usable address that is out, every Remove of a usable address of one that
      is in. */
  predicate Legal(cs: seq<Change>, builds: SocketAddr -> bool) {
    cs == [] ||
    (&& Legal(cs[..|cs| - 1], builds)
     && match cs[|cs| - 1]
        case Insert(a) => builds(a) && a !in Replay(cs[..|cs| - 1])
        case Remove(a) => builds(a) ==> a in Replay(cs[..|cs| - 1]))
  }

  function InsertAll(s: seq<SocketAddr>): (cs: seq<Change>)
    ensures |cs| == |s| && forall i :: 0 <= i < |s| ==> cs[i] == Insert(s[i])
  {
    seq(|s|, i requires 0 <= i < |s| => Insert(s[i]))
  }

  function RemoveAll(s: seq<SocketAddr>): (cs: seq<Change>)
    ensures |cs| == |s| && forall i :: 0 <= i < |s| ==> cs[i] == Remove(s[i])
  {
    seq(|s|, i requires 0 <= i < |s| => Remove(s[i]))
  }

  /** The sequence walks the set, each element once. */
  ghost predicate Walks(s: seq<SocketAddr>, all: set<SocketAddr>) {
    NoRepeats(s) && Elements(s) == all
  }

  /** The usable new addresses in some order, then the gone ones in some order. */
  ghost predicate IsDiff(cs: seq<Change>, services: set<SocketAddr>, snapshot: set<SocketAddr>,
                         builds: SocketAddr -> bool)
  {
    exists ins, outs ::
      cs == InsertAll(ins) + RemoveAll(outs) &&
      Walks(ins, Buildable(snapshot - services, builds)) && Walks(outs, services - snapshot)
  }

  /** The changes are of just these addresses, each once, the Inserts first. */
  lemma {:induction false} EachChangeOnce(ins: seq<SocketAddr>, outs: seq<SocketAddr>)
    requires NoRepeats(ins) && NoRepeats(outs)
    ensures var cs := InsertAll(ins) + RemoveAll(outs);
            && (forall a :: Insert(a) in cs <==> a in Elements(ins))
            && (forall a :: Remove(a) in cs <==> a in Elements(outs))
            && (forall i, j :: 0 <= i < j < |cs| ==> cs[i] != cs[j])
            && (forall i, j :: 0 <= i < j < |cs| && cs[j].Insert? ==> cs[i].Insert?)
  {
    var cs := InsertAll(ins) + RemoveAll(outs);
    forall a | a in Elements(ins)
      ensures Insert(a) in cs
    {
      var k :| 0 <= k < |ins| && ins[k] == a;
      assert cs[k] == Insert(a);
    }
    forall a | a in Elements(outs)
      ensures Remove(a) in cs
    {
      var k :| 0 <= k < |outs| && outs[k] == a;
      assert cs[|ins| + k] == Remove(a);
    }
  }

  // ---- The changes of one round ----

  lemma {:induction false} LegalPrefix(cs: seq<Change>, k: nat, builds: SocketAddr -> bool)
    requires Legal(cs, builds) && k <= |cs|
    ensures Legal(cs[..k], builds)
  {
    if k < |cs| {
      LegalPrefix(cs[..|cs| - 1], k, builds);
      assert cs[..|cs| - 1][..k] == cs[..k];
    } else {
      assert cs[..k] == cs;
    }
  }

  lemma {:induction false} AppendOne(cs: seq<Change>, c: Change, builds: SocketAddr -> bool)
    ensures Replay(cs + [c]) == if c.Insert? then Replay(cs) + {c.addr} else Replay(cs) - {c.addr}
    ensures Legal(cs + [c], builds) <==>
            Legal(cs, builds) && (if c.Insert? then builds(c.addr) && c.addr !in Replay(cs)
                                  else builds(c.addr) ==> c.addr in Replay(cs))
  {
  }

  ghost function Elements(s: seq<SocketAddr>): set<SocketAddr> {
    set a | a in s
  }

  lemma {:induction false} ElementsSplit(s: seq<SocketAddr>)
    requires s != [] && NoRepeats(s)
    ensures Elements(s) == {s[0]} + Elements(s[1..])
    ensures NoRepeats(s[1..]) && s[0] !in Elements(s[1..])
  {
  }

  lemma {:induction false} WalkOn(s: seq<SocketAddr>, a: SocketAddr, all: set<SocketAddr>)
    requires Walks(s, all) && a !in all
    ensures Walks(s + [a], all + {a})
  {
  }

  ghost predicate NoRepeats(s: seq<SocketAddr>) {
    forall i, j :: 0 <= i < j < |s| ==> s[i] != s[j]
  }

  lemma {:induction false} InsertsAreLegal(sent: seq<Change>, s: seq<SocketAddr>, builds: SocketAddr -> bool)
    requires Legal(sent, builds) && NoRepeats(s)
    requires forall a :: a in Elements(s) ==> builds(a) && a !in Replay(sent)
    ensures Legal(sent + InsertAll(s), builds)
    ensures Replay(sent + InsertAll(s)) == Replay(sent) + Elements(s)
    decreases |s|
  {
    if s == [] {
      assert sent + InsertAll(s) == sent;
    } else {
      var next := sent + [Insert(s[0])];
      assert next + InsertAll(s[1..]) == sent + InsertAll(s);
      ElementsSplit(s);
      AppendOne(sent, Insert(s[0]), builds);
      assert forall a :: a in Elements(s[1..]) ==> builds(a) && a !in Replay(next);
      InsertsAreLegal(next, s[1..], builds);
    }
  }

  lemma {:induction false} RemovesAreLegal(sent: seq<Change>, s: seq<SocketAddr>, builds: SocketAddr -> bool)
    requires Legal(sent, builds) && NoRepeats(s)
    requires forall a :: a in Elements(s) && builds(a) ==> a in Replay(sent)
    ensures Legal(sent + RemoveAll(s), builds)
    ensures Replay(sent + RemoveAll(s)) == Replay(sent) - Elements(s)
    decreases |s|
  {
    if s == [] {
      assert sent + RemoveAll(s) == sent;
    } else {
      var next := sent + [Remove(s[0])];
      assert next + RemoveAll(s[1..]) == sent + RemoveAll(s);
      ElementsSplit(s);
      AppendOne(sent, Remove(s[0]), builds);
      assert forall a :: a in Elements(s[1..]) ==> (builds(a) ==> a in Replay(next));
      RemovesAreLegal(next, s[1..], builds);
    }
  }

  /** Whatever the walking order, the round's changes take the receiver from the usable addresses of
      one snapshot to those of the next, legally all the way. */
  lemma {:induction false} RoundIsLegal(sent: seq<Change>, services: set<SocketAddr>, snapshot: set<SocketAddr>,
                     ins: seq<SocketAddr>, outs: seq<SocketAddr>, builds: SocketAddr -> bool)
    requires Legal(sent, builds) && Replay(sent) == Buildable(services, builds)
    requires Walks(ins, Buildable(snapshot - services, builds)) && Walks(outs, services - snapshot)
    ensures var cs := InsertAll(ins) + RemoveAll(outs);
            Legal(sent + cs, builds) && Replay(sent + cs) == Buildable(snapshot, builds)
  {
    var mid := sent + InsertAll(ins);
    assert mid + RemoveAll(outs) == sent + (InsertAll(ins) + RemoveAll(outs));
    InsertsAreLegal(sent, ins, builds);
    assert Replay(mid) == Buildable(services + snapshot, builds);
    RemovesAreLegal(mid, outs, builds);
  }

  lemma {:induction false} DiffIsLegal(sent: seq<Change>, services: set<SocketAddr>, snapshot: set<SocketAddr>,
                                       cs: seq<Change>, builds: SocketAddr -> bool)
    requires Legal(sent, builds) && Replay(sent) == Buildable(services, builds)
             && IsDiff(cs, services, snapshot, builds)
    ensures Legal(sent + cs, builds) && Replay(sent + cs) == Buildable(snapshot, builds)
  {
    var ins, outs :| cs == InsertAll(ins) + RemoveAll(outs) &&
                     Walks(ins, Buildable(snapshot - services, builds)) && Walks(outs, services - snapshot);
    RoundIsLegal(sent, services, snapshot, ins, outs, builds);
  }

  /** So is every beginning of them. */
  lemma {:induction false} SentIsLegal(sent: seq<Change>, services: set<SocketAddr>, snapshot: set<SocketAddr>,
                                       cs: seq<Change>, k: nat, builds: SocketAddr -> bool)
    requires Legal(sent, builds) && Replay(sent) == Buildable(services, builds)
             && IsDiff(cs, services, snapshot, builds)
    requires k <= |cs|
    ensures Legal(sent + cs[..k], builds)
    ensures k == |cs| ==> Replay(sent + cs[..k]) == Buildable(snapshot, builds)
  {
    var all, n := sent + cs, |sent| + k;
    assert all[..n] == sent + cs[..k];
    assert k == |cs| ==> all[..n] == all;
    DiffIsLegal(sent, services, snapshot, cs, builds);
    LegalPrefix(all, n, builds);
  }

  // ---- Alternation ----

  /** The changes of one address. */
  function Of(cs: seq<Change>, a: SocketAddr): seq<Change> {
    if cs == [] then [] else Of(cs[..|cs| - 1], a) + if cs[|cs| - 1].addr == a then [cs[|cs| - 1]] else []
  }

  /** Insert, Remove, Insert, ... */
  ghost predicate Alternates(cs: seq<Change>) {
    forall i :: 0 <= i < |cs| ==> (cs[i].Insert? <==> i % 2 == 0)
  }

  lemma {:induction false} LegalAlternates(cs: seq<Change>, a: SocketAddr, builds: SocketAddr -> bool)
    requires Legal(cs, builds)
    ensures builds(a) ==> Alternates(Of(cs, a)) && (a in Replay(cs) <==> |Of(cs, a)| % 2 == 1)
    ensures !builds(a) ==> Insert(a) !in cs && a !in Replay(cs)
  {
    if cs != [] {
      LegalAlternates(cs[..|cs| - 1], a, builds);
      assert cs == cs[..|cs| - 1] + [cs[|cs| - 1]];
    }
  }

  // ---- The discovery task and the receiver, step by step ----

  /** `publishing` is the snapshot whose changes are being sent, `unsent` what is left of them;
      `consumed` is what the receiver has taken. */
  datatype State = State(
    services: set<SocketAddr>,
    publishing: Option<set<SocketAddr>>,
    unsent: seq<Change>,
    queue: seq<Change>,
    consumed: seq<Change>,
    closed: bool
  )

  const Init := State({}, None, [], [], [], false)

  datatype Step =
    | Begin(snapshot: set<SocketAddr>, changes: seq<Change>)
    | RegistryFails
    | Send
    | SendFails // the round is given up and `services` stays
    | Finish
    | Consume
    | Leave     // the receiver goes away

  /** The buildable addresses and the channel's room are fixed for a task. */
  datatype Setup = Setup(builds: SocketAddr -> bool, capacity: nat)

  ghost predicate Enabled(u: Setup, s: State, step: Step) {
    match step
    case Begin(snapshot, changes) => s.publishing.None? && IsDiff(changes, s.services, snapshot, u.builds)
    case RegistryFails => s.publishing.None?
    case Send => s.unsent != [] && !s.closed && |s.queue| < u.capacity
    case SendFails => s.unsent != [] && s.closed
    case Finish => s.publishing.Some? && s.unsent == []
    case Consume => s.queue != [] && !s.closed
    case Leave => true
  }

  ghost function Next(u: Setup, s: State, step: Step): State {
    if !Enabled(u, s, step) then s
    else match step
      case Begin(snapshot, changes) => s.(publishing := Some(snapshot), unsent := changes)
      case RegistryFails => s
      case Send => s.(unsent := s.unsent[1..], queue := s.queue + [s.unsent[0]])
      case SendFails => s.(unsent := [], publishing := None)
      case Finish => s.(services := s.publishing.value, publishing := None)
      case Consume => s.(queue := s.queue[1..], consumed := s.consumed + [s.queue[0]])
      case Leave => s.(closed := true)
  }

  ghost function Run(u: Setup, steps: seq<Step>): State {
    if steps == [] then Init else Next(u, Run(u, steps[..|steps| - 1]), steps[|steps| - 1])
  }

  function SentOf(s: State): seq<Change> {
    s.consumed + s.queue
  }

  function Published(s: State): set<SocketAddr> {
    if s.publishing.Some? then s.publishing.value else s.services
  }

  ghost predicate Inv(u: Setup, s: State) {
    && |s.queue| <= u.capacity
    && (s.publishing.None? ==> s.unsent == [])
    && Legal(SentOf(s), u.builds)
    && (!s.closed ==>
          Legal(SentOf(s) + s.unsent, u.builds) && Replay(SentOf(s) + s.unsent) == Buildable(Published(s), u.builds))
  }

  lemma {:induction false} KeepsInv(u: Setup, s: State, step: Step)
    requires Inv(u, s)
    ensures Inv(u, Next(u, s, step))
    ensures s.consumed <= Next(u, s, step).consumed
  {
    if Enabled(u, s, step) {
      var t := Next(u, s, step);
      match step
      case Begin(snapshot, changes) =>
        assert SentOf(s) + [] == SentOf(s);
        if !s.closed {
          DiffIsLegal(SentOf(s), s.services, snapshot, changes, u.builds);
        }
      case RegistryFails =>
      case Send =>
        assert SentOf(t) + t.unsent == SentOf(s) + s.unsent;
        LegalPrefix(SentOf(s) + s.unsent, |SentOf(s)| + 1, u.builds);
        assert (SentOf(s) + s.unsent)[..|SentOf(s)| + 1] == SentOf(t);
      case SendFails =>
      case Finish =>
      case Consume =>
        assert SentOf(t) == SentOf(s);
      case Leave =>
    }
  }

  lemma {:induction false} RunInv(u: Setup, steps: seq<Step>)
    ensures Inv(u, Run(u, steps))
  {
    if steps == [] {
      assert Buildable({}, u.builds) == {};
    } else {
      RunInv(u, steps[..|steps| - 1]);
      KeepsInv(u, Run(u, steps[..|steps| - 1]), steps[|steps| - 1]);
    }
  }

  /** At every step while the receiver is there, replaying what it took, what is queued and what is
      still to be sent gives exactly the usable addresses of the snapshot being published. */
  lemma {:induction false} ReplicaAgreement(u: Setup, steps: seq<Step>)
    requires !Run(u, steps).closed
    ensures var s := Run(u, steps);
            Replay(s.consumed + s.queue + s.unsent) == Buildable(Published(s), u.builds)
  {
    RunInv(u, steps);
  }

  /** The changes sent for a usable address alternate, beginning with an Insert; an unusable address
      is never inserted. This holds even after the receiver has left. */
  lemma {:induction false} ChangesAlternate(u: Setup, steps: seq<Step>, a: SocketAddr)
    ensures var sent := SentOf(Run(u, steps));
            (u.builds(a) ==> Alternates(Of(sent, a))) && (!u.builds(a) ==> Insert(a) !in sent)
  {
    RunInv(u, steps);
    LegalAlternates(SentOf(Run(u, steps)), a, u.builds);
  }

  // ---- The code's own form ----

  class DynamicServiceDiscovery {
    const builds: SocketAddr -> bool
    const sender: Channel<Change>
    var services: set<SocketAddr>

    ghost predicate Valid()
      reads this, sender
    {
      && sender.Valid() && Legal(sender.sent, builds)
      && (!sender.closed ==> Replay(sender.sent) == Buildable(services, builds))
    }

    constructor (builds: SocketAddr -> bool, sender: Channel<Change>)
      requires sender.Valid() && sender.sent == []
      ensures Valid() && services == {} && this.builds == builds && this.sender == sender
    {
      this.builds, this.sender := builds, sender;
      services := {};
    }

    /** First the Inserts, then the Removes, each set walked in some order. */
    method ChangeSet(endpoints: set<SocketAddr>) returns (changes: seq<Change>)
      ensures IsDiff(changes, services, endpoints, builds)
      ensures forall a :: Insert(a) in changes <==> a in endpoints && a !in services && builds(a)
      ensures forall a :: Remove(a) in changes <==> a in services && a !in endpoints
      ensures forall i, j :: 0 <= i < j < |changes| ==> changes[i] != changes[j]
      ensures forall i, j :: 0 <= i < j < |changes| && changes[j].Insert? ==> changes[i].Insert?
    {
      changes := [];
      ghost var ins: seq<SocketAddr>, outs: seq<SocketAddr> := [], [];
      var todo := endpoints - services;
      while todo != {}
        invariant todo <= endpoints - services
        invariant changes == InsertAll(ins)
        invariant Walks(ins, Buildable(endpoints - services - todo, builds))
        decreases todo
      {
        var a :| a in todo;
        ghost var before := Buildable(endpoints - services - todo, builds);
        todo := todo - {a};
        assert Buildable(endpoints - services - todo, builds) == before + if builds(a) then {a} else {};
        if builds(a) {
          WalkOn(ins, a, before);
          changes := changes + [Insert(a)];
          ins := ins + [a];
        }
      }
      var rest := services - endpoints;
      ghost var first := changes;
      while rest != {}
        invariant rest <= services - endpoints
        invariant changes == first + RemoveAll(outs)
        invariant Walks(outs, services - endpoints - rest)
        decreases rest
      {
        var a :| a in rest;
        WalkOn(outs, a, services - endpoints - rest);
        rest := rest - {a};
        assert services - endpoints - rest == services - endpoints - (rest + {a}) + {a};
        changes := changes + [Remove(a)];
        outs := outs + [a];
      }
      assert changes == InsertAll(ins) + RemoveAll(outs);
      EachChangeOnce(ins, outs);
    }

    /** The addresses that parse. */
    static function Snapshot(entries: seq<Option<SocketAddr>>): (s: set<SocketAddr>)
      ensures forall a :: a in s <==> Some(a) in entries
    {
      set e | e in entries && e.Some? :: e.value
    }

    /** One round. A registry error changes nothing; when the receiver is gone the round is given up
        and the old snapshot stays. `drained` and `lives` are the other side of the channel: how much
        it takes while a send waits, and after how many sends it is gone. */
    method Discovery(registry: Result<seq<Option<SocketAddr>>>, drained: nat, lives: nat) returns (r: Result<()>)
      requires Valid()
      modifies `services, sender
      ensures Valid() && old(sender.sent) <= sender.sent
      ensures r.Ok? ==> registry.Ok? && services == Snapshot(registry.value)
      ensures r.Ok? && !old(sender.closed) ==> !sender.closed && Replay(sender.sent) == Buildable(services, builds)
      ensures r.Err? ==> services == old(services) && (registry.Err? || sender.closed)
      ensures registry.Err? ==> r.Err? && sender.sent == old(sender.sent) && sender.closed == old(sender.closed)
      ensures old(sender.closed) ==> sender.closed
    {
      if registry.Err? {
        return Err(registry.error);
      }
      var x := Snapshot(registry.value);
      var changes := ChangeSet(x);
      ghost var sent, open := sender.sent, !sender.closed;
      var ok, k := SendAll(changes, drained, lives);
      if open {
        SentIsLegal(sent, services, x, changes, k, builds);
      } else {
        assert sender.sent == sent;
      }
      if !ok {
        return Err("channel closed");
      }
      services := x;
      r := Ok(());
    }

    /** Send the changes one by one, up to the first that fails; `k` were accepted. */
    method SendAll(changes: seq<Change>, drained: nat, lives: nat) returns (ok: bool, ghost k: nat)
      requires sender.Valid()
      modifies sender
      ensures sender.Valid() && k <= |changes| && sender.sent == old(sender.sent) + changes[..k]
      ensures ok ==> k == |changes| && sender.closed == old(sender.closed)
      ensures !ok ==> sender.closed
      ensures old(sender.closed) ==> k == 0
    {
      var i := 0;
      while i < |changes|
        invariant 0 <= i <= |changes|
        invariant sender.Valid() && sender.closed == old(sender.closed)
        invariant sender.sent == old(sender.sent) + changes[..i]
        invariant sender.closed ==> i == 0
      {
        ok := sender.Send(changes[i], drained, i == lives);
        if !ok {
          return false, i;
        }
        assert changes[..i + 1] == changes[..i] + [changes[i]];
        i := i + 1;
      }
      return true, i;
    }

    /** The endless loop, for as many rounds as given: a failed round is logged. `goods` says which
        rounds succeeded: while the receiver is there, those whose registry call did. */
    method RunRounds(rounds: seq<Round>) returns (ghost goods: seq<bool>)
      requires Valid()
      modifies `services, sender
      ensures Valid() && old(sender.sent) <= sender.sent
      ensures forall a :: builds(a) ==> Alternates(Of(sender.sent, a))
      ensures Judged(rounds, goods, !sender.closed) && services == Latest(old(services), rounds, goods)
      ensures rounds == [] ==> sender.sent == old(sender.sent)
    {
      goods := [];
      for k := 0 to |rounds|
        invariant Valid() && old(sender.sent) <= sender.sent
        invariant Judged(rounds[..k], goods, !sender.closed) && services == Latest(old(services), rounds[..k], goods)
        invariant k == 0 ==> sender.sent == old(sender.sent)
      {
        assert rounds[..k + 1][..k] == rounds[..k];
        var r := Discovery(rounds[k].registry, rounds[k].drained, rounds[k].lives);
        assert (goods + [r.Ok?])[..k] == goods;
        goods := goods + [r.Ok?];
      }
      assert rounds[..|rounds|] == rounds;
      forall a | builds(a)
        ensures Alternates(Of(sender.sent, a))
      {
        LegalAlternates(sender.sent, a, builds);
      }
    }
  }

  datatype Round = Round(registry: Result<seq<Option<SocketAddr>>>, drained: nat, lives: nat)

  /** A round succeeds only if its registry call does; while the receiver is there, also if. */
  ghost predicate Judged(rounds: seq<Round>, goods: seq<bool>, open: bool) {
    && |goods| == |rounds|
    && forall k :: 0 <= k < |rounds| ==>
                     (goods[k] ==> rounds[k].registry.Ok?) && (open && rounds[k].registry.Ok? ==> goods[k])
  }

  /** The snapshot of the last successful round, or the old one if there was none. */
  ghost function Latest(before: set<SocketAddr>, rounds: seq<Round>, goods: seq<bool>): set<SocketAddr>
    requires Judged(rounds, goods, false)
  {
    if rounds == [] then before
    else
      var n := |rounds| - 1;
      if goods[n] then DynamicServiceDiscovery.Snapshot(rounds[n].registry.value)
      else Latest(before, rounds[..n], goods[..n])
  }

  /** A channel is handed out only after a first round that succeeded; then the loop goes on. What the
      channel's other end has been sent replays to the usable addresses of the last good snapshot. */
  method GetChannel(discovery: DynamicServiceDiscovery, first: Round, rounds: seq<Round>)
    returns (r: Result<()>, ghost goods: seq<bool>)
    requires discovery.Valid()
    modifies discovery`services, discovery.sender
    ensures discovery.Valid() && (first.registry.Err? ==> r.Err? && discovery.sender.sent == old(discovery.sender.sent))
    ensures r.Err? ==> discovery.services == old(discovery.services) && goods == []
    ensures r.Ok? ==>
              && first.registry.Ok? && Judged(rounds, goods, !discovery.sender.closed)
              && discovery.services == Latest(DynamicServiceDiscovery.Snapshot(first.registry.value), rounds, goods)
              && (!discovery.sender.closed ==>
                    Replay(discovery.sender.sent) == Buildable(discovery.services, discovery.builds))
  {
    goods := [];
    r := discovery.Discovery(first.registry, first.drained, first.lives);
    if r.Ok? {
      goods := discovery.RunRounds(rounds);
    }
  }
}
