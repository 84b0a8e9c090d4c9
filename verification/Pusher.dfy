/** The pusher (sandcat_prectice/pusher/src/main.rs): a live list of websocket instances that one
    task keeps in step with discovery while push calls evict the instances they could not reach. */
module Pusher {
  import opened Wrappers
  import opened Discovery

  // ---- The live list under both writers ----

  /** `connecting` is the Insert the applying task has taken and is connecting to. */
  datatype State = State(d: Discovery.State, connecting: Option<SocketAddr>, list: set<SocketAddr>)

  const Init := State.State(Discovery.Init, None, {})

  datatype Step =
    | Discover(step: Discovery.Step)
    | Take                       // the applying task takes the next change
    | Connected
    | ConnectFails               // only logged
    | Evict(addr: SocketAddr)    // a push drops an instance it could not reach

  ghost function Advance(u: Setup, s: State, step: Step): State {
    match step
    case Discover(d) => if d.Consume? then s else s.(d := Discovery.Next(u, s.d, d))
    case Take =>
      if s.connecting.Some? || s.d.queue == [] || s.d.closed then s
      else
        var d := Discovery.Next(u, s.d, Discovery.Consume);
        (match s.d.queue[0]
         case Insert(a) => s.(d := d, connecting := Some(a))
         case Remove(a) => s.(d := d, list := s.list - {a}))
    case Connected => if s.connecting.None? then s else s.(connecting := None, list := s.list + {s.connecting.value})
    case ConnectFails => s.(connecting := None)
    case Evict(a) => s.(list := s.list - {a})
  }

  ghost function Live(u: Setup, steps: seq<Step>): State {
    if steps == [] then Init else Advance(u, Live(u, steps[..|steps| - 1]), steps[|steps| - 1])
  }

  /** What the list is at most: the replay of the changes taken. */
  ghost predicate Contained(s: State) {
    && s.list <= Replay(s.d.consumed)
    && (s.connecting.Some? ==> s.connecting.value in Replay(s.d.consumed) && s.connecting.value !in s.list)
  }

  /** An address that is in by the changes taken is not inserted again. */
  lemma {:induction false} TakesLegally(u: Setup, s: State, step: Step)
    requires Discovery.Inv(u, s.d) && Advance(u, s, step).d.consumed != s.d.consumed
    ensures s.d.queue != [] && s.connecting.None? && step == Take
    ensures Advance(u, s, step).d.consumed == s.d.consumed + [s.d.queue[0]]
    ensures s.d.queue[0].Insert? ==> s.d.queue[0].addr !in Replay(s.d.consumed)
    ensures Replay(Advance(u, s, step).d.consumed) ==
            if s.d.queue[0].Insert? then Replay(s.d.consumed) + {s.d.queue[0].addr}
            else Replay(s.d.consumed) - {s.d.queue[0].addr}
  {
    var n := |s.d.consumed|;
    LegalPrefix(SentOf(s.d), n + 1, u.builds);
    assert SentOf(s.d)[..n + 1] == s.d.consumed + [s.d.queue[0]];
    AppendOne(s.d.consumed, s.d.queue[0], u.builds);
  }

  lemma {:induction false} KeepsContained(u: Setup, s: State, step: Step)
    requires Discovery.Inv(u, s.d) && Contained(s)
    ensures Discovery.Inv(u, Advance(u, s, step).d) && Contained(Advance(u, s, step))
    ensures s.d.consumed <= Advance(u, s, step).d.consumed
  {
    match step
    case Discover(d) =>
      Discovery.KeepsInv(u, s.d, d);
    case Take =>
      Discovery.KeepsInv(u, s.d, Discovery.Consume);
      if Advance(u, s, step).d.consumed != s.d.consumed {
        TakesLegally(u, s, step);
      }
    case Connected =>
    case ConnectFails =>
    case Evict(_) =>
  }

  /** Under every interleaving of the applying task and evictions, the list is contained in the
      replay of the changes taken. */
  lemma {:induction false} ListIsContained(u: Setup, steps: seq<Step>)
    ensures Discovery.Inv(u, Live(u, steps).d) && Contained(Live(u, steps))
  {
    if steps == [] {
      Discovery.RunInv(u, []);
    } else {
      ListIsContained(u, steps[..|steps| - 1]);
      KeepsContained(u, Live(u, steps[..|steps| - 1]), steps[|steps| - 1]);
    }
  }

  ghost predicate RemovedSince(cs: seq<Change>, m: nat, a: SocketAddr) {
    exists i :: m <= i < |cs| && cs[i] == Remove(a)
  }

  ghost predicate ReinsertedSince(cs: seq<Change>, m: nat, a: SocketAddr) {
    exists i, j :: m <= i < j < |cs| && cs[i] == Remove(a) && cs[j] == Insert(a)
  }

  /** `a` is out and stays out until a Remove and then an Insert for it are taken after `m`. */
  ghost predicate KeptOut(s: State, m: nat, a: SocketAddr) {
    || ReinsertedSince(s.d.consumed, m, a)
    || (a !in s.list && s.connecting != Some(a) && (a in Replay(s.d.consumed) || RemovedSince(s.d.consumed, m, a)))
  }

  lemma {:induction false} KeepsOut(u: Setup, s: State, step: Step, m: nat, a: SocketAddr)
    requires Discovery.Inv(u, s.d) && Contained(s) && KeptOut(s, m, a) && m <= |s.d.consumed|
    ensures KeptOut(Advance(u, s, step), m, a)
  {
    var t := Advance(u, s, step);
    KeepsContained(u, s, step);
    if ReinsertedSince(s.d.consumed, m, a) {
      var i, j :| m <= i < j < |s.d.consumed| && s.d.consumed[i] == Remove(a) && s.d.consumed[j] == Insert(a);
      assert t.d.consumed[i] == Remove(a) && t.d.consumed[j] == Insert(a);
    } else {
      if RemovedSince(s.d.consumed, m, a) {
        var i :| m <= i < |s.d.consumed| && s.d.consumed[i] == Remove(a);
        assert t.d.consumed[i] == Remove(a);
      }
      if t.d.consumed != s.d.consumed {
        TakesLegally(u, s, step);
      }
    }
  }

  /** An address that discovery has put in but the list does not hold, because it was evicted or
      could not be connected to, comes back only after a Remove and then an Insert for it were
      taken. */
  lemma {:induction false} EvictedStaysOut(u: Setup, steps: seq<Step>, k: nat, a: SocketAddr)
    requires k <= |steps|
    requires var s := Live(u, steps[..k]); a in Replay(s.d.consumed) && a !in s.list && s.connecting != Some(a)
    ensures var m := |Live(u, steps[..k]).d.consumed|;
            && KeptOut(Live(u, steps), m, a) && m <= |Live(u, steps).d.consumed|
            && (a in Live(u, steps).list ==> ReinsertedSince(Live(u, steps).d.consumed, m, a))
  {
    if k == |steps| {
      assert steps[..k] == steps;
    } else {
      var init := steps[..|steps| - 1];
      assert init[..k] == steps[..k];
      EvictedStaysOut(u, init, k, a);
      ListIsContained(u, init);
      KeepsContained(u, Live(u, init), steps[|steps| - 1]);
      KeepsOut(u, Live(u, init), steps[|steps| - 1], |Live(u, steps[..k]).d.consumed|, a);
    }
  }

  /** So a push that evicts an address, or a connect to it that fails, puts it out until then. */
  lemma {:induction false} DroppedStaysOut(u: Setup, steps: seq<Step>, k: nat, a: SocketAddr)
    requires k < |steps|
    requires var s := Live(u, steps[..k]);
             (steps[k] == Evict(a) && a in s.list) || (steps[k] == ConnectFails && s.connecting == Some(a))
    ensures a !in Live(u, steps[..k + 1]).list
    ensures a in Live(u, steps).list ==> ReinsertedSince(Live(u, steps).d.consumed, |Live(u, steps[..k]).d.consumed|, a)
  {
    var s := Live(u, steps[..k]);
    assert steps[..k + 1][..k] == steps[..k];
    assert Live(u, steps[..k + 1]) == Advance(u, s, steps[k]);
    ListIsContained(u, steps[..k]);
    EvictedStaysOut(u, steps, k + 1, a);
  }

  ghost predicate Follows(s: State) {
    s.list == Replay(s.d.consumed) - if s.connecting.Some? then {s.connecting.value} else {}
  }

  lemma {:induction false} KeepsFollowing(u: Setup, s: State, step: Step)
    requires Discovery.Inv(u, s.d) && Contained(s) && Follows(s) && !step.Evict? && !step.ConnectFails?
    ensures Follows(Advance(u, s, step))
  {
    if Advance(u, s, step).d.consumed != s.d.consumed {
      TakesLegally(u, s, step);
    }
  }

  /** Without evictions and failed connects the list is the replay of the changes taken, less the
      address being connected to; so once everything is taken it is exactly the usable addresses of
      the last published snapshot. */
  lemma {:induction false} UndisturbedListFollowsRegistry(u: Setup, steps: seq<Step>)
    requires forall st :: st in steps ==> !st.Evict? && !st.ConnectFails?
    ensures Follows(Live(u, steps))
    ensures var s := Live(u, steps);
            !s.d.closed && s.d.queue == [] && s.d.publishing.None? && s.connecting.None? ==>
              s.list == Buildable(s.d.services, u.builds)
  {
    var t := Live(u, steps);
    if steps != [] {
      var init, last := steps[..|steps| - 1], steps[|steps| - 1];
      assert last in steps;
      UndisturbedListFollowsRegistry(u, init);
      ListIsContained(u, init);
      KeepsFollowing(u, Live(u, init), last);
    }
    ListIsContained(u, steps);
    assert t.d.queue == [] && t.d.publishing.None? ==> t.d.consumed + t.d.queue + t.d.unsent == t.d.consumed;
  }

  // ---- The exact list ----

  /** At step `k` connecting to the address succeeds. */
  ghost predicate Joins(u: Setup, steps: seq<Step>, k: nat, a: SocketAddr) {
    k < |steps| && steps[k] == Connected && Live(u, steps[..k]).connecting == Some(a)
  }

  /** At step `k` a push evicts the address, or the applying task takes its Remove. */
  ghost predicate Leaves(u: Setup, steps: seq<Step>, k: nat, a: SocketAddr) {
    && k < |steps|
    && var s := Live(u, steps[..k]);
       || steps[k] == Evict(a)
       || (steps[k] == Take && s.connecting.None? && !s.d.closed && s.d.queue != [] && s.d.queue[0] == Remove(a))
  }

  ghost predicate Listed(u: Setup, steps: seq<Step>, a: SocketAddr) {
    exists k: nat :: Joins(u, steps, k, a) && StaysFrom(u, steps, k + 1, a)
  }

  ghost predicate StaysFrom(u: Setup, steps: seq<Step>, k: nat, a: SocketAddr) {
    forall j :: k <= j < |steps| ==> !Leaves(u, steps, j, a)
  }

  /** Under every interleaving, an address is in the list if and only if connecting to it succeeded
      and since then no push evicted it and no Remove for it was taken. */
  lemma {:induction false} ListIsExact(u: Setup, steps: seq<Step>, a: SocketAddr)
    ensures a in Live(u, steps).list <==> Listed(u, steps, a)
  {
    if steps != [] {
      var init, last := steps[..|steps| - 1], steps[|steps| - 1];
      ListIsExact(u, init, a);
      assert forall k :: 0 <= k <= |init| ==> steps[..k] == init[..k];
      if Joins(u, steps, |init|, a) {
        assert StaysFrom(u, steps, |init| + 1, a);
      } else if !Leaves(u, steps, |init|, a) {
        ListedOn(u, init, steps, a);
      }
    }
  }

  lemma {:induction false} ListedOn(u: Setup, init: seq<Step>, steps: seq<Step>, a: SocketAddr)
    requires |steps| == |init| + 1 && steps[..|init|] == init
    requires !Joins(u, steps, |init|, a) && !Leaves(u, steps, |init|, a)
    ensures Listed(u, steps, a) <==> Listed(u, init, a)
  {
    assert forall k :: 0 <= k <= |init| ==> steps[..k] == init[..k];
    assert forall k: nat :: k < |init| ==> (Joins(u, steps, k, a) <==> Joins(u, init, k, a));
    assert forall k: nat :: k < |init| ==> (Leaves(u, steps, k, a) <==> Leaves(u, init, k, a));
    if Listed(u, init, a) {
      var k: nat :| Joins(u, init, k, a) && StaysFrom(u, init, k + 1, a);
      assert Joins(u, steps, k, a) && StaysFrom(u, steps, k + 1, a);
    }
    if Listed(u, steps, a) {
      var k: nat :| Joins(u, steps, k, a) && StaysFrom(u, steps, k + 1, a);
      assert Joins(u, init, k, a) && StaysFrom(u, init, k + 1, a);
    }
  }

  // ---- The code's own form ----

  /** A connected client of one instance. */
  datatype MsgClient = MsgClient(addr: SocketAddr, connection: nat)

  ghost function Failed(listed: set<SocketAddr>, fails: SocketAddr -> bool): set<SocketAddr> {
    set a | a in listed && fails(a)
  }

  /** Every failed send that has ended is waiting for room, in the channel or drained, and in one of
      them only. */
  ghost predicate Placed(failed: set<SocketAddr>, blocked: set<SocketAddr>, errors: seq<SocketAddr>,
                         drained: set<SocketAddr>)
  {
    && failed == drained + blocked + Elements(errors) && NoRepeats(errors)
    && drained !! blocked && drained !! Elements(errors) && blocked !! Elements(errors)
  }

  /** How far a fan-out over `listed` has got. */
  ghost predicate Sending(listed: set<SocketAddr>, fails: SocketAddr -> bool, running: set<SocketAddr>,
                          blocked: set<SocketAddr>, errors: seq<SocketAddr>,
                          attempts: seq<SocketAddr>, reported: seq<SocketAddr>)
  {
    && running <= listed && Walks(attempts, listed - running) && NoRepeats(reported)
    && Placed(Failed(listed - running, fails), blocked, errors, Elements(reported))
  }

  lemma {:induction false} SendEnds(listed: set<SocketAddr>, fails: SocketAddr -> bool, running: set<SocketAddr>,
                                    blocked: set<SocketAddr>, errors: seq<SocketAddr>, attempts: seq<SocketAddr>,
                                    reported: seq<SocketAddr>, a: SocketAddr)
    requires Sending(listed, fails, running, blocked, errors, attempts, reported) && a in running
    ensures Sending(listed, fails, running - {a}, if fails(a) then blocked + {a} else blocked, errors,
                    attempts + [a], reported)
  {
    WalkOn(attempts, a, listed - running);
    assert listed - (running - {a}) == (listed - running) + {a};
    assert Failed(listed - (running - {a}), fails) == Failed(listed - running, fails) + if fails(a) then {a} else {};
    assert a !in Failed(listed - running, fails);
  }

  lemma {:induction false} ErrorReported(listed: set<SocketAddr>, fails: SocketAddr -> bool, running: set<SocketAddr>,
                                         blocked: set<SocketAddr>, errors: seq<SocketAddr>, attempts: seq<SocketAddr>,
                                         reported: seq<SocketAddr>, a: SocketAddr)
    requires Sending(listed, fails, running, blocked, errors, attempts, reported) && a in blocked
    ensures Sending(listed, fails, running, blocked - {a}, errors + [a], attempts, reported)
  {
  }

  lemma {:induction false} ErrorDrained(listed: set<SocketAddr>, fails: SocketAddr -> bool, running: set<SocketAddr>,
                                        blocked: set<SocketAddr>, errors: seq<SocketAddr>, attempts: seq<SocketAddr>,
                                        reported: seq<SocketAddr>)
    requires Sending(listed, fails, running, blocked, errors, attempts, reported) && errors != []
    ensures Sending(listed, fails, running, blocked, errors[1..], attempts, reported + [errors[0]])
    ensures errors[0] !in Elements(reported)
  {
    ElementsSplit(errors);
    assert errors[0] in Elements(errors);
    WalkOn(reported, errors[0], Elements(reported));
  }

  lemma {:induction false} NoneSent(listed: set<SocketAddr>, fails: SocketAddr -> bool)
    ensures Sending(listed, fails, listed, {}, [], [], [])
  {
  }

  lemma {:induction false} AllSent(listed: set<SocketAddr>, fails: SocketAddr -> bool, attempts: seq<SocketAddr>,
                                   reported: seq<SocketAddr>)
    requires Sending(listed, fails, {}, {}, [], attempts, reported)
    ensures Walks(attempts, listed) && Walks(reported, Failed(listed, fails))
  {
    assert listed - {} == listed;
  }

  /** A step of the applying task: it takes a change, or its connect ends. */
  datatype Turn = Taking | Ending(connection: Option<MsgClient>)

  function StepOf(turn: Turn): Step {
    match turn
    case Taking => Take
    case Ending(connection) => if connection.Some? then Connected else ConnectFails
  }

  function Script(turns: seq<Turn>): (steps: seq<Step>)
    ensures |steps| == |turns|
    ensures forall k :: 0 <= k < |turns| && turns[k].Taking? ==> steps[k] == Take
    ensures forall k :: 0 <= k < |turns| && turns[k].Ending? ==>
                          steps[k] == if turns[k].connection.Some? then Connected else ConnectFails
  {
    if turns == [] then [] else Script(turns[..|turns| - 1]) + [StepOf(turns[|turns| - 1])]
  }

  /** The evictions among the steps, and the rest. */
  function Evicted(steps: seq<Step>): seq<SocketAddr> {
    if steps == [] then []
    else Evicted(steps[..|steps| - 1]) + if steps[|steps| - 1].Evict? then [steps[|steps| - 1].addr] else []
  }

  function Rest(steps: seq<Step>): seq<Step> {
    if steps == [] then []
    else Rest(steps[..|steps| - 1]) + if steps[|steps| - 1].Evict? then [] else [steps[|steps| - 1]]
  }

  lemma {:induction false} SplitOn(steps: seq<Step>, step: Step)
    ensures Evicted(steps + [step]) == Evicted(steps) + if step.Evict? then [step.addr] else []
    ensures Rest(steps + [step]) == Rest(steps) + if step.Evict? then [] else [step]
  {
    assert (steps + [step])[..|steps|] == steps;
  }

  /** The two states differ in these addresses of the list only. */
  ghost predicate SameBut(s: State, t: State, except: set<SocketAddr>) {
    s.d == t.d && s.connecting == t.connecting && forall a :: a !in except ==> (a in s.list <==> a in t.list)
  }

  lemma {:induction false} SameOn(u: Setup, s: State, t: State, except: set<SocketAddr>, step: Step)
    requires SameBut(s, t, except)
    ensures !step.Evict? ==> SameBut(Advance(u, s, step), Advance(u, t, step), except)
    ensures step.Evict? ==> SameBut(Advance(u, s, step), t, except + {step.addr})
  {
  }

  lemma {:induction false} LiveOn(u: Setup, steps: seq<Step>, step: Step)
    ensures Live(u, steps + [step]) == Advance(u, Live(u, steps), step)
  {
    assert (steps + [step])[..|steps|] == steps;
  }

  function Taken(d: Discovery.State): Discovery.State
    requires d.queue != []
  {
    d.(consumed := d.consumed + [d.queue[0]], queue := d.queue[1..])
  }

  lemma {:induction false} TakeDoes(u: Setup, steps: seq<Step>)
    requires var s := Live(u, steps); s.connecting.None? && s.d.queue != [] && !s.d.closed
    ensures var s := Live(u, steps);
            var t := Advance(u, s, Take);
            && t.d == Taken(s.d)
            && match s.d.queue[0]
               case Insert(a) => a !in s.list && t.list == s.list && t.connecting == Some(a)
               case Remove(a) => t.list == s.list - {a} && t.connecting == None
  {
    ListIsContained(u, steps);
    TakesLegally(u, Live(u, steps), Take);
  }

  /** Between rounds the list is within the usable addresses of the snapshot, and if nothing was dropped
      it is all of them. */
  lemma {:induction false} InStep(u: Setup, s: State)
    requires Discovery.Inv(u, s.d) && Contained(s) && !s.d.closed && s.d.queue == [] && s.d.unsent == []
             && s.connecting.None?
    ensures s.list <= Buildable(Discovery.Published(s.d), u.builds)
    ensures Follows(s) ==> s.list == Buildable(Discovery.Published(s.d), u.builds)
  {
    assert Discovery.SentOf(s.d) + s.d.unsent == s.d.consumed;
  }

  /** Taking a change and, for an Insert, connecting keeps an undisturbed list in step. */
  lemma {:induction false} AppliesFollowing(u: Setup, s: State)
    requires Discovery.Inv(u, s.d) && Contained(s)
    ensures Follows(s) ==> Follows(Advance(u, s, Take)) && Follows(Advance(u, Advance(u, s, Take), Connected))
  {
    if Follows(s) {
      KeepsContained(u, s, Take);
      KeepsFollowing(u, s, Take);
      KeepsFollowing(u, Advance(u, s, Take), Connected);
    }
  }

  /** The service: the list, and the applying task with its channel and the connect it is at. All of it is
      always what the machine has after `trace`, the steps of discovery, of the applying task and of
      push calls so far. */
  class PusherRpcService {
    var wsRpcList: map<SocketAddr, MsgClient>
    var rx: seq<Change>
    var connecting: Option<SocketAddr>
    ghost const setup: Setup
    ghost var trace: seq<Step>

    ghost function View(): State
      reads this
    {
      Live(setup, trace)
    }

    ghost predicate Valid()
      reads this
    {
      && wsRpcList.Keys == View().list && rx == View().d.queue && connecting == View().connecting
      && !View().d.closed
    }

    constructor (ghost setup: Setup)
      ensures Valid() && wsRpcList == map[] && rx == [] && trace == [] && this.setup == setup
    {
      wsRpcList, rx, connecting := map[], [], None;
      this.setup, trace := setup, [];
    }

    ghost method Tick(step: Step)
      modifies `trace
      ensures trace == old(trace) + [step] && View() == Advance(setup, old(View()), step)
    {
      LiveOn(setup, trace, step);
      trace := trace + [step];
    }

    /** Discovery hands over the next change of its round, when the channel has room. */
    method Sent(change: Change)
      requires Valid() && |rx| < setup.capacity && View().d.unsent != [] && View().d.unsent[0] == change
      modifies `rx, `trace
      ensures Valid() && rx == old(rx) + [change] && trace == old(trace) + [Discover(Discovery.Send)]
      ensures View().d == old(View()).d.(unsent := old(View()).d.unsent[1..], queue := rx)
      ensures View().list == old(View()).list && View().connecting == old(View()).connecting
    {
      Tick(Discover(Discovery.Send));
      rx := rx + [change];
    }

    /** Whatever the two writers did, only addresses that are in by the changes taken are listed, and
        each is there because connecting to it succeeded and nothing dropped it since. */
    lemma ListIsSound(a: SocketAddr)
      requires Valid()
      ensures a in wsRpcList <==> Listed(setup, trace, a)
      ensures a in wsRpcList ==> a in Replay(View().d.consumed)
    {
      ListIsContained(setup, trace);
      ListIsExact(setup, trace, a);
    }

    /** The applying task takes the next change, if it is at none. A Remove takes the address off the list;
        an Insert always finds it out, and connecting begins. */
    method TakeChange() returns (taken: bool)
      requires Valid()
      modifies this
      ensures Valid() && trace == old(trace) + [Take] && View() == Advance(setup, old(View()), Take)
      ensures taken <==> old(connecting).None? && old(rx) != []
      ensures !taken ==> wsRpcList == old(wsRpcList) && rx == old(rx) && connecting == old(connecting)
      ensures taken ==>
                && View().d == Taken(old(View()).d) && rx == old(rx)[1..]
                && var change := old(rx)[0];
                   && change.addr !in wsRpcList && wsRpcList == old(wsRpcList) - {change.addr}
                   && (change.Insert? ==> change.addr !in old(wsRpcList))
                   && connecting == if change.Insert? then Some(change.addr) else None
    {
      taken := connecting.None? && rx != [];
      if taken {
        TakeNext();
      } else {
        Tick(Take);
      }
    }

    method TakeNext()
      requires Valid() && connecting.None? && rx != []
      modifies this
      ensures Valid() && trace == old(trace) + [Take] && View() == Advance(setup, old(View()), Take)
      ensures View().d == Taken(old(View()).d) && rx == old(rx)[1..]
      ensures old(rx)[0].addr !in wsRpcList && wsRpcList == old(wsRpcList) - {old(rx)[0].addr}
      ensures old(rx)[0].Insert? ==> old(rx)[0].addr !in old(wsRpcList)
      ensures connecting == if old(rx)[0].Insert? then Some(old(rx)[0].addr) else None
    {
      TakeDoes(setup, trace);
      match rx[0] {
        case Insert(a) =>
          connecting := Some(a);
        case Remove(a) =>
          wsRpcList := wsRpcList - {a};
      }
      rx := rx[1..];
      Tick(Take);
    }

    /** A connect ends. The address is listed exactly if it succeeded; evictions meanwhile did not touch
        it, for it was out. The other addresses keep their clients. */
    method EndConnect(connection: Option<MsgClient>)
      requires Valid()
      modifies `wsRpcList, `connecting, `trace
      ensures Valid() && trace == old(trace) + [StepOf(Ending(connection))] && connecting == None
      ensures View().d == old(View()).d && View() == Advance(setup, old(View()), StepOf(Ending(connection)))
      ensures old(connecting).None? ==> wsRpcList == old(wsRpcList)
      ensures old(connecting).Some? ==>
                var a := old(connecting).value;
                && (a in wsRpcList <==> connection.Some?) && (a in wsRpcList ==> wsRpcList[a] == connection.value)
                && wsRpcList - {a} == old(wsRpcList) - {a}
    {
      ListIsContained(setup, trace);
      if connecting.Some? && connection.Some? {
        wsRpcList := wsRpcList[connecting.value := connection.value];
      }
      connecting := None;
      Tick(StepOf(Ending(connection)));
    }

    /** One turn of the applying loop with nothing in between: afterwards the address of the next change is
        listed exactly if it was inserted and connected to; the other addresses keep their clients. */
    method ApplyChange(connection: Option<MsgClient>)
      requires Valid() && connecting.None? && rx != []
      modifies this
      ensures Valid() && connecting.None? && rx == old(rx)[1..]
      ensures trace == old(trace) + [Take] + if old(rx)[0].Remove? then [] else [StepOf(Ending(connection))]
      ensures View().d == Taken(old(View()).d)
      ensures var a := old(rx)[0].addr;
              && (a in wsRpcList <==> old(rx)[0].Insert? && connection.Some?)
              && (a in wsRpcList ==> wsRpcList[a] == connection.value)
              && wsRpcList - {a} == old(wsRpcList) - {a}
      ensures old(Follows(View())) && connection.Some? ==> Follows(View())
    {
      var change := rx[0];
      ListIsContained(setup, trace);
      AppliesFollowing(setup, View());
      TakeNext();
      if change.Insert? {
        EndConnect(connection);
      }
    }

    /** One round of discovery goes through: its changes are handed over and applied one by one, while
        nothing is pushed. Only usable addresses of the new snapshot are listed then; if all connects
        succeed and none was missing before, all of them are. */
    method FollowRound(ghost snapshot: set<SocketAddr>, changes: seq<Change>, connect: SocketAddr -> Option<MsgClient>)
      requires Valid() && rx == [] && connecting == None && View().d.publishing.None? && setup.capacity > 0
      requires IsDiff(changes, View().d.services, snapshot, setup.builds)
      modifies this
      ensures Valid() && rx == [] && connecting == None
      ensures View().d.services == snapshot && View().d.publishing.None?
      ensures wsRpcList.Keys <= Buildable(snapshot, setup.builds)
      ensures old(Follows(View())) && (forall a :: connect(a).Some?) ==>
              wsRpcList.Keys == Buildable(snapshot, setup.builds)
    {
      ghost var good := Follows(View()) && forall a :: connect(a).Some?;
      Begins(snapshot, changes);
      for i := 0 to |changes|
        invariant Valid() && rx == [] && connecting == None
        invariant View().d.publishing == Some(snapshot) && View().d.unsent == changes[i..]
        invariant good ==> Follows(View())
      {
        PassOn(changes[i], connect(changes[i].addr));
      }
      Finishes(snapshot);
    }

    ghost method Begins(snapshot: set<SocketAddr>, changes: seq<Change>)
      requires Valid() && View().d.publishing.None? && IsDiff(changes, View().d.services, snapshot, setup.builds)
      modifies `trace
      ensures Valid() && View().d.publishing == Some(snapshot) && View().d.unsent == changes
      ensures Follows(View()) == old(Follows(View()))
    {
      Tick(Discover(Discovery.Begin(snapshot, changes)));
    }

    /** A change is handed over and applied. */
    method PassOn(change: Change, connection: Option<MsgClient>)
      requires Valid() && rx == [] && connecting == None && setup.capacity > 0
      requires View().d.unsent != [] && View().d.unsent[0] == change
      modifies this
      ensures Valid() && rx == [] && connecting == None
      ensures View().d.publishing == old(View()).d.publishing && View().d.unsent == old(View()).d.unsent[1..]
      ensures old(Follows(View())) && connection.Some? ==> Follows(View())
    {
      Sent(change);
      ApplyChange(connection);
    }

    ghost method Finishes(snapshot: set<SocketAddr>)
      requires Valid() && rx == [] && connecting == None && View().d.publishing == Some(snapshot)
               && View().d.unsent == []
      modifies `trace
      ensures Valid() && View().d.services == snapshot && View().d.publishing.None?
      ensures wsRpcList.Keys <= Buildable(snapshot, setup.builds)
      ensures old(Follows(View())) ==> wsRpcList.Keys == Buildable(snapshot, setup.builds)
    {
      ListIsContained(setup, trace);
      InStep(setup, View());
      Tick(Discover(Discovery.Finish));
    }

    /** One step of the applying task. */
    method Step(turn: Turn)
      requires Valid()
      modifies this
      ensures Valid() && trace == old(trace) + [StepOf(turn)]
      ensures turn.Taking? && old(connecting).None? && old(rx) != [] ==> rx == old(rx)[1..]
      ensures turn.Ending? ==> connecting == None && rx == old(rx)
    {
      match turn {
        case Taking => var taken := TakeChange();
        case Ending(connection) => EndConnect(connection);
      }
    }

    /** A push call, while the applying task makes these turns. Every listed instance is tried once and
        every failure is reported and evicted once (`done` are the steps in the order they happened).
        Outside the failed addresses the list is what the applying task alone would have made of it;
        with no turns at all it is the old one less the failed. With no instance at all the error
        channel cannot be made and the call dies. */
    method PushSingleMsg(fails: SocketAddr -> bool, turns: seq<Turn>)
      returns (r: Result<()>, attempts: seq<SocketAddr>, reported: seq<SocketAddr>, ghost done: seq<Step>)
      requires Valid()
      modifies this
      ensures Valid() && trace == old(trace) + done
      ensures r.Ok? <==> old(wsRpcList) != map[]
      ensures Walks(attempts, old(wsRpcList.Keys))
      ensures Walks(reported, Failed(old(wsRpcList.Keys), fails)) && Evicted(done) == reported
      ensures r.Err? ==> done == [] && wsRpcList == old(wsRpcList)
      ensures r.Ok? ==> Rest(done) == Script(turns)
      ensures r.Ok? ==> SameBut(View(), Live(setup, old(trace) + Script(turns)), Failed(old(wsRpcList.Keys), fails))
      ensures r.Ok? && turns == [] ==> wsRpcList == old(wsRpcList) - Failed(old(wsRpcList.Keys), fails)
      ensures forall a :: a in attempts <==> a in old(wsRpcList)
      ensures forall a :: a in reported <==> a in old(wsRpcList) && fails(a)
      ensures forall i, j :: 0 <= i < j < |attempts| ==> attempts[i] != attempts[j]
      ensures forall i, j :: 0 <= i < j < |reported| ==> reported[i] != reported[j]
      ensures turns == [] ==>
                && (forall a :: a in wsRpcList <==> a in old(wsRpcList) && !fails(a))
                && (forall a :: a in wsRpcList ==> wsRpcList[a] == old(wsRpcList)[a])
    {
      if |wsRpcList| == 0 {
        assert wsRpcList.Keys == {} && wsRpcList == map[];
        assert Failed(wsRpcList.Keys, fails) == {} && trace == trace + [];
        return Err("mpsc bounded channel requires buffer > 0"), [], [], [];
      }
      attempts, reported, done := FanOut(wsRpcList.Keys, |wsRpcList|, fails, turns);
      r := Ok(());
    }

    /** The spawned sends and the drain loop, in every order the scheduler may choose: a running send
        ends, a failed one puts its error in the channel when there is room, the loop takes an error
        and evicts, the applying task makes its next turn. The loop ends when every send is over and
        the channel is empty. */
    method FanOut(listed: set<SocketAddr>, capacity: nat, fails: SocketAddr -> bool, turns: seq<Turn>)
      returns (attempts: seq<SocketAddr>, reported: seq<SocketAddr>, ghost done: seq<Step>)
      requires Valid() && capacity > 0
      modifies this
      ensures Valid() && trace == old(trace) + done
      ensures Walks(attempts, listed)
      ensures Walks(reported, Failed(listed, fails)) && Evicted(done) == reported && Rest(done) == Script(turns)
      ensures SameBut(View(), Live(setup, old(trace) + Script(turns)), Failed(listed, fails))
      ensures turns == [] ==> wsRpcList == old(wsRpcList) - Failed(listed, fails)
      ensures forall a :: a in attempts <==> a in listed
      ensures forall a :: a in reported <==> a in listed && fails(a)
      ensures forall i, j :: 0 <= i < j < |attempts| ==> attempts[i] != attempts[j]
      ensures forall i, j :: 0 <= i < j < |reported| ==> reported[i] != reported[j]
    {
      attempts, reported, done := [], [], [];
      var running, blocked: set<SocketAddr>, errors: seq<SocketAddr>, k := listed, {}, [], 0;
      ghost var before := trace;
      NoneSent(listed, fails);
      NothingYet(turns);
      while
        invariant Sending(listed, fails, running, blocked, errors, attempts, reported)
        invariant |errors| <= capacity && k <= |turns|
        invariant k == 0 ==> wsRpcList == old(wsRpcList) - Elements(reported)
        invariant Mixed(before, done, reported, turns, k)
        decreases running, blocked, |errors|, |turns| - k
      {
        case running != {} =>
          var a :| a in running;
          SendEnds(listed, fails, running, blocked, errors, attempts, reported, a);
          running := running - {a};
          attempts := attempts + [a];
          blocked := if fails(a) then blocked + {a} else blocked;
        case blocked != {} && |errors| < capacity =>
          var a :| a in blocked;
          ErrorReported(listed, fails, running, blocked, errors, attempts, reported, a);
          blocked, errors := blocked - {a}, errors + [a];
        case errors != [] =>
          var a := errors[0];
          ErrorDrained(listed, fails, running, blocked, errors, attempts, reported);
          Drained(a, before, done, reported, turns, k);
          errors, reported, done := errors[1..], reported + [a], done + [Evict(a)];
        case k < |turns| =>
          Turned(turns, k, before, done, reported);
          done := done + [StepOf(turns[k])];
          k := k + 1;
      }
      AllSent(listed, fails, attempts, reported);
      assert forall a :: a in attempts <==> a in Elements(attempts);
      assert forall a :: a in reported <==> a in Elements(reported);
      assert turns[..k] == turns;
    }

    /** After `done`, in which the `reported` were evicted and the applying task made its first `k` turns. */
    ghost predicate Mixed(before: seq<Step>, done: seq<Step>, reported: seq<SocketAddr>, turns: seq<Turn>, k: nat)
      reads this
    {
      && Valid() && trace == before + done && k <= |turns|
      && Evicted(done) == reported && Rest(done) == Script(turns[..k])
      && SameBut(View(), Live(setup, before + Script(turns[..k])), Elements(reported))
    }

    lemma NothingYet(turns: seq<Turn>)
      requires Valid()
      ensures Mixed(trace, [], [], turns, 0)
    {
      assert trace + [] == trace && turns[..0] == [];
    }

    /** The applying task's turn among the sends. */
    method Turned(turns: seq<Turn>, k: nat, ghost before: seq<Step>, ghost done: seq<Step>,
                  ghost reported: seq<SocketAddr>)
      requires Mixed(before, done, reported, turns, k) && k < |turns|
      modifies this
      ensures Mixed(before, done + [StepOf(turns[k])], reported, turns, k + 1)
    {
      assert turns[..k + 1][..k] == turns[..k];
      SplitOn(done, StepOf(turns[k]));
      ghost var alone := before + Script(turns[..k]);
      assert before + Script(turns[..k + 1]) == alone + [StepOf(turns[k])];
      LiveOn(setup, alone, StepOf(turns[k]));
      LiveOn(setup, trace, StepOf(turns[k]));
      SameOn(setup, View(), Live(setup, alone), Elements(reported), StepOf(turns[k]));
      Step(turns[k]);
    }

    /** The drain loop takes an error and evicts. */
    method Drained(a: SocketAddr, ghost before: seq<Step>, ghost done: seq<Step>, ghost reported: seq<SocketAddr>,
                   ghost turns: seq<Turn>, ghost k: nat)
      requires Mixed(before, done, reported, turns, k)
      modifies `wsRpcList, `trace
      ensures Mixed(before, done + [Evict(a)], reported + [a], turns, k)
      ensures wsRpcList == old(wsRpcList) - {a} && Elements(reported + [a]) == Elements(reported) + {a}
    {
      assert Elements(reported + [a]) == Elements(reported) + {a};
      SplitOn(done, Evict(a));
      SameOn(setup, View(), Live(setup, before + Script(turns[..k])), Elements(reported), Evict(a));
      Drop(a);
    }

    method Drop(a: SocketAddr)
      requires Valid()
      modifies `wsRpcList, `trace
      ensures Valid() && trace == old(trace) + [Evict(a)] && View() == Advance(setup, old(View()), Evict(a))
      ensures wsRpcList == old(wsRpcList) - {a}
    {
      wsRpcList := wsRpcList - {a};
      Tick(Evict(a));
    }
  }
}
