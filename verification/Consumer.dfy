/** The receiving half of the pipeline, as a machine of interleaved steps: the consumer's receive /
    number / dispatch / join / commit loop, the broker's committed offset, the counters, the table
    and the push calls (sandcat_prectice/consumer/src/main.rs).

    A handling is one numbered delivery of a record; it is named by its place in `numbered`. */
module Consumer {
  import opened Messages
  import Cache
  import Store
  import Fanout

  /** `life` counts the consumer's restarts. */
  datatype Numbering = Numbering(offset: nat, user: string, number: int, life: nat)

  datatype Phase =
    | Down
    | Ready
    | Received(offset: nat)
    | Dispatched(h: nat, saveEnded: bool, pushEnded: bool)
    | Joined(h: nat)

  datatype State = State(
    position: nat,             // offset of the next delivery
    life: nat,
    phase: Phase,
    counters: Cache.Counters,
    rows: Store.Table,
    committed: nat,            // where the broker lets a restarted consumer begin
    commits: set<nat>,         // commits on their way to the broker
    pushes: map<nat, Fanout.Push>,
    // records of the past
    received: set<nat>,
    numbered: seq<Numbering>,
    lost: seq<string>,         // receivers of increments whose number nobody saw
    saveEnds: set<nat>,
    pushEnds: set<nat>,
    stored: set<nat>,
    frames: map<Fanout.Conn, seq<nat>>
  )

  const Init := State(0, 0, Ready, map[], map[], 0, {}, map[], {}, [], [], {}, {}, {}, map[])

  datatype Step =
    | Receive
    | Number
    | NumberFails(applied: bool)          // the increment's reply is lost, or it never ran
    | StoreRow(h: nat)                    // the database runs the insert of a save call
    | SaveSucceeds
    | SaveFails                           // only logged; the insert may still run
    | StartPush(h: nat, targets: set<nat>) // with no instance to push to the call dies instead
    | Fan(h: nat, step: Fanout.Step)
    | PushReturns                         // every fan-out task was drained
    | PushFails                           // only logged; the fan-out may still run
    | Join
    | JoinFails                           // a dispatch task died: skipped without a commit
    | Commit
    | CommitFails
    | BrokerCommits(to: nat)
    | CommitLost(to: nat)
    | Crash
    | Restart

  predicate Enabled(log: seq<Msg>, b: State, step: Step) {
    match step
    case Receive => b.phase.Ready? && b.position < |log|
    case Number =>
      && b.phase.Received? && b.phase.offset < |log|
      && Cache.CanBump(b.counters, log[b.phase.offset].receiverId)
    case NumberFails(applied) =>
      && b.phase.Received? && b.phase.offset < |log|
      && (applied ==> Cache.CanBump(b.counters, log[b.phase.offset].receiverId))
    case StoreRow(h) => h < |b.numbered| && b.numbered[h].offset < |log|
    case SaveSucceeds =>
      && b.phase.Dispatched? && !b.phase.saveEnded && b.phase.h < |b.numbered|
      && b.numbered[b.phase.h].offset in b.stored
    case SaveFails => b.phase.Dispatched? && !b.phase.saveEnded
    case StartPush(h, targets) => h < |b.numbered| && h !in b.pushes && targets != {}
    case Fan(h, f) => h in b.pushes && Fanout.Enabled(b.pushes[h], f)
    case PushReturns =>
      && b.phase.Dispatched? && !b.phase.pushEnded && b.phase.h in b.pushes
      && b.pushes[b.phase.h].waiting == {}
    case PushFails => b.phase.Dispatched? && !b.phase.pushEnded
    case Join => b.phase.Dispatched? && b.phase.saveEnded && b.phase.pushEnded
    case JoinFails => b.phase.Dispatched? && !(b.phase.saveEnded && b.phase.pushEnded)
    case Commit => b.phase.Joined? && b.phase.h < |b.numbered|
    case CommitFails => b.phase.Joined?
    case BrokerCommits(to) => to in b.commits
    case CommitLost(to) => to in b.commits
    case Crash => !b.phase.Down?
    case Restart => b.phase.Down?
  }

  function FramesOf(b: State, conn: Fanout.Conn): seq<nat> {
    if conn in b.frames then b.frames[conn] else []
  }

  function Apply(log: seq<Msg>, b: State, step: Step): State
    requires Enabled(log, b, step)
  {
    match step
    case Receive => b.(phase := Received(b.position), position := b.position + 1, received := b.received + {b.position})
    case Number =>
      var user := log[b.phase.offset].receiverId;
      var counters := Cache.Bumped(b.counters, user);
      b.(counters := counters,
         numbered := b.numbered + [Numbering(b.phase.offset, user, Cache.CounterOf(counters, user), b.life)],
         phase := Dispatched(|b.numbered|, false, false))
    case NumberFails(applied) =>
      var user := log[b.phase.offset].receiverId;
      if applied then b.(counters := Cache.Bumped(b.counters, user), lost := b.lost + [user], phase := Ready)
      else b.(phase := Ready)
    case StoreRow(h) =>
      var n := b.numbered[h];
      b.(rows := Store.Insert(b.rows, log[n.offset].(number := n.number)), stored := b.stored + {n.offset})
    case SaveSucceeds => b.(phase := b.phase.(saveEnded := true), saveEnds := b.saveEnds + {b.phase.h})
    case SaveFails => b.(phase := b.phase.(saveEnded := true), saveEnds := b.saveEnds + {b.phase.h})
    case StartPush(h, targets) => b.(pushes := b.pushes[h := Fanout.Started(targets)])
    case Fan(h, f) =>
      b.(pushes := b.pushes[h := Fanout.Apply(b.pushes[h], f)],
         frames := if f.Write? then b.frames[f.conn := FramesOf(b, f.conn) + [h]] else b.frames)
    case PushReturns => b.(phase := b.phase.(pushEnded := true), pushEnds := b.pushEnds + {b.phase.h})
    case PushFails => b.(phase := b.phase.(pushEnded := true), pushEnds := b.pushEnds + {b.phase.h})
    case Join => b.(phase := Joined(b.phase.h))
    case JoinFails => b.(phase := Ready)
    case Commit => b.(phase := Ready, commits := b.commits + {b.numbered[b.phase.h].offset + 1})
    case CommitFails => b.(phase := Ready)
    case BrokerCommits(to) => b.(committed := to, commits := b.commits - {to})
    case CommitLost(to) => b.(commits := b.commits - {to})
    case Crash => b.(phase := Down)
    case Restart => b.(phase := Ready, position := b.committed, life := b.life + 1)
  }

  function Next(log: seq<Msg>, b: State, step: Step): State {
    if Enabled(log, b, step) then Apply(log, b, step) else b
  }

  /** The steps one after the other over a topic that does not grow meanwhile. */
  function Play(log: seq<Msg>, b: State, steps: seq<Step>): State {
    if steps == [] then b else Next(log, Play(log, b, steps[..|steps| - 1]), steps[|steps| - 1])
  }

  // ---- What every step keeps, faults included ----

  ghost predicate ReceivedBelow(b: State, o: nat) {
    forall j: nat :: j < o ==> j in b.received
  }

  /** A handling of the record just below `o` was numbered and both its tasks ended. */
  ghost predicate FinishedBelow(b: State, o: nat) {
    o == 0 || exists h :: 0 <= h < |b.numbered| && b.numbered[h].offset + 1 == o && h in b.saveEnds && h in b.pushEnds
  }

  ghost predicate CommitInv(log: seq<Msg>, b: State) {
    && b.position <= |log|
    && (forall j :: j in b.received ==> j < |log|)
    && ReceivedBelow(b, b.position)
    && Reached(b, b.committed)
    && (forall o :: o in b.commits ==> Reached(b, o))
  }

  ghost predicate Reached(b: State, o: nat) {
    ReceivedBelow(b, o) && FinishedBelow(b, o)
  }

  ghost predicate PhaseInv(b: State) {
    && (forall h :: h in b.saveEnds || h in b.pushEnds ==> h < |b.numbered|)
    && match b.phase
    case Down => true
    case Ready => true
    case Received(o) => o + 1 == b.position
    case Dispatched(h, s, p) => Current(b, h) && (s <==> h in b.saveEnds) && (p <==> h in b.pushEnds)
    case Joined(h) => Current(b, h) && h in b.saveEnds && h in b.pushEnds
  }

  ghost predicate Current(b: State, h: nat) {
    h + 1 == |b.numbered| && b.numbered[h].life == b.life && b.numbered[h].offset + 1 == b.position
  }

  ghost predicate NumberOk(log: seq<Msg>, b: State, n: Numbering) {
    && n.offset < |log| && n.offset in b.received
    && n.user == log[n.offset].receiverId
    && 1 <= n.number <= Cache.CounterOf(b.counters, n.user)
    && n.life <= b.life
    && (n.life == b.life ==> n.offset < if b.phase.Received? then b.phase.offset else b.position)
  }

  ghost predicate NumbersInv(log: seq<Msg>, b: State) {
    && (forall u :: Cache.CounterOf(b.counters, u) >= 0)
    && (forall h :: 0 <= h < |b.numbered| ==> NumberOk(log, b, b.numbered[h]))
  }

  /** Lives follow one another; within a life offsets rise; for one receiver numbers rise. */
  ghost predicate OrderInv(b: State) {
    forall h, g :: 0 <= h < g < |b.numbered| ==>
                     var m, n := b.numbered[h], b.numbered[g];
                     && m.life <= n.life
                     && (m.life == n.life ==> m.offset < n.offset)
                     && (m.user == n.user ==> m.number < n.number)
  }

  ghost predicate TableInv(log: seq<Msg>, b: State) {
    && (forall r :: r in b.stored ==> r < |log| && r in b.received)
    && Store.IsTableOf(b.rows, log, b.stored)
  }

  ghost predicate Inv(log: seq<Msg>, b: State) {
    CommitInv(log, b) && PhaseInv(b) && NumbersInv(log, b) && OrderInv(b) && TableInv(log, b)
  }

  lemma {:induction false} InitInv()
    ensures Inv([], Init)
  {
  }

  lemma {:induction false} LogGrows(log: seq<Msg>, more: seq<Msg>, b: State)
    requires Inv(log, b) && log <= more
    ensures Inv(more, b)
  {
    assert forall r :: r in b.stored ==> more[r] == log[r];
    assert Store.Keys(log, b.stored) == Store.Keys(more, b.stored);
    forall h | 0 <= h < |b.numbered|
      ensures NumberOk(more, b, b.numbered[h])
    {
      assert NumberOk(log, b, b.numbered[h]);
    }
  }

  lemma {:induction false} KeepsReached(log: seq<Msg>, b: State, step: Step, o: nat)
    requires Enabled(log, b, step) && Reached(b, o)
    ensures Reached(Apply(log, b, step), o)
  {
  }

  lemma {:induction false} KeepsCommits(log: seq<Msg>, b: State, step: Step)
    requires CommitInv(log, b) && PhaseInv(b) && Enabled(log, b, step)
    ensures CommitInv(log, Apply(log, b, step))
  {
    var c := Apply(log, b, step);
    KeepsReached(log, b, step, b.committed);
    assert b.committed > 0 ==> b.committed - 1 in b.received;
    forall o | o in c.commits
      ensures Reached(c, o)
    {
      if o in b.commits {
        KeepsReached(log, b, step, o);
      } else {
        assert o == b.position && c.numbered[b.phase.h].offset + 1 == o;
      }
    }
    if step.BrokerCommits? {
      KeepsReached(log, b, step, step.to);
    }
  }

  lemma {:induction false} KeepsPhase(log: seq<Msg>, b: State, step: Step)
    requires PhaseInv(b) && Enabled(log, b, step)
    ensures PhaseInv(Apply(log, b, step))
  {
  }

  lemma {:induction false} KeepsNumbers(log: seq<Msg>, b: State, step: Step)
    requires CommitInv(log, b) && PhaseInv(b) && NumbersInv(log, b) && Enabled(log, b, step)
    ensures NumbersInv(log, Apply(log, b, step))
  {
    var c := Apply(log, b, step);
    forall h | 0 <= h < |c.numbered|
      ensures NumberOk(log, c, c.numbered[h])
    {
      if h < |b.numbered| {
        assert NumberOk(log, b, b.numbered[h]);
      }
    }
  }

  lemma {:induction false} KeepsOrder(log: seq<Msg>, b: State, step: Step)
    requires PhaseInv(b) && NumbersInv(log, b) && OrderInv(b) && Enabled(log, b, step)
    ensures OrderInv(Apply(log, b, step))
  {
  }

  lemma {:induction false} KeepsTable(log: seq<Msg>, b: State, step: Step)
    requires Store.DistinctKeys(log) && NumbersInv(log, b) && TableInv(log, b) && Enabled(log, b, step)
    ensures TableInv(log, Apply(log, b, step))
  {
    if step.StoreRow? {
      Store.InsertRecord(b.rows, log, b.stored, b.numbered[step.h].offset, b.numbered[step.h].number);
    }
  }

  lemma {:induction false} KeepsInv(log: seq<Msg>, b: State, step: Step)
    requires Store.DistinctKeys(log) && Inv(log, b)
    ensures Inv(log, Next(log, b, step))
  {
    if Enabled(log, b, step) {
      KeepsCommits(log, b, step);
      KeepsPhase(log, b, step);
      KeepsNumbers(log, b, step);
      KeepsOrder(log, b, step);
      KeepsTable(log, b, step);
    }
  }

  // ---- What a step does to pushes and frames ----

  /** Handlings and what their pushes have done are never forgotten. */
  ghost predicate Remembers(b: State, c: State) {
    && b.numbered <= c.numbered
    && forall h :: h in b.pushes ==> h in c.pushes && Fanout.Remembers(b.pushes[h], c.pushes[h])
  }

  /** Every push is of a handling and keeps the fan-out's invariant. */
  ghost predicate PushesInv(b: State) {
    forall h :: h in b.pushes ==> h < |b.numbered| && Fanout.Inv(b.pushes[h])
  }

  /** A step moves at most one push, and only by a start or a step of its fan-out. */
  lemma {:induction false} NextPushes(log: seq<Msg>, b: State, step: Step)
    ensures var c := Next(log, b, step);
            && b.numbered <= c.numbered
            && if !Enabled(log, b, step) then c == b
               else if step.StartPush? then c.pushes == b.pushes[step.h := Fanout.Started(step.targets)]
               else if step.Fan? then c.pushes == b.pushes[step.h := Fanout.Apply(b.pushes[step.h], step.step)]
               else c.pushes == b.pushes
  {
  }

  lemma {:induction false} NextRemembers(log: seq<Msg>, b: State, step: Step)
    requires PushesInv(b)
    ensures Remembers(b, Next(log, b, step)) && PushesInv(Next(log, b, step))
  {
    NextPushes(log, b, step);
    if step.Fan? && Enabled(log, b, step) {
      Fanout.KeepsInv(b.pushes[step.h], step.step);
    }
  }

  ghost predicate Writes(log: seq<Msg>, b: State, step: Step) {
    step.Fan? && step.step.Write? && Enabled(log, b, step)
  }

  /** Only a write touches a connection's frames, and it appends one handling. */
  lemma {:induction false} NextFrames(log: seq<Msg>, b: State, step: Step)
    ensures var c := Next(log, b, step);
            c.frames == if Writes(log, b, step)
                        then b.frames[step.step.conn := FramesOf(b, step.step.conn) + [step.h]]
                        else b.frames
  {
  }

  lemma {:induction false} PlayAppend(log: seq<Msg>, b: State, xs: seq<Step>, ys: seq<Step>)
    ensures Play(log, b, xs + ys) == Play(log, Play(log, b, xs), ys)
  {
    if ys == [] {
      assert xs + ys == xs;
    } else {
      PlayAppend(log, b, xs, ys[..|ys| - 1]);
      assert (xs + ys)[..|xs + ys| - 1] == xs + ys[..|ys| - 1];
    }
  }

  /** Runs keep the machine's invariant. */
  lemma {:induction false} PlayKeepsInv(log: seq<Msg>, b: State, steps: seq<Step>)
    requires Store.DistinctKeys(log) && Inv(log, b)
    ensures Inv(log, Play(log, b, steps))
  {
    if steps != [] {
      PlayKeepsInv(log, b, steps[..|steps| - 1]);
      KeepsInv(log, Play(log, b, steps[..|steps| - 1]), steps[|steps| - 1]);
    }
  }

  /** A chain of states, each the next of the one before, is the run of its steps. */
  lemma {:induction false} PlayIsChain(log: seq<Msg>, a: State, t: seq<Step>, bs: seq<State>)
    requires |t| == |bs| > 0 && bs[0] == Next(log, a, t[0])
    requires forall k :: 0 < k < |t| ==> bs[k] == Next(log, bs[k - 1], t[k])
    ensures Play(log, a, t) == bs[|bs| - 1]
  {
    var n := |t| - 1;
    if n == 0 {
      assert t[..0] == [];
    } else {
      PlayIsChain(log, a, t[..n], bs[..n]);
    }
  }

  // ---- A topic that grows meanwhile ----

  /** No delivery was taken before its record was there. */
  ghost predicate Timely(log: seq<Msg>, steps: seq<Step>) {
    steps == [] ||
    (&& Timely(log, steps[..|steps| - 1])
     && (steps[|steps| - 1].Receive? ==> Enabled(log, Play(log, Init, steps[..|steps| - 1]), Receive)))
  }

  ghost predicate BoundsInv(log: seq<Msg>, b: State) {
    CommitInv(log, b) && PhaseInv(b) && NumbersInv(log, b)
  }

  lemma {:induction false} PlayKeepsBounds(log: seq<Msg>, steps: seq<Step>)
    ensures BoundsInv(log, Play(log, Init, steps))
  {
    if steps != [] {
      var b, last := Play(log, Init, steps[..|steps| - 1]), steps[|steps| - 1];
      PlayKeepsBounds(log, steps[..|steps| - 1]);
      if Enabled(log, b, last) {
        KeepsCommits(log, b, last);
        KeepsPhase(log, b, last);
        KeepsNumbers(log, b, last);
      }
    }
  }

  /** More records change nothing about the steps already taken. */
  lemma {:induction false} NextGrows(log: seq<Msg>, more: seq<Msg>, b: State, step: Step)
    requires BoundsInv(log, b) && log <= more && (step.Receive? ==> Enabled(log, b, step))
    ensures Next(more, b, step) == Next(log, b, step)
  {
    assert step.StoreRow? && step.h < |b.numbered| ==> NumberOk(log, b, b.numbered[step.h]);
  }

  lemma {:induction false} PlayGrows(log: seq<Msg>, more: seq<Msg>, steps: seq<Step>)
    requires Timely(log, steps) && log <= more
    ensures Play(more, Init, steps) == Play(log, Init, steps) && Timely(more, steps)
  {
    if steps != [] {
      PlayGrows(log, more, steps[..|steps| - 1]);
      PlayKeepsBounds(log, steps[..|steps| - 1]);
      NextGrows(log, more, Play(log, Init, steps[..|steps| - 1]), steps[|steps| - 1]);
    }
  }
}
