/** What a commit says about the records below it.

    The consumer commits every record it handled to the end and goes on past one it could not handle;
    a later commit then covers both. So a committed record was finished or skipped, and which of the
    two is a matter of its own deliveries, whatever happened to the others. */
module Delivery {
  import opened Messages
  import opened Pipeline
  import Store
  import Consumer

  /** How a delivery of a record ended: `Finished` when its save and its push both ended, `Skipped`
      when its increment failed or one of its tasks died, `Cut` by a crash. */
  datatype Fate = Underway | Finished | Skipped | Cut

  datatype Delivery = Delivery(offset: nat, fate: Fate, saveFailed: bool)

  function Mark(ds: seq<Delivery>, fate: Fate, saveFailed: bool): seq<Delivery> {
    if ds == [] then ds
    else
      var d := ds[|ds| - 1];
      ds[|ds| - 1 := d.(fate := fate, saveFailed := d.saveFailed || saveFailed)]
  }

  function Track(ds: seq<Delivery>, b: Consumer.State, step: Consumer.Step): seq<Delivery>
    requires (step.SaveSucceeds? || step.SaveFails? || step.PushReturns? || step.PushFails?) ==> b.phase.Dispatched?
  {
    match step
    case Receive => ds + [Delivery(b.position, Underway, false)]
    case NumberFails(_) => Mark(ds, Skipped, false)
    case JoinFails => Mark(ds, Skipped, false)
    case SaveSucceeds => Mark(ds, if b.phase.pushEnded then Finished else Underway, false)
    case SaveFails => Mark(ds, if b.phase.pushEnded then Finished else Underway, true)
    case PushReturns => Mark(ds, if b.phase.saveEnded then Finished else Underway, false)
    case PushFails => Mark(ds, if b.phase.saveEnded then Finished else Underway, false)
    case Crash => if b.phase.Received? || Working(b) then Mark(ds, Cut, false) else ds
    case _ => ds
  }

  predicate Working(b: Consumer.State) {
    b.phase.Dispatched? && !(b.phase.saveEnded && b.phase.pushEnded)
  }

  /** The deliveries of a run, in order. */
  ghost function Deliveries(nodes: nat, steps: seq<Step>): seq<Delivery> {
    if steps == [] then []
    else
      var init, last := steps[..|steps| - 1], steps[|steps| - 1];
      var s := Run(nodes, init);
      if last.Consume? && Allowed(s, last) && Consumer.Enabled(Topic(s), s.back, last.consume)
      then Track(Deliveries(nodes, init), s.back, last.consume)
      else Deliveries(nodes, init)
  }

  /** Some delivery of the record ended so. */
  ghost predicate Ended(ds: seq<Delivery>, offset: nat, fate: Fate) {
    exists k :: 0 <= k < |ds| && ds[k].offset == offset && ds[k].fate == fate
  }

  ghost predicate Passed(ds: seq<Delivery>, offset: nat) {
    Ended(ds, offset, Finished) || Ended(ds, offset, Skipped)
  }

  ghost predicate BothEnded(b: Consumer.State, h: nat) {
    h in b.saveEnds && h in b.pushEnds
  }

  /** The record was numbered and both its tasks ended, at least once. */
  ghost predicate Done(b: Consumer.State, offset: nat) {
    exists h :: 0 <= h < |b.numbered| && DoneBy(b, offset, h)
  }

  ghost predicate DoneBy(b: Consumer.State, offset: nat, h: nat) {
    h < |b.numbered| && b.numbered[h].offset == offset && BothEnded(b, h)
  }

  // ---- How deliveries follow the consumer ----

  /** The delivery the consumer is at. */
  ghost predicate LastInv(b: Consumer.State, ds: seq<Delivery>) {
    match b.phase
    case Down => true
    case Ready => true
    case Received(o) => ds != [] && ds[|ds| - 1] == Delivery(o, Underway, false)
    case Dispatched(h, s, p) =>
      && h < |b.numbered| && ds != []
      && ds[|ds| - 1].offset == b.numbered[h].offset
      && ds[|ds| - 1].fate == (if s && p then Finished else Underway)
      && (s && !ds[|ds| - 1].saveFailed ==> b.numbered[h].offset in b.stored)
    case Joined(h) =>
      && h < |b.numbered| && ds != [] && ds[|ds| - 1].offset == b.numbered[h].offset
      && ds[|ds| - 1].fate == Finished
  }

  ghost predicate NothingElseUnderway(b: Consumer.State, ds: seq<Delivery>) {
    && (forall k :: 0 <= k < |ds| - 1 ==> ds[k].fate != Underway)
    && (ds != [] && ds[|ds| - 1].fate == Underway ==> b.phase.Received? || Working(b))
  }

  /** A delivery that finished is a handling both of whose tasks ended, and conversely. */
  ghost predicate FinishedInv(b: Consumer.State, ds: seq<Delivery>) {
    && (forall h :: 0 <= h < |b.numbered| && BothEnded(b, h) ==> Ended(ds, b.numbered[h].offset, Finished))
    && (forall k :: 0 <= k < |ds| && ds[k].fate == Finished ==> Done(b, ds[k].offset))
  }

  /** What was saved without an error is in the table. */
  ghost predicate SavedInv(b: Consumer.State, ds: seq<Delivery>) {
    forall k :: 0 <= k < |ds| && ds[k].fate == Finished && !ds[k].saveFailed ==> ds[k].offset in b.stored
  }

  /** Whatever the consumer has gone past, in this life or by a commit, was finished or skipped. */
  ghost predicate PassedInv(b: Consumer.State, ds: seq<Delivery>) {
    && PassedBelow(ds, b.committed) && PassedBelow(ds, Frontier(b))
    && (forall o :: o in b.commits ==> PassedBelow(ds, o))
  }

  ghost predicate PassedBelow(ds: seq<Delivery>, o: nat) {
    forall j: nat :: j < o ==> Passed(ds, j)
  }

  /** How far the current life has got. */
  function Frontier(b: Consumer.State): nat {
    if b.phase.Down? then 0
    else if (b.phase.Received? || Working(b)) && b.position > 0 then b.position - 1
    else b.position
  }

  ghost predicate TrackInv(b: Consumer.State, ds: seq<Delivery>) {
    LastInv(b, ds) && NothingElseUnderway(b, ds) && FinishedInv(b, ds) && SavedInv(b, ds) && PassedInv(b, ds)
  }

  /** Deliveries are only added, and one that has ended does not change. */
  ghost predicate Continues(ds: seq<Delivery>, es: seq<Delivery>) {
    |ds| <= |es| && forall k :: 0 <= k < |ds| && ds[k].fate != Underway ==> es[k] == ds[k]
  }

  lemma {:induction false} TrackContinues(log: seq<Msg>, b: Consumer.State, step: Consumer.Step, ds: seq<Delivery>)
    requires Consumer.Enabled(log, b, step) && LastInv(b, ds) && NothingElseUnderway(b, ds)
    ensures Continues(ds, Track(ds, b, step))
  {
  }

  lemma {:induction false} TrackSettles(log: seq<Msg>, b: Consumer.State, step: Consumer.Step, ds: seq<Delivery>)
    requires Consumer.Enabled(log, b, step) && LastInv(b, ds) && NothingElseUnderway(b, ds)
    ensures NothingElseUnderway(Consumer.Apply(log, b, step), Track(ds, b, step))
  {
  }

  lemma {:induction false} TrackLast(log: seq<Msg>, b: Consumer.State, step: Consumer.Step, ds: seq<Delivery>)
    requires Consumer.Enabled(log, b, step) && LastInv(b, ds) && NothingElseUnderway(b, ds)
    ensures LastInv(Consumer.Apply(log, b, step), Track(ds, b, step))
  {
  }

  lemma {:induction false} StayEnded(ds: seq<Delivery>, es: seq<Delivery>, offset: nat, fate: Fate)
    requires Continues(ds, es) && fate != Underway && Ended(ds, offset, fate)
    ensures Ended(es, offset, fate)
  {
    var k :| 0 <= k < |ds| && ds[k].offset == offset && ds[k].fate == fate;
    assert es[k] == ds[k];
  }

  lemma {:induction false} StayPassed(ds: seq<Delivery>, es: seq<Delivery>, o: nat)
    requires Continues(ds, es) && PassedBelow(ds, o)
    ensures PassedBelow(es, o)
  {
    forall j: nat | j < o
      ensures Passed(es, j)
    {
      assert Passed(ds, j);
      if Ended(ds, j, Finished) {
        StayEnded(ds, es, j, Finished);
      } else {
        StayEnded(ds, es, j, Skipped);
      }
    }
  }

  /** A step moves the frontier, the commits and the committed offset only where they may go. */
  lemma {:induction false} Moves(log: seq<Msg>, b: Consumer.State, step: Consumer.Step)
    requires Consumer.PhaseInv(b) && Consumer.Enabled(log, b, step)
    ensures var c := Consumer.Apply(log, b, step);
            && (c.committed == b.committed || c.committed in b.commits)
            && (forall o :: o in c.commits ==> o in b.commits || o == Frontier(b))
            && (Frontier(c) <= Frontier(b) || Frontier(c) == b.committed
                || (Frontier(c) == Frontier(b) + 1 && Leaves(b, c)))
  {
  }

  /** The step that takes the consumer past its record. */
  ghost predicate Leaves(b: Consumer.State, c: Consumer.State) {
    (b.phase.Received? || Working(b)) && (c.phase.Ready? || (c.phase.Dispatched? && !Working(c))) && b.position > 0
  }

  lemma {:induction false} LeavingPasses(log: seq<Msg>, b: Consumer.State, step: Consumer.Step, ds: seq<Delivery>)
    requires Consumer.Enabled(log, b, step) && Consumer.PhaseInv(b) && LastInv(b, ds)
             && Leaves(b, Consumer.Apply(log, b, step))
    ensures Passed(Track(ds, b, step), Frontier(b))
  {
    var es := Track(ds, b, step);
    assert es[|es| - 1].offset == Frontier(b);
  }

  lemma {:induction false} KeepsPassed(log: seq<Msg>, b: Consumer.State, step: Consumer.Step, ds: seq<Delivery>)
    requires Consumer.Enabled(log, b, step) && Consumer.PhaseInv(b) && LastInv(b, ds) && PassedInv(b, ds)
    requires Continues(ds, Track(ds, b, step))
    ensures PassedInv(Consumer.Apply(log, b, step), Track(ds, b, step))
  {
    var c, es := Consumer.Apply(log, b, step), Track(ds, b, step);
    Moves(log, b, step);
    StayPassed(ds, es, b.committed);
    StayPassed(ds, es, Frontier(b));
    forall o | o in b.commits
      ensures PassedBelow(es, o)
    {
      StayPassed(ds, es, o);
    }
    if Frontier(c) > Frontier(b) && Frontier(c) != b.committed {
      LeavingPasses(log, b, step, ds);
    }
  }

  /** Nothing is forgotten of handlings, their ends and what was stored. */
  ghost predicate Grows(b: Consumer.State, c: Consumer.State) {
    b.numbered <= c.numbered && b.saveEnds <= c.saveEnds && b.pushEnds <= c.pushEnds && b.stored <= c.stored
  }

  lemma {:induction false} ApplyGrows(log: seq<Msg>, b: Consumer.State, step: Consumer.Step)
    requires Consumer.Enabled(log, b, step)
    ensures Grows(b, Consumer.Apply(log, b, step))
  {
  }

  /** Only the handling at work can come to have both ends. */
  lemma {:induction false} ApplyEnds(log: seq<Msg>, b: Consumer.State, step: Consumer.Step, h: nat)
    requires Consumer.PhaseInv(b) && Consumer.Enabled(log, b, step)
    requires BothEnded(Consumer.Apply(log, b, step), h) && !BothEnded(b, h)
    ensures var c := Consumer.Apply(log, b, step);
            Working(b) && c.phase.Dispatched? && !Working(c) && h == b.phase.h == c.phase.h
  {
  }

  lemma {:induction false} StayDone(b: Consumer.State, c: Consumer.State, o: nat)
    requires Grows(b, c) && Done(b, o)
    ensures Done(c, o)
  {
    var h :| 0 <= h < |b.numbered| && DoneBy(b, o, h);
    assert DoneBy(c, o, h);
  }

  /** The only delivery that can finish in a step is the last, when its handling's second task ends. */
  lemma {:induction false} TrackFinishes(log: seq<Msg>, b: Consumer.State, step: Consumer.Step, ds: seq<Delivery>,
                                         k: nat)
    requires Consumer.Enabled(log, b, step) && LastInv(b, ds)
    requires k < |Track(ds, b, step)| && Track(ds, b, step)[k].fate == Finished
    ensures var c, d := Consumer.Apply(log, b, step), Track(ds, b, step)[k];
            || (k < |ds| && d == ds[k])
            || (c.phase.Dispatched? && !Working(c) && k == |Track(ds, b, step)| - 1)
  {
  }

  lemma {:induction false} KeepsFinished(log: seq<Msg>, b: Consumer.State, step: Consumer.Step, ds: seq<Delivery>)
    requires Consumer.Enabled(log, b, step) && Consumer.PhaseInv(b) && LastInv(b, ds) && FinishedInv(b, ds)
    requires Continues(ds, Track(ds, b, step)) && LastInv(Consumer.Apply(log, b, step), Track(ds, b, step))
    ensures FinishedInv(Consumer.Apply(log, b, step), Track(ds, b, step))
  {
    var c, es := Consumer.Apply(log, b, step), Track(ds, b, step);
    ApplyGrows(log, b, step);
    Consumer.KeepsPhase(log, b, step);
    forall h | 0 <= h < |c.numbered| && BothEnded(c, h)
      ensures Ended(es, c.numbered[h].offset, Finished)
    {
      if BothEnded(b, h) {
        StayEnded(ds, es, b.numbered[h].offset, Finished);
      } else {
        ApplyEnds(log, b, step, h);
      }
    }
    forall k | 0 <= k < |es| && es[k].fate == Finished
      ensures Done(c, es[k].offset)
    {
      TrackFinishes(log, b, step, ds, k);
      if k < |ds| && es[k] == ds[k] {
        StayDone(b, c, ds[k].offset);
      } else {
        assert DoneBy(c, es[k].offset, c.phase.h);
      }
    }
  }

  lemma {:induction false} KeepsSaved(log: seq<Msg>, b: Consumer.State, step: Consumer.Step, ds: seq<Delivery>)
    requires Consumer.Enabled(log, b, step) && Consumer.PhaseInv(b) && LastInv(b, ds) && SavedInv(b, ds)
    requires LastInv(Consumer.Apply(log, b, step), Track(ds, b, step))
    ensures SavedInv(Consumer.Apply(log, b, step), Track(ds, b, step))
  {
    var c, es := Consumer.Apply(log, b, step), Track(ds, b, step);
    ApplyGrows(log, b, step);
    forall k | 0 <= k < |es| && es[k].fate == Finished && !es[k].saveFailed
      ensures es[k].offset in c.stored
    {
      TrackFinishes(log, b, step, ds, k);
    }
  }

  lemma {:induction false} RunTracks(nodes: nat, steps: seq<Step>)
    ensures TrackInv(Run(nodes, steps).back, Deliveries(nodes, steps))
  {
    if steps != [] {
      var init, last := steps[..|steps| - 1], steps[|steps| - 1];
      var s := Run(nodes, init);
      RunTracks(nodes, init);
      RunInv(nodes, init);
      if last.Consume? && Allowed(s, last) && Consumer.Enabled(Topic(s), s.back, last.consume) {
        KeepsTrack(Topic(s), s.back, last.consume, Deliveries(nodes, init));
      }
    }
  }

  lemma {:induction false} KeepsTrack(log: seq<Msg>, b: Consumer.State, step: Consumer.Step, ds: seq<Delivery>)
    requires Consumer.Enabled(log, b, step) && Consumer.PhaseInv(b) && TrackInv(b, ds)
    ensures TrackInv(Consumer.Apply(log, b, step), Track(ds, b, step))
  {
    TrackContinues(log, b, step, ds);
    TrackSettles(log, b, step, ds);
    TrackLast(log, b, step, ds);
    KeepsFinished(log, b, step, ds);
    KeepsSaved(log, b, step, ds);
    KeepsPassed(log, b, step, ds);
  }

  // ---- What holds of every run ----

  /** A record was handled to the end if and only if one of its deliveries finished; so a record whose
      every delivery was skipped never was. */
  lemma {:induction false} DoneIffFinished(nodes: nat, steps: seq<Step>, o: nat)
    ensures Done(Run(nodes, steps).back, o) <==> Ended(Deliveries(nodes, steps), o, Finished)
    ensures (forall k :: 0 <= k < |Deliveries(nodes, steps)| && Deliveries(nodes, steps)[k].offset == o ==>
                           Deliveries(nodes, steps)[k].fate == Skipped) ==> !Done(Run(nodes, steps).back, o)
  {
    RunTracks(nodes, steps);
    var b, ds := Run(nodes, steps).back, Deliveries(nodes, steps);
    if Done(b, o) {
      var h :| 0 <= h < |b.numbered| && DoneBy(b, o, h);
      assert Ended(ds, b.numbered[h].offset, Finished);
    }
  }

  ghost predicate HasRow(s: State, o: nat)
    requires o < |Topic(s)|
  {
    Store.Holds(s.back.rows, Topic(s)[o])
  }

  ghost predicate Unsaved(ds: seq<Delivery>, o: nat) {
    exists k :: 0 <= k < |ds| && ds[k].offset == o && ds[k].fate == Finished && ds[k].saveFailed
  }

  /** Whatever happened to other records: a committed record was handled to the end, or one of its own
      deliveries was skipped. */
  lemma {:induction false} CommittedIsDoneOrSkipped(nodes: nat, steps: seq<Step>, o: nat)
    requires o < Run(nodes, steps).back.committed
    ensures o < |Topic(Run(nodes, steps))|
    ensures Done(Run(nodes, steps).back, o) || Ended(Deliveries(nodes, steps), o, Skipped)
  {
    RunInv(nodes, steps);
    RunTracks(nodes, steps);
    DoneIffFinished(nodes, steps, o);
    assert Passed(Deliveries(nodes, steps), o);
  }

  /** A record's key is in the table if and only if an insert of it ran, and then with the record's own
      row. For a committed record that is so unless a delivery of it was skipped, or finished with an
      error from the save. */
  lemma {:induction false} CommittedRecordsAreInTheTable(nodes: nat, steps: seq<Step>, o: nat)
    requires o < Run(nodes, steps).back.committed
    ensures var s, ds := Run(nodes, steps), Deliveries(nodes, steps);
            && o < |Topic(s)|
            && (HasRow(s, o) <==> Store.KeyOf(Topic(s)[o]) in s.back.rows)
            && (HasRow(s, o) <==> o in s.back.stored)
            && (HasRow(s, o) || Ended(ds, o, Skipped) || Unsaved(ds, o))
            && (!HasRow(s, o) ==>
                  forall k :: 0 <= k < |ds| && ds[k].offset == o && ds[k].fate == Finished ==> ds[k].saveFailed)
  {
    RunInv(nodes, steps);
    RunTracks(nodes, steps);
    CommittedIsDoneOrSkipped(nodes, steps, o);
    DoneIffFinished(nodes, steps, o);
    var s, ds := Run(nodes, steps), Deliveries(nodes, steps);
    FreshIdsMakeKeysDistinct(s);
    RowIffStored(s, o);
    if Ended(ds, o, Finished) {
      var k :| 0 <= k < |ds| && ds[k].offset == o && ds[k].fate == Finished;
      assert ds[k].saveFailed || o in s.back.stored;
    }
  }

  lemma {:induction false} RowIffStored(s: State, o: nat)
    requires Inv(s) && Store.DistinctKeys(Topic(s)) && o < |Topic(s)|
    ensures HasRow(s, o) <==> o in s.back.stored
    ensures HasRow(s, o) <==> Store.KeyOf(Topic(s)[o]) in s.back.rows
  {
    if Store.KeyOf(Topic(s)[o]) in s.back.rows {
      assert Store.KeyOf(Topic(s)[o]) in Store.Keys(Topic(s), s.back.stored);
    }
  }
}
