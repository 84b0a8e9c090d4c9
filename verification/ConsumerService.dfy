/** The consumer service as the code runs it (sandcat_prectice/consumer/src/main.rs). Whatever its
    calls answer, what it does is a run of the consumer machine, so everything proved about the
    machine's runs holds of the service. */
module ConsumerService {
  import opened Wrappers
  import opened Messages
  import Cache
  import Store
  import Fanout
  import opened Consumer

  /** What happens while a handling waits for its two tasks, in any order: the save and the push go on,
      and so do pushes of earlier handlings. */
  datatype Event =
    | SaveRuns                 // the database runs the insert
    | SaveEnds(answered: bool) // the save task ends, having got an answer or logged an error
    | PushStarts(targets: set<nat>)
    | PushGoesOn(h: nat, step: Fanout.Step)
    | PushEnds(answered: bool)

  /** What happens to one handling. A task that does not end among the `events` dies. `arrived` are
      records that reach the topic before the delivery. */
  datatype Io = Io(arrived: seq<Msg>, counter: Cache.Fate, events: seq<Event>, commitTaken: bool)

  /** The save and the push, as far as the loop sees them. */
  datatype Tasks = Tasks(ran: bool, saveEnded: bool, pushEnded: bool)
  {
    function After(e: Event): Tasks {
      match e
      case SaveRuns => this.(ran := ran || !saveEnded)
      case SaveEnds(_) => this.(saveEnded := true)
      case PushEnds(_) => this.(pushEnded := true)
      case _ => this
    }

    predicate Over() {
      saveEnded && pushEnded
    }
  }

  const Spawned := Tasks(false, false, false)

  function TasksAfter(events: seq<Event>): Tasks {
    if events == [] then Spawned else TasksAfter(events[..|events| - 1]).After(events[|events| - 1])
  }

  /** The save runs unless its task had ended; a task has ended once its end is among the events. */
  lemma {:induction false} TasksAre(events: seq<Event>)
    ensures var t := TasksAfter(events);
            && (t.saveEnded <==> exists i :: 0 <= i < |events| && events[i].SaveEnds?)
            && (t.pushEnded <==> exists i :: 0 <= i < |events| && events[i].PushEnds?)
            && (t.ran <==> exists i :: 0 <= i < |events| && events[i] == SaveRuns && SaveGoesOn(events, i))
  {
    if events != [] {
      var init := events[..|events| - 1];
      TasksAre(init);
      assert forall i :: 0 <= i < |init| ==> events[i] == init[i];
      assert forall i :: 0 <= i < |init| ==> (SaveGoesOn(events, i) <==> SaveGoesOn(init, i));
      assert events[|init|] == SaveRuns ==> (SaveGoesOn(events, |init|) <==> !TasksAfter(init).saveEnded);
    }
  }

  lemma {:induction false} RowsAfter(rows: Store.Table, m: Msg, number: int, events: seq<Event>)
    ensures var after := if TasksAfter(events).ran then Store.Insert(rows, m.(number := number)) else rows;
            var key := Store.Key(m.sendId, m.serverId, m.sendTime);
            var runs := exists i :: && 0 <= i < |events| && events[i] == SaveRuns
                                    && forall j :: 0 <= j < i ==> !events[j].SaveEnds?;
            && (forall k :: k != key ==> (k in after <==> k in rows) && (k in after ==> after[k] == rows[k]))
            && (key in rows || !runs ==> after == rows)
            && (key !in rows && runs ==> Store.Holds(after, m))
  {
    TasksAre(events);
    assert forall i :: 0 <= i < |events| ==>
                         (SaveGoesOn(events, i) <==> forall j :: 0 <= j < i ==> !events[j].SaveEnds?);
    Store.InsertAddsRow(rows, m.(number := number));
  }

  /** The save task has not ended before the i-th event. */
  ghost predicate SaveGoesOn(events: seq<Event>, i: nat)
    requires i <= |events|
  {
    forall j :: 0 <= j < i ==> !events[j].SaveEnds?
  }

  /** The machine's steps of one event. A task makes no step after its end. A push is answered only once
      every fan-out task was drained and fails otherwise, so of its two last steps exactly one happens. */
  function EventScript(h: nat, tasks: Tasks, e: Event): seq<Step> {
    match e
    case SaveRuns => if tasks.saveEnded then [] else [StoreRow(h)]
    case SaveEnds(answered) =>
      if tasks.saveEnded then [] else [if tasks.ran && answered then SaveSucceeds else SaveFails]
    case PushStarts(targets) => [StartPush(h, targets)]
    case PushGoesOn(g, step) => [Fan(g, step)]
    case PushEnds(answered) =>
      if tasks.pushEnded then [] else if answered then [PushReturns, PushFails] else [PushFails]
  }

  function EventsScript(h: nat, events: seq<Event>): seq<Step> {
    if events == [] then []
    else
      var init := events[..|events| - 1];
      EventsScript(h, init) + EventScript(h, TasksAfter(init), events[|events| - 1])
  }

  lemma {:induction false} EventsOn(h: nat, events: seq<Event>, k: nat)
    requires k < |events|
    ensures TasksAfter(events[..k + 1]) == TasksAfter(events[..k]).After(events[k])
    ensures EventsScript(h, events[..k + 1]) ==
            EventsScript(h, events[..k]) + EventScript(h, TasksAfter(events[..k]), events[k])
  {
    assert events[..k + 1][..k] == events[..k];
  }

  function TasksScript(h: nat, io: Io): seq<Step> {
    EventsScript(h, io.events) + [if TasksAfter(io.events).Over() then Join else JoinFails]
  }

  /** The steps of one handling, from the delivery on; `h` is the handling's place and `bump` says
      whether the receiver's counter has room. */
  function HandleScript(h: nat, bump: bool, io: Io): seq<Step> {
    if !Numbers(bump, io) then [NumberFails(io.counter != Cache.Unreached && bump)]
    else [Number] + TasksScript(h, io)
  }

  predicate Numbers(bump: bool, io: Io) {
    io.counter.Replied? && bump
  }

  /** The increment was answered and neither task died. */
  predicate Handled(bump: bool, io: Io) {
    Numbers(bump, io) && TasksAfter(io.events).Over()
  }

  /** What can be seen of the service between two turns. */
  datatype Moment = Moment(topic: seq<Msg>, position: nat, counters: Cache.Counters, calls: seq<Msg>, commits: set<nat>)

  /** The record at the position was dealt with. */
  ghost predicate Delivered(a: Moment, io: Io, b: Moment) {
    && a.position < |a.topic| && b.topic == a.topic && b.position == a.position + 1
    && Counted(a.topic[a.position], io, a.counters, a.calls, b.counters, b.calls)
    && b.commits == a.commits + if Commits(a.topic[a.position], io, a.counters) then {a.position + 1} else {}
  }

  /** The receiver's counter went up if the increment ran; if it was answered, the message was pushed under
      its new number. */
  ghost predicate Counted(m: Msg, io: Io, before: Cache.Counters, calls: seq<Msg>, after: Cache.Counters,
                          more: seq<Msg>)
  {
    var count := Cache.CounterOf(before, m.receiverId);
    && (forall u :: Cache.CounterOf(after, u) == Cache.CounterOf(before, u) +
                    if u == m.receiverId && !io.counter.Unreached? && count < Cache.I64_MAX then 1 else 0)
    && more == calls + if io.counter.Replied? && count < Cache.I64_MAX then [m.(number := count + 1)] else []
  }

  ghost predicate Commits(m: Msg, io: Io, counters: Cache.Counters) {
    && io.counter.Replied? && Cache.CounterOf(counters, m.receiverId) < Cache.I64_MAX && io.commitTaken
    && (exists i :: 0 <= i < |io.events| && io.events[i].SaveEnds?)
    && (exists i :: 0 <= i < |io.events| && io.events[i].PushEnds?)
  }

  ghost predicate TurnDone(a: Moment, io: Io, b: Moment) {
    && b.topic == a.topic + io.arrived
    && if a.position < |b.topic| then Delivered(a.(topic := b.topic), io, b) else b == a.(topic := b.topic)
  }

  /** The turns so far, one after the other from `start` on, each doing what a turn does. */
  ghost predicate Told(turn: (Moment, Io, Moment) -> bool, ios: seq<Io>, start: Moment, now: Moment,
                       history: seq<Moment>, after: seq<Moment>)
  {
    && |history| == |after| == |ios| && [start] + after == history + [now]
    && forall k :: 0 <= k < |ios| ==> turn(history[k], ios[k], after[k])
  }

  /** The steps of the turns so far, and the service before and after each. */
  datatype Tale = Tale(done: seq<Step>, history: seq<Moment>, after: seq<Moment>)

  lemma {:induction false} ToldOn(turn: (Moment, Io, Moment) -> bool, ios: seq<Io>, io: Io, start: Moment, now: Moment,
                                  next: Moment, history: seq<Moment>, after: seq<Moment>)
    requires Told(turn, ios, start, now, history, after) && turn(now, io, next)
    ensures Told(turn, ios + [io], start, next, history + [now], after + [next])
  {
    assert [start] + (after + [next]) == ([start] + after) + [next];
  }

  lemma {:induction false} TurnsMean(ios: seq<Io>, history: seq<Moment>, after: seq<Moment>)
    requires |history| == |after| == |ios|
    requires forall k :: 0 <= k < |ios| ==> TurnDone(history[k], ios[k], after[k])
    ensures forall k :: 0 <= k < |ios| ==>
                          && after[k].topic == history[k].topic + ios[k].arrived
                          && after[k].position ==
                             history[k].position + if history[k].position < |after[k].topic| then 1 else 0
    ensures forall k :: && 0 <= k < |ios| && history[k].position < |after[k].topic|
                        && ios[k].counter.Replied? && ios[k].commitTaken
                        && Cache.CounterOf(history[k].counters, after[k].topic[history[k].position].receiverId)
                           < 0x7FFF_FFFF_FFFF_FFFF
                        && (exists i :: 0 <= i < |ios[k].events| && ios[k].events[i].SaveEnds?)
                        && (exists i :: 0 <= i < |ios[k].events| && ios[k].events[i].PushEnds?) ==>
                          after[k].commits == history[k].commits + {history[k].position + 1}
    ensures forall k :: 0 <= k < |ios| && after[k].commits != history[k].commits ==>
                          && history[k].position < |after[k].topic|
                          && ios[k].counter.Replied? && ios[k].commitTaken
                          && Cache.CounterOf(history[k].counters, after[k].topic[history[k].position].receiverId)
                             < 0x7FFF_FFFF_FFFF_FFFF
                          && (exists i :: 0 <= i < |ios[k].events| && ios[k].events[i].SaveEnds?)
                          && (exists i :: 0 <= i < |ios[k].events| && ios[k].events[i].PushEnds?)
    ensures forall k :: && 0 <= k < |ios| && history[k].position < |after[k].topic|
                        && ios[k].counter.Replied?
                        && Cache.CounterOf(history[k].counters, after[k].topic[history[k].position].receiverId)
                           < 0x7FFF_FFFF_FFFF_FFFF ==>
                          var m := after[k].topic[history[k].position];
                          var number := Cache.CounterOf(history[k].counters, m.receiverId) + 1;
                          && Cache.CounterOf(after[k].counters, m.receiverId) == number
                          && after[k].calls == history[k].calls + [m.(number := number)]
  {
  }

  /** The pusher as the consumer sees it: the messages it was called with. */
  class PushClient {
    var calls: seq<Msg>

    constructor ()
      ensures calls == []
    {
      calls := [];
    }

    method PushSingleMsg(msg: Msg)
      modifies this
      ensures calls == old(calls) + [msg]
    {
      calls := calls + [msg];
    }
  }

  class ConsumerService {
    const pusher: PushClient
    const cache: Cache.RedisCache
    const db: Store.PostgresMessage
    var topic: seq<Msg>
    var position: nat
    var commits: set<nat> // handed to the client library
    ghost var trace: seq<Step>

    ghost function View(): State
      reads this
    {
      Play(topic, Init, trace)
    }

    ghost predicate Valid()
      reads this, cache, db
    {
      && View().position == position && View().commits == commits
      && View().counters == cache.counters && View().rows == db.rows
      && PushesInv(View()) && Timely(topic, trace)
    }

    ghost function Now(): Moment
      reads this, cache, pusher
    {
      Moment(topic, position, cache.counters, pusher.calls, commits)
    }

    constructor (topic: seq<Msg>, cache: Cache.RedisCache, db: Store.PostgresMessage, pusher: PushClient)
      requires cache.counters == map[] && db.rows == map[]
      ensures Valid() && trace == [] && this.topic == topic && position == 0 && commits == {}
      ensures this.cache == cache && this.db == db && this.pusher == pusher
    {
      this.topic, this.cache, this.db, this.pusher := topic, cache, db, pusher;
      position, commits := 0, {};
      trace := [];
    }

    ghost method Tick(step: Step)
      requires step.Receive? ==> Enabled(topic, View(), step)
      modifies `trace
      ensures trace == old(trace) + [step] && View() == Next(topic, old(View()), step)
      ensures old(PushesInv(View())) ==> PushesInv(View())
      ensures old(Timely(topic, trace)) ==> Timely(topic, trace)
    {
      if PushesInv(View()) {
        NextRemembers(topic, View(), step);
      }
      trace := trace + [step];
      assert trace[..|trace| - 1] == old(trace);
    }

    /** Others append to the topic at any time; what was done so far stays what it was. */
    method Append(ms: seq<Msg>)
      requires Valid()
      modifies `topic
      ensures Valid() && topic == old(topic) + ms && View() == old(View())
    {
      PlayGrows(topic, topic + ms, trace);
      topic := topic + ms;
    }

    /** Number the message for its receiver, save and push it, await both. A failed save or push is
        only logged; a failed increment or a dead task is an error. */
    method HandleMsg(offset: nat, io: Io) returns (r: Result<()>)
      requires Valid() && offset < |topic| && View().phase == Received(offset)
      modifies `trace, cache, db, pusher
      ensures Valid()
      ensures var bump := Cache.CanBump(old(cache.counters), topic[offset].receiverId);
              && trace == old(trace) + HandleScript(|old(View()).numbered|, bump, io)
              && (r.Ok? <==> Handled(bump, io))
      ensures var m := topic[offset];
              var before := Cache.CounterOf(old(cache.counters), m.receiverId);
              var room := before < 0x7FFF_FFFF_FFFF_FFFF;
              && (r.Ok? <==>
                    && io.counter.Replied? && room
                    && (exists i :: 0 <= i < |io.events| && io.events[i].SaveEnds?)
                    && (exists i :: 0 <= i < |io.events| && io.events[i].PushEnds?))
              && Cache.CounterOf(cache.counters, m.receiverId) ==
                 before + (if io.counter.Unreached? || !room then 0 else 1)
              && pusher.calls == old(pusher.calls) +
                                 if io.counter.Replied? && room then [m.(number := before + 1)] else []
      ensures forall u :: u != topic[offset].receiverId ==>
                            Cache.CounterOf(cache.counters, u) == Cache.CounterOf(old(cache.counters), u)
      ensures Counted(topic[offset], io, old(cache.counters), old(pusher.calls), cache.counters, pusher.calls)
      ensures var m := topic[offset];
              var key := Store.Key(m.sendId, m.serverId, m.sendTime);
              var runs := && io.counter.Replied?
                          && Cache.CounterOf(old(cache.counters), m.receiverId) < 0x7FFF_FFFF_FFFF_FFFF
                          && exists i :: && 0 <= i < |io.events| && io.events[i] == SaveRuns
                                         && forall j :: 0 <= j < i ==> !io.events[j].SaveEnds?;
              && (forall k :: k != key ==>
                                && (k in db.rows <==> k in old(db.rows))
                                && (k in db.rows ==> db.rows[k] == old(db.rows)[k]))
              && (key in old(db.rows) || !runs ==> db.rows == old(db.rows))
              && (key !in old(db.rows) && runs ==> Store.Holds(db.rows, m))
      ensures r.Err? ==> View().phase == Ready
      ensures r.Ok? ==>
                && View().phase.Joined? && View().phase.h < |View().numbered|
                && View().numbered[View().phase.h].offset == offset
    {
      ghost var h, before := |View().numbered|, trace;
      TasksAre(io.events);
      var seqNo := IncreaseSeq(offset, io);
      if seqNo.Err? {
        return Err(seqNo.error);
      }
      RowsAfter(db.rows, topic[offset], seqNo.value, io.events);
      var joined := Dispatch(topic[offset].(number := seqNo.value), h, io);
      Rebracket(trace, before, [Number], TasksScript(h, io));
      r := if joined then Ok(()) else Err("a dispatch task died");
    }

    /** Hand the message to the pusher and to the store, and await both. */
    method Dispatch(msg: Msg, ghost h: nat, io: Io) returns (joined: bool)
      requires Valid() && View().phase == Dispatched(h, false, false) && Carries(msg, h)
      modifies `trace, db, pusher
      ensures Valid() && View().numbered == old(View()).numbered
      ensures joined <==> TasksAfter(io.events).Over()
      ensures View().phase == if joined then Joined(h) else Ready
      ensures db.rows == if TasksAfter(io.events).ran then Store.Insert(old(db.rows), msg) else old(db.rows)
      ensures pusher.calls == old(pusher.calls) + [msg]
      ensures trace == old(trace) + TasksScript(h, io)
    {
      pusher.PushSingleMsg(msg);
      joined := AwaitBoth(msg, h, io);
    }

    /** Both tasks run side by side until each has ended or died. */
    method AwaitBoth(msg: Msg, ghost h: nat, io: Io) returns (joined: bool)
      requires Valid() && View().phase == Dispatched(h, false, false) && Carries(msg, h)
      modifies `trace, db
      ensures Valid() && View().numbered == old(View()).numbered
      ensures joined <==> TasksAfter(io.events).Over()
      ensures View().phase == if joined then Joined(h) else Ready
      ensures db.rows == if TasksAfter(io.events).ran then Store.Insert(old(db.rows), msg) else old(db.rows)
      ensures trace == old(trace) + TasksScript(h, io)
    {
      ghost var before := trace;
      var tasks := RunTasks(msg, h, io.events);
      joined := JoinTasks(h, tasks);
      Rebracket(trace, before, EventsScript(h, io.events), [if joined then Join else JoinFails]);
    }

    method JoinTasks(ghost h: nat, tasks: Tasks) returns (joined: bool)
      requires Valid() && View().phase == Dispatched(h, tasks.saveEnded, tasks.pushEnded)
      modifies `trace
      ensures Valid() && View().numbered == old(View()).numbered
      ensures joined == tasks.Over() && View().phase == if joined then Joined(h) else Ready
      ensures trace == old(trace) + [if joined then Join else JoinFails]
    {
      joined := tasks.Over();
      if joined {
        Tick(Join);
      } else {
        Tick(JoinFails);
      }
    }

    /** The handling's message, under its number. */
    ghost predicate Carries(msg: Msg, h: nat)
      reads this
    {
      && h < |View().numbered| && View().numbered[h].offset < |topic|
      && msg == topic[View().numbered[h].offset].(number := View().numbered[h].number)
    }

    method RunTasks(msg: Msg, ghost h: nat, events: seq<Event>) returns (tasks: Tasks)
      requires Valid() && View().phase == Dispatched(h, false, false) && Carries(msg, h)
      modifies `trace, db
      ensures Valid() && View().numbered == old(View()).numbered
      ensures tasks == TasksAfter(events) && View().phase == Dispatched(h, tasks.saveEnded, tasks.pushEnded)
      ensures db.rows == if tasks.ran then Store.Insert(old(db.rows), msg) else old(db.rows)
      ensures trace == old(trace) + EventsScript(h, events)
    {
      tasks := Spawned;
      ghost var before, ns, rows := trace, View().numbered, db.rows;
      for k := 0 to |events|
        invariant Running(msg, h, events[..k], tasks, before, ns, rows)
      {
        EventsOn(h, events, k);
        assert events[..k + 1] == events[..k] + [events[k]];
        NextEvent(msg, h, events[..k], tasks, events[k], before, ns, rows);
        tasks := tasks.After(events[k]);
      }
      assert events[..|events|] == events;
    }

    /** After these events. */
    ghost predicate Running(msg: Msg, h: nat, events: seq<Event>, tasks: Tasks, before: seq<Step>,
                            ns: seq<Numbering>, rows: Store.Table)
      reads this, cache, db
    {
      && Valid() && Carries(msg, h) && View().numbered == ns && tasks == TasksAfter(events)
      && View().phase == Dispatched(h, tasks.saveEnded, tasks.pushEnded)
      && (tasks.ran ==> View().numbered[h].offset in View().stored)
      && db.rows == (if tasks.ran then Store.Insert(rows, msg) else rows)
      && trace == before + EventsScript(h, events)
    }

    method NextEvent(msg: Msg, ghost h: nat, ghost events: seq<Event>, tasks: Tasks, e: Event, ghost before: seq<Step>,
                     ghost ns: seq<Numbering>, ghost rows: Store.Table)
      requires Running(msg, h, events, tasks, before, ns, rows)
      requires TasksAfter(events + [e]) == tasks.After(e)
      requires EventsScript(h, events + [e]) == EventsScript(h, events) + EventScript(h, tasks, e)
      modifies `trace, db
      ensures Running(msg, h, events + [e], tasks.After(e), before, ns, rows)
    {
      Rebracket(trace + EventScript(h, tasks, e), before, EventsScript(h, events), EventScript(h, tasks, e));
      Happens(msg, h, tasks, e);
    }

    method Happens(msg: Msg, ghost h: nat, tasks: Tasks, e: Event)
      requires Valid() && Carries(msg, h) && View().phase == Dispatched(h, tasks.saveEnded, tasks.pushEnded)
      requires tasks.ran ==> View().numbered[h].offset in View().stored
      modifies `trace, db
      ensures Valid() && View().numbered == old(View()).numbered
      ensures var after := tasks.After(e);
              && View().phase == Dispatched(h, after.saveEnded, after.pushEnded)
              && (after.ran ==> View().numbered[h].offset in View().stored)
      ensures db.rows == if e.SaveRuns? && !tasks.saveEnded then Store.Insert(old(db.rows), msg) else old(db.rows)
      ensures trace == old(trace) + EventScript(h, tasks, e)
    {
      match e {
        case SaveRuns =>
          SaveMessage(msg, h, tasks);
        case SaveEnds(answered) =>
          EndSave(h, tasks, answered);
        case PushStarts(targets) =>
          Tick(StartPush(h, targets));
        case PushGoesOn(g, step) =>
          Tick(Fan(g, step));
        case PushEnds(answered) =>
          EndPush(h, tasks, answered);
      }
    }

    method SaveMessage(msg: Msg, ghost h: nat, tasks: Tasks)
      requires Valid() && Carries(msg, h)
      modifies `trace, db
      ensures Valid() && View().phase == old(View()).phase && View().numbered == old(View()).numbered
      ensures old(View()).stored <= View().stored && (!tasks.saveEnded ==> View().numbered[h].offset in View().stored)
      ensures db.rows == if tasks.saveEnded then old(db.rows) else Store.Insert(old(db.rows), msg)
      ensures trace == old(trace) + EventScript(h, tasks, SaveRuns)
    {
      if !tasks.saveEnded {
        var saved := db.SaveMessage(msg, true, true);
        Tick(StoreRow(h));
      } else {
        assert trace == trace + [];
      }
    }

    ghost method EndSave(h: nat, tasks: Tasks, answered: bool)
      requires Valid() && View().phase == Dispatched(h, tasks.saveEnded, tasks.pushEnded) && h < |View().numbered|
      requires tasks.ran ==> View().numbered[h].offset in View().stored
      modifies `trace
      ensures Valid() && View().phase == Dispatched(h, true, tasks.pushEnded)
      ensures View().numbered == old(View()).numbered && View().stored == old(View()).stored
      ensures trace == old(trace) + EventScript(h, tasks, SaveEnds(answered))
    {
      if tasks.saveEnded {
        assert trace == trace + [];
      } else {
        Tick(if tasks.ran && answered then SaveSucceeds else SaveFails);
      }
    }

    ghost method EndPush(h: nat, tasks: Tasks, answered: bool)
      requires Valid() && View().phase == Dispatched(h, tasks.saveEnded, tasks.pushEnded)
      modifies `trace
      ensures Valid() && View().phase == Dispatched(h, tasks.saveEnded, true)
      ensures View().numbered == old(View()).numbered && View().stored == old(View()).stored
      ensures trace == old(trace) + EventScript(h, tasks, PushEnds(answered))
    {
      if tasks.pushEnded {
        assert trace == trace + [];
        return;
      }
      if answered {
        AnswerPush(h, tasks);
      }
      FailPush(h, tasks);
    }

    ghost method FailPush(h: nat, tasks: Tasks)
      requires Valid()
      requires View().phase == Dispatched(h, tasks.saveEnded, true)
               || View().phase == Dispatched(h, tasks.saveEnded, false)
      modifies `trace
      ensures Valid() && View().phase == Dispatched(h, tasks.saveEnded, true)
      ensures View().numbered == old(View()).numbered && View().stored == old(View()).stored
      ensures trace == old(trace) + [PushFails]
    {
      Tick(PushFails);
    }

    ghost method AnswerPush(h: nat, tasks: Tasks)
      requires Valid() && View().phase == Dispatched(h, tasks.saveEnded, false)
      modifies `trace
      ensures Valid() && View().numbered == old(View()).numbered && View().stored == old(View()).stored
      ensures View().phase == Dispatched(h, tasks.saveEnded, true)
              || View().phase == Dispatched(h, tasks.saveEnded, false)
      ensures trace == old(trace) + [PushReturns]
    {
      Tick(PushReturns);
    }

    method IncreaseSeq(offset: nat, io: Io) returns (r: Result<int>)
      requires Valid() && offset < |topic| && View().phase == Received(offset)
      modifies `trace, cache
      ensures Valid()
      ensures var bump := Cache.CanBump(old(cache.counters), topic[offset].receiverId);
              && (r.Ok? <==> Numbers(bump, io))
              && trace == old(trace) + if r.Ok? then [Number] else [NumberFails(io.counter != Cache.Unreached && bump)]
      ensures var user := topic[offset].receiverId;
              var count := Cache.CounterOf(old(cache.counters), user);
              && (forall u :: Cache.CounterOf(cache.counters, u) == Cache.CounterOf(old(cache.counters), u) +
                              if u == user && !io.counter.Unreached? && count < Cache.I64_MAX then 1 else 0)
              && (r.Ok? <==> io.counter.Replied? && count < Cache.I64_MAX)
              && (r.Ok? ==> r.value == count + 1)
      ensures r.Err? ==> View().phase == Ready
      ensures r.Ok? ==> View().phase == Dispatched(|old(View()).numbered|, false, false)
                        && View().numbered ==
                           old(View()).numbered + [Numbering(offset, topic[offset].receiverId, r.value, View().life)]
    {
      ghost var applied := io.counter != Cache.Unreached && Cache.CanBump(cache.counters, topic[offset].receiverId);
      r := cache.IncreaseSeq(topic[offset].receiverId, io.counter);
      ghost var step := if r.Ok? then Number else NumberFails(applied);
      assert Enabled(topic, View(), step);
      Tick(step);
    }

    /** The receive loop over as many turns as `ios` describes, while the topic grows; `history` and `after`
        show the service before and after each turn. A turn delivers the next record if there is one. The
        offset after it is handed over as a commit exactly if the increment was answered, both tasks ended
        and the library took the commit; a failed message is skipped. */
    method Consume(ios: seq<Io>) returns (ghost history: seq<Moment>, ghost after: seq<Moment>)
      requires Valid() && View().phase == Ready
      modifies this, cache, db, pusher
      ensures Valid() && View().phase == Ready
      ensures topic == old(topic) + Arrived(ios)
      ensures trace == old(trace) + LoopScript(old(topic), old(trace), ios)
      ensures |history| == |after| == |ios|
      ensures [old(Now())] + after == history + [Now()]
      ensures forall k :: 0 <= k < |ios| ==>
                            && after[k].topic == history[k].topic + ios[k].arrived
                            && after[k].position ==
                               history[k].position + if history[k].position < |after[k].topic| then 1 else 0
      ensures forall k :: && 0 <= k < |ios| && history[k].position < |after[k].topic|
                          && ios[k].counter.Replied? && ios[k].commitTaken
                          && Cache.CounterOf(history[k].counters, after[k].topic[history[k].position].receiverId)
                             < 0x7FFF_FFFF_FFFF_FFFF
                          && (exists i :: 0 <= i < |ios[k].events| && ios[k].events[i].SaveEnds?)
                          && (exists i :: 0 <= i < |ios[k].events| && ios[k].events[i].PushEnds?) ==>
                            after[k].commits == history[k].commits + {history[k].position + 1}
      ensures forall k :: 0 <= k < |ios| && after[k].commits != history[k].commits ==>
                            && history[k].position < |after[k].topic|
                            && ios[k].counter.Replied? && ios[k].commitTaken
                            && Cache.CounterOf(history[k].counters, after[k].topic[history[k].position].receiverId)
                               < 0x7FFF_FFFF_FFFF_FFFF
                            && (exists i :: 0 <= i < |ios[k].events| && ios[k].events[i].SaveEnds?)
                            && (exists i :: 0 <= i < |ios[k].events| && ios[k].events[i].PushEnds?)
      ensures forall k :: && 0 <= k < |ios| && history[k].position < |after[k].topic|
                          && ios[k].counter.Replied?
                          && Cache.CounterOf(history[k].counters, after[k].topic[history[k].position].receiverId)
                             < 0x7FFF_FFFF_FFFF_FFFF ==>
                            var m := after[k].topic[history[k].position];
                            var number := Cache.CounterOf(history[k].counters, m.receiverId) + 1;
                            && Cache.CounterOf(after[k].counters, m.receiverId) == number
                            && after[k].calls == history[k].calls + [m.(number := number)]
    {
      ghost var t := Turns(ios, (a, io, b) => TurnDone(a, io, b));
      history, after := t.history, t.after;
      TurnsMean(ios, history, after);
    }

    /** After the turns `ios`, which began at `start` with the steps `before`. */
    ghost predicate InLoop(turn: (Moment, Io, Moment) -> bool, ios: seq<Io>, start: Moment, before: seq<Step>, t: Tale)
      reads this, cache, db, pusher
    {
      && Valid() && View().phase == Ready && topic == start.topic + Arrived(ios)
      && t.done == LoopScript(start.topic, before, ios) && trace == before + t.done
      && Told(turn, ios, start, Now(), t.history, t.after)
    }

    method Turns(ios: seq<Io>, ghost turn: (Moment, Io, Moment) -> bool) returns (ghost t: Tale)
      requires Valid() && View().phase == Ready
      requires forall a, io, b :: TurnDone(a, io, b) ==> turn(a, io, b)
      modifies this, cache, db, pusher
      ensures InLoop(turn, ios, old(Now()), old(trace), t)
    {
      ghost var start, before := Now(), trace;
      t := Tale([], [], []);
      for k := 0 to |ios|
        invariant InLoop(turn, ios[..k], start, before, t)
      {
        assert ios[..k + 1] == ios[..k] + [ios[k]];
        t := OneTurn(turn, ios[..k], ios[k], start, before, t);
      }
      assert ios[..|ios|] == ios;
    }

    method OneTurn(ghost turn: (Moment, Io, Moment) -> bool, ghost ios: seq<Io>, io: Io, ghost start: Moment,
                   ghost before: seq<Step>, ghost t: Tale)
      returns (ghost next: Tale)
      requires InLoop(turn, ios, start, before, t)
      requires forall a, io, b :: TurnDone(a, io, b) ==> turn(a, io, b)
      modifies this, cache, db, pusher
      ensures InLoop(turn, ios + [io], start, before, next)
    {
      LoopOn(start.topic, before, ios, io);
      ghost var now := Now();
      ghost var done := Turn(io, before, t.done);
      ToldOn(turn, ios, io, start, now, Now(), t.history, t.after);
      next := Tale(done, t.history + [now], t.after + [Now()]);
    }

    method Turn(io: Io, ghost before: seq<Step>, ghost done: seq<Step>) returns (ghost script: seq<Step>)
      requires Valid() && View().phase == Ready && trace == before + done
      modifies this, cache, db, pusher
      ensures Valid() && View().phase == Ready && topic == old(topic) + io.arrived
      ensures TurnDone(old(Now()), io, Now())
      ensures script == done + TurnScript(topic, before + done, io)
      ensures trace == before + script
    {
      Append(io.arrived);
      ghost var more := TurnScript(topic, trace, io);
      if position < |topic| {
        Deliver(io);
      } else {
        assert trace == trace + more;
      }
      Rebracket(trace, before, done, more);
      script := done + more;
    }

    /** Whatever the service did, it is in a state the machine's theorems speak of. */
    lemma StateIsSound()
      requires Valid() && Store.DistinctKeys(topic)
      ensures Inv(topic, View())
    {
      InitInv();
      LogGrows([], topic, Init);
      PlayKeepsInv(topic, Init, trace);
    }

    method Deliver(io: Io)
      requires Valid() && View().phase == Ready && position < |topic|
      modifies this, cache, db, pusher
      ensures Valid() && View().phase == Ready && topic == old(topic)
      ensures Delivered(old(Now()), io, Now())
      ensures trace == old(trace) + DeliveryScript(topic, old(View()), io)
    {
      var offset := position;
      ghost var rest := AfterReceipt(|View().numbered|, Cache.CanBump(cache.counters, topic[offset].receiverId), io);
      ghost var before := trace;
      position := position + 1;
      Tick(Receive);
      HandleAndCommit(offset, io);
      Rebracket(trace, before, [Receive], rest);
    }

    method HandleAndCommit(offset: nat, io: Io)
      requires Valid() && offset < |topic| && View().phase == Received(offset)
      modifies `trace, `commits, cache, db, pusher
      ensures Valid() && View().phase == Ready
      ensures var bump := Cache.CanBump(old(cache.counters), topic[offset].receiverId);
              trace == old(trace) + AfterReceipt(|old(View()).numbered|, bump, io)
      ensures offset + 1 == position ==> Delivered(old(Now()).(position := offset), io, Now())
    {
      var handled := Handle(offset, io);
      if handled {
        CommitMessage(offset, io);
      }
    }

    /** A failed handling is only logged. */
    method Handle(offset: nat, io: Io) returns (handled: bool)
      requires Valid() && offset < |topic| && View().phase == Received(offset)
      modifies `trace, cache, db, pusher
      ensures Valid()
      ensures var bump := Cache.CanBump(old(cache.counters), topic[offset].receiverId);
              trace == old(trace) + HandleScript(|old(View()).numbered|, bump, io) && handled == Handled(bump, io)
      ensures handled && io.commitTaken <==> Commits(topic[offset], io, old(cache.counters))
      ensures Counted(topic[offset], io, old(cache.counters), old(pusher.calls), cache.counters, pusher.calls)
      ensures !handled ==> View().phase == Ready
      ensures handled ==>
                && View().phase.Joined? && View().phase.h < |View().numbered|
                && View().numbered[View().phase.h].offset == offset
    {
      var r := HandleMsg(offset, io);
      handled := r.Ok?;
    }

    method CommitMessage(offset: nat, io: Io)
      requires Valid() && View().phase.Joined? && View().phase.h < |View().numbered|
      requires View().numbered[View().phase.h].offset == offset
      modifies `trace, `commits
      ensures Valid() && View().phase == Ready
      ensures commits == old(commits) + if io.commitTaken then {offset + 1} else {}
      ensures trace == old(trace) + [if io.commitTaken then Commit else CommitFails]
    {
      if io.commitTaken {
        commits := commits + {offset + 1};
        Tick(Commit);
      } else {
        Tick(CommitFails);
      }
    }
  }

  /** A handled message is committed, a failed one is skipped. */
  function AfterReceipt(h: nat, bump: bool, io: Io): seq<Step> {
    HandleScript(h, bump, io) + if !Handled(bump, io) then [] else [if io.commitTaken then Commit else CommitFails]
  }

  /** The steps of one turn of the receive loop, from a state with a record to deliver. */
  function DeliveryScript(topic: seq<Msg>, b: State, io: Io): seq<Step>
    requires b.position < |topic|
  {
    [Receive] + AfterReceipt(|b.numbered|, Cache.CanBump(b.counters, topic[b.position].receiverId), io)
  }

  lemma Rebracket(all: seq<Step>, a: seq<Step>, b: seq<Step>, c: seq<Step>)
    requires all == a + b + c
    ensures all == a + (b + c)
  {
  }

  function Arrived(ios: seq<Io>): seq<Msg> {
    if ios == [] then [] else Arrived(ios[..|ios| - 1]) + ios[|ios| - 1].arrived
  }

  function TurnScript(topic: seq<Msg>, before: seq<Step>, io: Io): seq<Step> {
    var b := Play(topic, Init, before);
    if b.position < |topic| then DeliveryScript(topic, b, io) else []
  }

  /** The steps of the receive loop after `before`. */
  function LoopScript(topic: seq<Msg>, before: seq<Step>, ios: seq<Io>): seq<Step> {
    if ios == [] then []
    else
      var done := LoopScript(topic, before, ios[..|ios| - 1]);
      done + TurnScript(topic + Arrived(ios), before + done, ios[|ios| - 1])
  }

  /** One more turn. */
  lemma LoopOn(log: seq<Msg>, before: seq<Step>, ios: seq<Io>, io: Io)
    ensures log + Arrived(ios + [io]) == log + Arrived(ios) + io.arrived
    ensures var done := LoopScript(log, before, ios);
            LoopScript(log, before, ios + [io]) ==
            done + TurnScript(log + Arrived(ios) + io.arrived, before + done, io)
  {
    assert (ios + [io])[..|ios|] == ios;
    assert log + Arrived(ios + [io]) == log + Arrived(ios) + io.arrived;
  }
}
