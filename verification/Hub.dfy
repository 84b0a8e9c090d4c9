/** The connection hub of one websocket node: user -> platform -> client
    (sandcat_prectice/ws/src/manager.rs, sandcat_prectice/ws/src/ws_server.rs). Connections
    register when they open and unregister, by key, when they end; nothing stops two of them from
    having the same key. */
module Hub {
  import opened Wrappers

  type Table<C> = map<string, map<string, C>>

  function Register<C>(t: Table<C>, user: string, platform: string, client: C): Table<C> {
    var inner := if user in t then t[user] else map[];
    t[user := inner[platform := client]]
  }

  /** The inner map stays, even when it gets empty. */
  function Unregister<C>(t: Table<C>, user: string, platform: string): Table<C> {
    if user in t then t[user := t[user] - {platform}] else t
  }

  function Lookup<C>(t: Table<C>, user: string, platform: string): Option<C> {
    if user in t && platform in t[user] then Some(t[user][platform]) else None
  }

  /** Registering and unregistering change the lookup of one key only. */
  lemma {:induction false} LookupRegistered<C>(t: Table<C>, user: string, platform: string, client: C, u: string,
                                               p: string)
    ensures Lookup(Register(t, user, platform, client), u, p) ==
            if u == user && p == platform then Some(client) else Lookup(t, u, p)
  {
  }

  lemma {:induction false} LookupUnregistered<C>(t: Table<C>, user: string, platform: string, u: string, p: string)
    ensures Lookup(Unregister(t, user, platform), u, p) == if u == user && p == platform then None else Lookup(t, u, p)
  {
  }

  /** Opening and ending a connection leaves the hub as it was if and only if its key was free; if it
      was not, the client that held it is gone. */
  lemma {:induction false} TeardownRestoresIffKeyWasFree<C>(t: Table<C>, user: string, platform: string, client: C)
    ensures var r := Unregister(Register(t, user, platform, client), user, platform);
            && ((forall u, p :: Lookup(r, u, p) == Lookup(t, u, p)) <==> Lookup(t, user, platform) == None)
            && Lookup(r, user, platform) == None && user in r
  {
  }

  datatype Conn = Conn(user: string, platform: string, live: bool)

  datatype State = State(table: Table<nat>, conns: map<nat, Conn>)

  const Init := State(map[], map[])

  datatype Step = Open(c: nat, user: string, platform: string) | Close(c: nat)

  predicate Enabled(s: State, step: Step) {
    match step
    case Open(c, _, _) => c !in s.conns
    case Close(c) => c in s.conns && s.conns[c].live
  }

  function Apply(s: State, step: Step): State
    requires Enabled(s, step)
  {
    match step
    case Open(c, user, platform) =>
      State(Register(s.table, user, platform, c), s.conns[c := Conn(user, platform, true)])
    case Close(c) =>
      var conn := s.conns[c];
      State(Unregister(s.table, conn.user, conn.platform), s.conns[c := conn.(live := false)])
  }

  /** The run of a schedule: a step that is not enabled does not happen. */
  function Run(steps: seq<Step>): State {
    if steps == [] then Init else Next(Run(steps[..|steps| - 1]), steps[|steps| - 1])
  }

  function Next(s: State, step: Step): State {
    if Enabled(s, step) then Apply(s, step) else s
  }

  /** Every client in the hub is a connection that registered and has not unregistered, filed
      under its own ids. */
  ghost predicate Inv(s: State) {
    forall u, p :: u in s.table && p in s.table[u] ==>
                     var c := s.table[u][p];
                     c in s.conns && s.conns[c] == Conn(u, p, true)
  }

  lemma {:induction false} KeepsInv(s: State, step: Step)
    requires Inv(s)
    ensures Inv(Next(s, step))
    ensures forall c :: c in s.conns ==> c in Next(s, step).conns && Next(s, step).conns[c].user == s.conns[c].user
  {
  }

  lemma {:induction false} EntriesAreLive(steps: seq<Step>)
    ensures Inv(Run(steps))
  {
    if steps != [] {
      EntriesAreLive(steps[..|steps| - 1]);
      KeepsInv(Run(steps[..|steps| - 1]), steps[|steps| - 1]);
    }
  }

  lemma {:induction false} AllEndedMeansEmpty(steps: seq<Step>)
    requires forall c :: c in Run(steps).conns ==> !Run(steps).conns[c].live
    ensures forall u :: u in Run(steps).table ==> Run(steps).table[u] == map[]
  {
    EntriesAreLive(steps);
    var s := Run(steps);
    forall u | u in s.table
      ensures s.table[u] == map[]
    {
      assert forall p :: p !in s.table[u];
    }
  }

  // ---- Exactly which connections the hub holds ----

  predicate Touches(s: State, step: Step, user: string, platform: string) {
    && Enabled(s, step)
    && match step
       case Open(_, u, p) => u == user && p == platform
       case Close(c) => s.conns[c].user == user && s.conns[c].platform == platform
  }

  /** The connection whose registration was the last event on the key, if it was a registration. */
  function Holder(steps: seq<Step>, user: string, platform: string): Option<nat>
  {
    if steps == [] then None
    else
      var init, last := steps[..|steps| - 1], steps[|steps| - 1];
      if !Touches(Run(init), last, user, platform) then Holder(init, user, platform)
      else if last.Open? then Some(last.c) else None
  }

  /** In every run, overlapping reconnects included, a key holds the connection registered last,
      unless any connection of that key has ended since. */
  lemma {:induction false} HubHoldsLastRegistered(steps: seq<Step>, user: string, platform: string)
    ensures Lookup(Run(steps).table, user, platform) == Holder(steps, user, platform)
  {
    if steps != [] {
      HubHoldsLastRegistered(steps[..|steps| - 1], user, platform);
    }
  }

  /** Every live connection is in the hub; with `Inv`, the hub is exactly the live connections. */
  ghost predicate Exact(s: State) {
    forall c :: c in s.conns && s.conns[c].live ==> Lookup(s.table, s.conns[c].user, s.conns[c].platform) == Some(c)
  }

  ghost predicate KeyBusy(s: State, user: string, platform: string) {
    exists c :: c in s.conns && s.conns[c] == Conn(user, platform, true)
  }

  ghost predicate OpensBusyKey(s: State, step: Step) {
    step.Open? && Enabled(s, step) && KeyBusy(s, step.user, step.platform)
  }

  /** One step loses a live connection exactly when it opens a key that is busy. */
  lemma {:induction false} StepKeepsExact(s: State, step: Step)
    requires Inv(s) && Exact(s)
    ensures Exact(Next(s, step)) <==> !OpensBusyKey(s, step)
  {
  }

  ghost predicate NoOverlap(steps: seq<Step>)
  {
    steps != [] ==>
      var init, last := steps[..|steps| - 1], steps[|steps| - 1];
      NoOverlap(init) && !OpensBusyKey(Run(init), last)
  }

  ghost predicate AlwaysExact(steps: seq<Step>)
  {
    Exact(Run(steps)) && (steps != [] ==> AlwaysExact(steps[..|steps| - 1]))
  }

  /** The hub is exactly the live connections throughout a run if and only if no connection of the
      run opens a key that is busy at that moment. */
  lemma {:induction false} ExactIffNoOverlap(steps: seq<Step>)
    ensures AlwaysExact(steps) <==> NoOverlap(steps)
  {
    if steps != [] {
      var init := steps[..|steps| - 1];
      ExactIffNoOverlap(init);
      if AlwaysExact(init) {
        EntriesAreLive(init);
        StepKeepsExact(Run(init), steps[|steps| - 1]);
      }
    }
  }

  /** A reconnect that overlaps the old connection's teardown: the new connection is live and not
      in the hub. */
  lemma {:induction false} OverlapLosesNewClient(user: string, platform: string)
    ensures var s := Run([Open(0, user, platform), Open(1, user, platform), Close(0)]);
            1 in s.conns && s.conns[1].live && Lookup(s.table, user, platform) == None
  {
    var steps := [Open(0, user, platform), Open(1, user, platform), Close(0)];
    var a, b := steps[..1], steps[..2];
    assert a[..0] == [] && b[..1] == a && steps[..2] == b;
    assert Run(a) == Next(Init, steps[0]);
    assert Run(b) == Next(Run(a), steps[1]);
    assert Run(steps) == Next(Run(b), steps[2]);
  }
}
