/** One push call at work: the pusher's fan-out over websocket instances and what each instance does
    with the message (sandcat_prectice/pusher/src/main.rs:103-134,
    sandcat_prectice/ws/src/manager.rs:104-122). */
module Fanout {

  /** A websocket connection: its node and its id there. */
  datatype Conn = Conn(node: nat, id: nat)

  datatype Push = Push(
    waiting: set<nat>,            // instances whose send task has not ended
    working: set<nat>,            // instances that may still write
    lookups: map<nat, set<Conn>>, // the clients an instance found under the receiver
    reached: set<Conn>,           // clients written to
    missed: set<Conn>,            // clients whose socket was broken, which is only logged
    served: set<nat>              // instances that answered
  )
  {
    /** The instance has found this client and not come to it yet. */
    predicate Owes(conn: Conn) {
      && conn.node in working && conn.node in lookups
      && conn in lookups[conn.node] && conn !in reached && conn !in missed
    }

    /** Nobody can write for this push any more. */
    predicate Quiet() {
      working == {}
    }
  }

  function Started(targets: set<nat>): Push {
    Push(targets, targets, map[], {}, {}, {})
  }

  datatype Step =
    | Lookup(node: nat, clients: set<Conn>)
    | Write(conn: Conn)
    | WriteFails(conn: Conn)
    | NodeDone(node: nat)   // the instance answers, having come to every client it found
    | NodeFails(node: nat)  // the pusher sees an error; the instance may be at work all the same
    | NodeQuits(node: nat)  // the instance stops, or never gets the message

  predicate Enabled(p: Push, step: Step) {
    match step
    case Lookup(n, _) => n in p.working && n !in p.lookups
    case Write(conn) => p.Owes(conn)
    case WriteFails(conn) => p.Owes(conn)
    case NodeDone(n) => n in p.waiting && n in p.working && n in p.lookups && p.lookups[n] <= p.reached + p.missed
    case NodeFails(n) => n in p.waiting
    case NodeQuits(n) => n in p.working
  }

  function Apply(p: Push, step: Step): Push
    requires Enabled(p, step)
  {
    match step
    case Lookup(n, clients) => p.(lookups := p.lookups[n := clients])
    case Write(conn) => p.(reached := p.reached + {conn})
    case WriteFails(conn) => p.(missed := p.missed + {conn})
    case NodeDone(n) => p.(waiting := p.waiting - {n}, working := p.working - {n}, served := p.served + {n})
    case NodeFails(n) => p.(waiting := p.waiting - {n})
    case NodeQuits(n) => p.(working := p.working - {n})
  }

  /** An instance that answered came to every client it found; nobody was both written and missed. */
  ghost predicate Inv(p: Push) {
    && (forall n :: n in p.served ==> n in p.lookups && p.lookups[n] <= p.reached + p.missed)
    && (forall conn :: conn in p.reached || conn in p.missed ==> conn.node in p.lookups && conn in p.lookups[conn.node])
    && p.reached !! p.missed
  }

  /** Lookups, writes and failed writes are never forgotten, and a quiet push stays quiet. */
  ghost predicate Remembers(p: Push, q: Push) {
    && (forall n :: n in p.lookups ==> n in q.lookups && q.lookups[n] == p.lookups[n])
    && p.reached <= q.reached && p.missed <= q.missed && p.served <= q.served && q.working <= p.working
  }

  lemma {:induction false} KeepsInv(p: Push, step: Step)
    requires Inv(p) && Enabled(p, step)
    ensures Inv(Apply(p, step)) && Remembers(p, Apply(p, step))
  {
  }
}
