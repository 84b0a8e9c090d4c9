/** The per-user counters kept in Redis (sandcat_prectice/cache/src/redis/mod.rs). */
module Cache {
  import opened Wrappers

  const I64_MAX := 0x7FFF_FFFF_FFFF_FFFF

  type Counters = map<string, int>

  function KeyOf(user: string): string {
    "seq:" + user
  }

  /** A counter that was never bumped reads as zero. */
  function CounterOf(c: Counters, user: string): int {
    if KeyOf(user) in c then c[KeyOf(user)] else 0
  }

  /** The store's INCR by one: an increment beyond 64 bits is refused and changes nothing. */
  predicate CanBump(c: Counters, user: string) {
    CounterOf(c, user) < I64_MAX
  }

  function Bumped(c: Counters, user: string): (r: Counters)
    requires CanBump(c, user)
    ensures forall u :: CounterOf(r, u) == CounterOf(c, u) + if u == user then 1 else 0
  {
    assert forall u :: KeyOf(u)[4..] == u;
    c[KeyOf(user) := CounterOf(c, user) + 1]
  }

  /** What can happen to a call. */
  datatype Fate = Replied | ReplyLost | Unreached

  class RedisCache {
    var counters: Counters

    constructor ()
      ensures counters == map[]
    {
      counters := map[];
    }

    /** The number handed out is the counter's new value; an error may hide an increment. */
    method IncreaseSeq(user: string, fate: Fate) returns (r: Result<int>)
      modifies this
      ensures r.Ok? <==> fate.Replied? && CanBump(old(counters), user)
      ensures r.Ok? ==> r.value == CounterOf(counters, user)
      ensures counters == if !fate.Unreached? && CanBump(old(counters), user)
                          then Bumped(old(counters), user) else old(counters)
      ensures r.Ok? ==>
                var key := "seq:" + user;
                && r.value == (if key in old(counters) then old(counters)[key] else 0) + 1 <= 0x7FFF_FFFF_FFFF_FFFF
                && counters == old(counters)[key := r.value]
    {
      if fate.Unreached? {
        return Err("connection error");
      }
      if !CanBump(counters, user) {
        return Err("increment would overflow");
      }
      counters := counters[KeyOf(user) := CounterOf(counters, user) + 1];
      r := if fate.ReplyLost? then Err("connection error") else Ok(counters[KeyOf(user)]);
    }

    /** A failed read answers zero, like a missing key; only an unreachable store is an error. */
    method GetSeq(user: string, connected: bool, readFails: bool) returns (r: Result<int>)
      ensures r.Ok? <==> connected
      ensures r.Ok? ==> r.value == if !readFails && "seq:" + user in counters then counters["seq:" + user] else 0
    {
      if !connected {
        return Err("connection error");
      }
      if readFails || KeyOf(user) !in counters {
        return Ok(0);
      }
      r := Ok(counters[KeyOf(user)]);
    }
  }
}
