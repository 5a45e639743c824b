/**
 The shared table behind the gRPC de-duplication middleware.

 Every function below is one critical section of the middleware: what it does
 to the in-flight map, the response cache and the broadcast channels while the
 mutex is held.  `SharedTable` is the mutable object with the same sections as
 methods.
 */
module DedupTable {
  import opened Options

  /** gRPC path and raw request body. */
  datatype Key = Key(path: string, body: seq<byte>)

  type Headers = seq<(string, string)>

  datatype Content = Content(status: nat, headers: Headers, body: seq<byte>, trailers: Option<Headers>)

  /**
   A completed response.  `key`, `executor` and `version` record where it came
   from: the key that was executed, the request that executed it and the
   handler generation that request had read.
   */
  datatype Cached = Cached(content: Content, created: nat, key: Key, executor: nat, version: nat)

  /**
   `inflight` maps a key to the number of the channel its leader opened; a
   channel is open exactly while some key maps to it, because the map holds the
   only sender.  `log[c]` is everything ever sent on channel `c`.
   */
  datatype Table = Table(inflight: map<Key, nat>, cache: map<Key, Cached>, log: map<nat, seq<Cached>>, next: nat)

  datatype Outcome =
    | Hit(entry: Cached)
    | Join(chan: nat, from: nat)
    | Lead

  const CHANNEL_CAPACITY := 4

  const Empty := Table(map[], map[], map[], 0)

  predicate IsOpen(t: Table, c: nat) {
    c in t.inflight.Values
  }

  /** Registers a fresh channel for `k`. */
  function Open(t: Table, k: Key): Table {
    t.(inflight := t.inflight[k := t.next], log := t.log[t.next := []], next := t.next + 1)
  }

  /** First section: cache lookup, then subscribe or lead. */
  function Enter(t: Table, k: Key, ttl: nat, now: nat): (Table, Outcome) {
    if k in t.cache && now - t.cache[k].created < ttl then
      (t, Hit(t.cache[k]))
    else
      var t' := t.(cache := t.cache - {k});
      if k in t'.inflight then
        var c := t'.inflight[k];
        (t', Join(c, if c in t'.log then |t'.log[c]| else 0))
      else
        (Open(t', k), Lead)
  }

  /** Second section: a follower whose channel failed becomes a leader. */
  function TakeOver(t: Table, k: Key): Table {
    if k in t.inflight then t else Open(t, k)
  }

  /** Third section: hand the response to the followers and cache it. */
  function Publish(t: Table, k: Key, e: Cached): Table {
    var sent :=
      if k in t.inflight && t.inflight[k] in t.log then
        t.log[t.inflight[k] := t.log[t.inflight[k]] + [e]]
      else t.log;
    t.(inflight := t.inflight - {k}, cache := t.cache[k := e], log := sent)
  }

  /** Forget every in-flight sender and every cached response. */
  function Clear(t: Table): Table {
    t.(inflight := map[], cache := map[])
  }

  /** The mutex-protected maps, updated in place by the middleware. */
  class SharedTable {
    var inflight: map<Key, nat>
    var cache: map<Key, Cached>
    var log: map<nat, seq<Cached>>
    var next: nat

    function View(): Table
      reads this
    {
      Table(inflight, cache, log, next)
    }

    constructor ()
      ensures View() == Empty
    {
      inflight, cache, log, next := map[], map[], map[], 0;
    }

    method OpenChannel(k: Key)
      modifies this
      ensures View() == Open(old(View()), k)
    {
      inflight := inflight[k := next];
      log := log[next := []];
      next := next + 1;
    }

    method EnterRequest(k: Key, ttl: nat, now: nat) returns (outcome: Outcome)
      modifies this
      ensures (View(), outcome) == Enter(old(View()), k, ttl, now)
    {
      if k in cache {
        var entry := cache[k];
        if now - entry.created < ttl {
          return Hit(entry);
        }
      }
      cache := cache - {k};
      if k in inflight {
        var c := inflight[k];
        outcome := Join(c, if c in log then |log[c]| else 0);
      } else {
        OpenChannel(k);
        outcome := Lead;
      }
    }

    method TakeOverLeadership(k: Key)
      modifies this
      ensures View() == TakeOver(old(View()), k)
    {
      if k !in inflight {
        OpenChannel(k);
      }
    }

    method PublishResponse(k: Key, e: Cached)
      modifies this
      ensures View() == Publish(old(View()), k, e)
    {
      if k in inflight {
        var c := inflight[k];
        inflight := inflight - {k};
        if c in log {
          log := log[c := log[c] + [e]];
        }
      }
      cache := cache[k := e];
    }

    method ClearAll()
      modifies this
      ensures View() == Clear(old(View()))
    {
      inflight := map[];
      cache := map[];
    }
  }
}
