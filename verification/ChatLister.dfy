/** The engine list behind the gateway's chat router: a discovery, remembered for a few seconds. */
module ChatLister {
  import opened Prelude

  datatype Engine = Engine(name: string, port: int, models: seq<string>, busy: bool)

  datatype Upstream = Upstream(engine: string, port: int, models: seq<string>)

  /** Five seconds, in nanoseconds. */
  const TTL := 5_000_000_000

  function Upstreams(engines: seq<Engine>): seq<Upstream> {
    seq(|engines|, i requires 0 <= i < |engines| => Upstream(engines[i].name, engines[i].port, engines[i].models))
  }

  /** One call, serialised by the mutex: the clock as it enters, what a probe would find, and the clock as it leaves. */
  datatype Call = Call(now: int, engines: seq<Engine>, done: int)

  datatype Discovery = Discovery(start: int, engines: seq<Engine>, finish: int)

  // ---- what a call does, from the discoveries made so far ----

  predicate Reuses(log: seq<Discovery>, now: int) {
    log != [] && now < log[|log| - 1].finish + TTL
  }

  function LogOf(calls: seq<Call>): seq<Discovery> {
    if calls == [] then []
    else
      var log, c := LogOf(calls[..|calls| - 1]), calls[|calls| - 1];
      if Reuses(log, c.now) then log else log + [Discovery(c.now, c.engines, c.done)]
  }

  /** The closure of newLocalChatLister. */
  class Lister {
    var cached: Option<seq<Upstream>>
    var expiry: int
    ghost var calls: seq<Call>

    ghost predicate Valid()
      reads this
    {
      var log := LogOf(calls);
      && (cached.None? <==> log == [])
      && (log != [] ==> cached == Some(Upstreams(log[|log| - 1].engines)) && expiry == log[|log| - 1].finish + TTL)
    }

    constructor ()
      ensures Valid() && calls == []
    {
      cached, expiry, calls := None, 0, [];
    }

    method List(c: Call) returns (out: seq<Upstream>)
      requires Valid()
      modifies this
      ensures Valid() && calls == old(calls) + [c]
      ensures LogOf(calls) != []
      ensures var found := LogOf(calls)[|LogOf(calls)| - 1].engines;
              && |out| == |found|
              && forall i :: 0 <= i < |found| ==>
                   out[i].engine == found[i].name && out[i].port == found[i].port && out[i].models == found[i].models
    {
      calls := calls + [c];
      assert calls[..|calls| - 1] == old(calls);
      if cached.Some? && c.now < expiry {
        assert Reuses(LogOf(old(calls)), c.now);
        return cached.value;
      }
      out := [];
      for i := 0 to |c.engines|
        invariant out == Upstreams(c.engines)[..i]
        invariant calls == old(calls) + [c] && calls[..|calls| - 1] == old(calls)
      {
        out := out + [Upstream(c.engines[i].name, c.engines[i].port, c.engines[i].models)];
      }
      assert LogOf(calls) == LogOf(old(calls)) + [Discovery(c.now, c.engines, c.done)];
      assert out == Upstreams(c.engines);
      cached := Some(out);
      expiry := c.done + TTL;
    }
  }

  // ---- whole traces ----

  /** A clock that never runs backwards. */
  predicate Clocked(calls: seq<Call>) {
    && (forall i :: 0 <= i < |calls| ==> calls[i].now <= calls[i].done)
    && (forall i, j :: 0 <= i < j < |calls| ==> calls[i].done <= calls[j].now)
  }

  /** A discovery of the log is one call's, made in that call. */
  lemma {:induction false} DiscoveredIn(calls: seq<Call>, k: nat)
    requires k < |LogOf(calls)|
    ensures exists i :: 0 <= i < |calls| && LogOf(calls)[k] == Discovery(calls[i].now, calls[i].engines, calls[i].done)
  {
    var init, c := calls[..|calls| - 1], calls[|calls| - 1];
    if k < |LogOf(init)| {
      DiscoveredIn(init, k);
      var i :| 0 <= i < |init| && LogOf(init)[k] == Discovery(init[i].now, init[i].engines, init[i].done);
      assert calls[i] == init[i];
    } else {
      assert calls[|calls| - 1] == c;
    }
  }

  /**
   Every call of every trace answers from a discovery that finished less than the TTL before it, or from
   one made within the call itself; an empty discovery serves as well as any.
   */
  lemma {:induction false} AnswerIsFresh(calls: seq<Call>, k: nat)
    requires Clocked(calls) && k < |calls|
    ensures var log := LogOf(calls[..k + 1]);
            && log != []
            && var d := log[|log| - 1];
               || d == Discovery(calls[k].now, calls[k].engines, calls[k].done)
               || (log == LogOf(calls[..k]) && d.finish <= calls[k].now < d.finish + 5_000_000_000)
  {
    var before := LogOf(calls[..k]);
    assert calls[..k + 1][..k] == calls[..k];
    if before != [] {
      DiscoveredIn(calls[..k], |before| - 1);
      var i :| 0 <= i < k && before[|before| - 1] == Discovery(calls[i].now, calls[i].engines, calls[i].done);
      assert calls[i].done <= calls[k].now;
    }
  }

  /** A new discovery starts no sooner than the TTL after the one before it finished. */
  lemma {:induction false} DiscoveriesSpaced(calls: seq<Call>, k: nat)
    requires Clocked(calls) && 0 < k < |LogOf(calls)|
    ensures LogOf(calls)[k - 1].finish + TTL <= LogOf(calls)[k].start
  {
    var init := calls[..|calls| - 1];
    if k < |LogOf(init)| { DiscoveriesSpaced(init, k); }
  }

  /** Between two calls less than the TTL apart no second discovery is made, whatever the first one found. */
  lemma {:induction false} QuickCallsShare(calls: seq<Call>, j: nat, k: nat)
    requires Clocked(calls) && j < k < |calls|
    requires LogOf(calls[..j + 1]) != LogOf(calls[..j]) && calls[k].now < calls[j].done + TTL
    ensures LogOf(calls[..k + 1]) == LogOf(calls[..j + 1])
    decreases k
  {
    assert calls[..k + 1][..k] == calls[..k];
    assert calls[..j + 1][..j] == calls[..j];
    if j + 1 < k {
      assert calls[k - 1].done <= calls[k].now;
      QuickCallsShare(calls, j, k - 1);
    }
  }
}
