// The publish/subscribe event bus. Handlers subscribe to an exact event name
// or to a wildcard pattern ending in ".*"; exact subscriptions are a map from
// name to handler list, wildcard subscriptions a table of (pattern, handlers)
// in the order the patterns were first subscribed. Publishing emits the bus's
// own signal, then calls the exact subscribers of the name in subscription
// order, then, pattern by pattern, the handlers of every wildcard pattern the
// name matches, passing the event name along. Handlers are opaque tokens and
// a call is an entry in the log; what a handler does is not modelled.
module EventBus {
  import opened Wrappers

  type Handler = nat

  /** `event_emitted`, and one handler call; wildcard handlers also get the event name. */
  datatype BusEvent = Emitted(name: string) | Called(handler: Handler, eventName: Option<string>)

  /** A wildcard table row: a pattern and its handlers. */
  datatype Row = Row(pattern: string, handlers: seq<Handler>)

  predicate IsWildcard(name: string)
  {
    EndsWith(name, ".*")
  }

  /**
   * Whether `name` matches the pattern "P.*" as a shell glob: it starts with
   * "P." and may continue with anything, dots included.
   */
  predicate Matches(name: string, pattern: string)
  {
    IsWildcard(pattern) && StartsWith(name, pattern[..|pattern| - 1])
  }

  /** `s` without its first occurrence of `h`; unchanged when `h` is absent. */
  function RemoveFirst(s: seq<Handler>, h: Handler): (r: seq<Handler>)
    ensures h in s ==> |r| == |s| - 1 && multiset(r) == multiset(s) - multiset{h}
    ensures h !in s ==> r == s
  {
    if s == [] then []
    else
      assert s == [s[0]] + s[1..];
      if s[0] == h then s[1..] else [s[0]] + RemoveFirst(s[1..], h)
  }

  /** Subscribing a handler and unsubscribing it again restores the list when it was not there before. */
  lemma {:induction false} AppendThenRemove(s: seq<Handler>, h: Handler)
    requires h !in s
    ensures RemoveFirst(s + [h], h) == s
  {
    if s != [] {
      assert (s + [h])[1..] == s[1..] + [h];
      AppendThenRemove(s[1..], h);
    }
  }

  /** When `h` was already subscribed, the earlier subscription is the one removed. */
  lemma {:induction false} RemoveFirstKeepsLater(s: seq<Handler>, h: Handler)
    requires h in s
    ensures RemoveFirst(s + [h], h) == RemoveFirst(s, h) + [h]
  {
    if s[0] != h {
      assert (s + [h])[1..] == s[1..] + [h];
      RemoveFirstKeepsLater(s[1..], h);
    }
  }

  /** The patterns of a wildcard table, in order. */
  function Patterns(t: seq<Row>): (ps: seq<string>)
    ensures |ps| == |t|
    ensures forall i :: 0 <= i < |t| ==> ps[i] == t[i].pattern
  {
    if t == [] then [] else [t[0].pattern] + Patterns(t[1..])
  }

  /** No pattern has two rows. */
  predicate Distinct(ps: seq<string>)
  {
    forall i, j :: 0 <= i < j < |ps| ==> ps[i] != ps[j]
  }

  /** The handlers of `pattern`, empty when it has no row. */
  function HandlersOf(t: seq<Row>, pattern: string): (hs: seq<Handler>)
    ensures pattern !in Patterns(t) ==> hs == []
    ensures forall i :: 0 <= i < |t| && t[i].pattern == pattern && pattern !in Patterns(t[..i]) ==> hs == t[i].handlers
  {
    if t == [] then []
    else if t[0].pattern == pattern then t[0].handlers
    else
      assert forall i :: 1 <= i < |t| ==> t[..i] == [t[0]] + t[1..][..i - 1];
      HandlersOf(t[1..], pattern)
  }

  /** Appends `h` to the row of `pattern`, adding the row at the end when there is none. */
  function WildAdd(t: seq<Row>, pattern: string, h: Handler): (r: seq<Row>)
    ensures pattern in Patterns(t) ==> Patterns(r) == Patterns(t)
    ensures pattern !in Patterns(t) ==> Patterns(r) == Patterns(t) + [pattern]
    ensures HandlersOf(r, pattern) == HandlersOf(t, pattern) + [h]
    ensures forall p :: p != pattern ==> HandlersOf(r, p) == HandlersOf(t, p)
  {
    if t == [] then [Row(pattern, [h])]
    else if t[0].pattern == pattern then [Row(pattern, t[0].handlers + [h])] + t[1..]
    else [t[0]] + WildAdd(t[1..], pattern, h)
  }

  /** Removes the first occurrence of `h` from the row of `pattern`; the row stays even when it empties. */
  function WildRemove(t: seq<Row>, pattern: string, h: Handler): (r: seq<Row>)
    ensures Patterns(r) == Patterns(t)
    ensures HandlersOf(r, pattern) == RemoveFirst(HandlersOf(t, pattern), h)
    ensures forall p :: p != pattern ==> HandlersOf(r, p) == HandlersOf(t, p)
  {
    if t == [] then []
    else if t[0].pattern == pattern then [Row(pattern, RemoveFirst(t[0].handlers, h))] + t[1..]
    else [t[0]] + WildRemove(t[1..], pattern, h)
  }

  /** Drops the row of `pattern`. */
  function WildPop(t: seq<Row>, pattern: string): (r: seq<Row>)
    requires Distinct(Patterns(t))
    ensures forall p :: p in Patterns(r) <==> p in Patterns(t) && p != pattern
    ensures forall p :: p != pattern ==> HandlersOf(r, p) == HandlersOf(t, p)
  {
    if t == [] then []
    else if t[0].pattern == pattern then
      assert Patterns(t) == [pattern] + Patterns(t[1..]);
      t[1..]
    else
      assert Distinct(Patterns(t[1..])) by {
        assert Patterns(t)[1..] == Patterns(t[1..]);
      }
      [t[0]] + WildPop(t[1..], pattern)
  }

  /** Dropping a row keeps the remaining patterns distinct. */
  lemma {:induction false} WildPopDistinct(t: seq<Row>, pattern: string)
    requires Distinct(Patterns(t))
    ensures Distinct(Patterns(WildPop(t, pattern)))
  {
    if t != [] {
      assert Patterns(t)[1..] == Patterns(t[1..]);
      if t[0].pattern != pattern {
        WildPopDistinct(t[1..], pattern);
        var r := WildPop(t, pattern);
        var rest := Patterns(WildPop(t[1..], pattern));
        assert Patterns(r) == [t[0].pattern] + rest;
        assert t[0].pattern !in Patterns(t[1..]);
        assert t[0].pattern !in rest;
      }
    }
  }

  /** The calls made to the exact subscribers of `name`, in subscription order. */
  function ExactCalls(hs: seq<Handler>): (r: seq<BusEvent>)
    ensures |r| == |hs|
    ensures forall i :: 0 <= i < |hs| ==> r[i] == Called(hs[i], None)
  {
    if hs == [] then [] else ExactCalls(hs[..|hs| - 1]) + [Called(hs[|hs| - 1], None)]
  }

  /** The calls made to the handlers of one wildcard row, each given the event name. */
  function NamedCalls(hs: seq<Handler>, name: string): (r: seq<BusEvent>)
    ensures |r| == |hs|
    ensures forall i :: 0 <= i < |hs| ==> r[i] == Called(hs[i], Some(name))
  {
    if hs == [] then [] else NamedCalls(hs[..|hs| - 1], name) + [Called(hs[|hs| - 1], Some(name))]
  }

  /** The calls made to wildcard subscribers, row by row in table order. */
  function WildCalls(t: seq<Row>, name: string): (r: seq<BusEvent>)
    ensures forall e :: e in r ==> e.Called? && e.eventName == Some(name)
  {
    if t == [] then []
    else
      var last := t[|t| - 1];
      WildCalls(t[..|t| - 1], name) + (if Matches(name, last.pattern) then NamedCalls(last.handlers, name) else [])
  }

  /** A wildcard handler is called for `name` exactly when one of its patterns matches `name`. */
  lemma {:induction false} WildCallsComplete(t: seq<Row>, name: string, h: Handler)
    ensures Called(h, Some(name)) in WildCalls(t, name) <==>
      exists i :: 0 <= i < |t| && Matches(name, t[i].pattern) && h in t[i].handlers
  {
    if t != [] {
      var init, last := t[..|t| - 1], t[|t| - 1];
      WildCallsComplete(init, name, h);
      var tail := if Matches(name, last.pattern) then NamedCalls(last.handlers, name) else [];
      assert Called(h, Some(name)) in tail <==> Matches(name, last.pattern) && h in last.handlers by {
        if Matches(name, last.pattern) && h in last.handlers {
          var k :| 0 <= k < |last.handlers| && last.handlers[k] == h;
          assert tail[k] == Called(h, Some(name));
        }
      }
      if exists i :: 0 <= i < |t| && Matches(name, t[i].pattern) && h in t[i].handlers {
        var i :| 0 <= i < |t| && Matches(name, t[i].pattern) && h in t[i].handlers;
        if i < |t| - 1 {
          assert init[i] == t[i];
        }
      }
      if Called(h, Some(name)) in WildCalls(init, name) {
        var i :| 0 <= i < |init| && Matches(name, init[i].pattern) && h in init[i].handlers;
        assert t[i] == init[i];
      }
    }
  }

  class Bus {
    var subscribers: map<string, seq<Handler>>
    var wildcards: seq<Row>
    var log: seq<BusEvent>

    ghost predicate Valid()
      reads this`wildcards
    {
      Distinct(Patterns(wildcards)) &&
      (forall p :: p in Patterns(wildcards) ==> IsWildcard(p))
    }

    /** The exact subscribers of `name`. */
    function Exact(name: string): (hs: seq<Handler>)
      reads this`subscribers
      ensures name !in subscribers ==> hs == []
    {
      if name in subscribers then subscribers[name] else []
    }

    constructor ()
      ensures Valid()
      ensures subscribers == map[] && wildcards == [] && log == []
    {
      subscribers, wildcards, log := map[], [], [];
    }

    /** Appends `h` to the wildcard row of `name` when it ends in ".*", otherwise to its exact list. */
    method Subscribe(name: string, h: Handler)
      requires Valid()
      modifies this`subscribers, this`wildcards
      ensures Valid()
      ensures IsWildcard(name) ==> subscribers == old(subscribers) && wildcards == WildAdd(old(wildcards), name, h)
      ensures !IsWildcard(name) ==> wildcards == old(wildcards) && subscribers == old(subscribers)[name := old(Exact(name)) + [h]]
    {
      if IsWildcard(name) {
        DistinctAppend(wildcards, name);
        wildcards := WildAdd(wildcards, name, h);
      } else {
        subscribers := subscribers[name := Exact(name) + [h]];
      }
    }

    /** Removes the first subscription of `h` under `name`, if any; no row or entry is created. */
    method Unsubscribe(name: string, h: Handler)
      requires Valid()
      modifies this`subscribers, this`wildcards
      ensures Valid()
      ensures IsWildcard(name) ==> subscribers == old(subscribers) && wildcards == WildRemove(old(wildcards), name, h)
      ensures !IsWildcard(name) && name in old(subscribers) ==>
        wildcards == old(wildcards) && subscribers == old(subscribers)[name := RemoveFirst(old(subscribers)[name], h)]
      ensures !IsWildcard(name) && name !in old(subscribers) ==> wildcards == old(wildcards) && subscribers == old(subscribers)
    {
      if IsWildcard(name) {
        wildcards := WildRemove(wildcards, name, h);
      } else if name in subscribers {
        subscribers := subscribers[name := RemoveFirst(subscribers[name], h)];
      }
    }

    /**
     * Emits the bus signal, calls the exact subscribers of `name`, then the
     * handlers of every matching wildcard row in table order.
     */
    method Publish(name: string)
      modifies this`log
      ensures log == old(log) + [Emitted(name)] + ExactCalls(old(Exact(name))) + WildCalls(wildcards, name)
    {
      log := log + [Emitted(name)];
      CallExact(Exact(name));
      CallWildcards(name);
    }

    /** Calls the handlers `hs` in order, without the event name. */
    method CallExact(hs: seq<Handler>)
      modifies this`log
      ensures log == old(log) + ExactCalls(hs)
    {
      var k := 0;
      while k < |hs|
        invariant k <= |hs|
        invariant log == old(log) + ExactCalls(hs[..k])
      {
        assert hs[..k + 1][..k] == hs[..k];
        log := log + [Called(hs[k], None)];
        k := k + 1;
      }
      assert hs[..k] == hs;
    }

    /** Calls the handlers of every wildcard row whose pattern matches `name`, in table order. */
    method CallWildcards(name: string)
      modifies this`log
      ensures log == old(log) + WildCalls(wildcards, name)
    {
      var i := 0;
      while i < |wildcards|
        invariant i <= |wildcards|
        invariant log == old(log) + WildCalls(wildcards[..i], name)
      {
        assert wildcards[..i + 1][..i] == wildcards[..i];
        var row := wildcards[i];
        if Matches(name, row.pattern) {
          CallNamed(row.handlers, name);
        }
        i := i + 1;
      }
      assert wildcards[..i] == wildcards;
    }

    /** Calls the handlers `hs` of one matching row in order, each given the event name. */
    method CallNamed(hs: seq<Handler>, name: string)
      modifies this`log
      ensures log == old(log) + NamedCalls(hs, name)
    {
      var j := 0;
      while j < |hs|
        invariant j <= |hs|
        invariant log == old(log) + NamedCalls(hs[..j], name)
      {
        assert hs[..j + 1][..j] == hs[..j];
        log := log + [Called(hs[j], Some(name))];
        j := j + 1;
      }
      assert hs[..j] == hs;
    }

    /** Drops every subscription to `name` (its wildcard row, or its exact list). */
    method ClearEvent(name: string)
      requires Valid()
      modifies this`subscribers, this`wildcards
      ensures Valid()
      ensures IsWildcard(name) ==> subscribers == old(subscribers) && wildcards == WildPop(old(wildcards), name)
      ensures !IsWildcard(name) ==> wildcards == old(wildcards) && subscribers == old(subscribers) - {name}
    {
      if IsWildcard(name) {
        WildPopDistinct(wildcards, name);
        wildcards := WildPop(wildcards, name);
      } else {
        subscribers := subscribers - {name};
      }
    }

    /** Drops every subscription. */
    method ClearAll()
      modifies this`subscribers, this`wildcards
      ensures Valid()
      ensures subscribers == map[] && wildcards == []
    {
      subscribers, wildcards := map[], [];
    }
  }

  /** Adding a pattern that is new keeps the patterns distinct. */
  lemma {:induction false} DistinctAppend(t: seq<Row>, pattern: string)
    requires Distinct(Patterns(t))
    ensures forall h :: Distinct(Patterns(WildAdd(t, pattern, h)))
  {
  }

  /**
   * Publishing to `name` calls handler `h` without the event name exactly
   * when `h` is an exact subscriber of `name`, and with it exactly when `h`
   * sits in a wildcard row whose pattern matches `name`.
   */
  lemma {:induction false} PublishReaches(subscribers: seq<Handler>, t: seq<Row>, name: string, h: Handler)
    ensures Called(h, None) in ExactCalls(subscribers) + WildCalls(t, name) <==> h in subscribers
    ensures Called(h, Some(name)) in ExactCalls(subscribers) + WildCalls(t, name) <==>
      exists i :: 0 <= i < |t| && Matches(name, t[i].pattern) && h in t[i].handlers
  {
    WildCallsComplete(t, name, h);
    if h in subscribers {
      var k :| 0 <= k < |subscribers| && subscribers[k] == h;
      assert ExactCalls(subscribers)[k] == Called(h, None);
    }
  }
}
