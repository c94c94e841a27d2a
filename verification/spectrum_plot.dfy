// The trace registry of the spectrum plot widget: overlaid traces kept in a
// map from id to trace plus a list of ids in insertion order, capped at
// `MaxTraces` with the oldest evicted first, fresh ids that are never
// reused, a ten-colour cycle and one "live" trace that `SetData` replaces.
// The plot items themselves (curves, pens, axis labels, auto-range) are not
// modelled; the widget's signals are an event log.
module SpectrumPlot {
  import opened Wrappers

  const MaxTraces: nat := 20

  const ColorCycle: seq<string> := [
    "#1f77b4", "#ff7f0e", "#2ca02c", "#d62728", "#9467bd",
    "#8c564b", "#e377c2", "#7f7f7f", "#bcbd22", "#17becf"]

  /** One trace on the plot; `wavelengths` is None for a pixel axis. */
  datatype Trace = Trace(
    id: nat,
    name: string,
    wavelengths: Option<seq<real>>,
    intensities: seq<real>,
    color: string,
    visible: bool)

  /** The widget's signals `trace_added`, `trace_removed` and `traces_cleared`. */
  datatype PlotEvent = TraceAdded(id: nat, name: string, color: string) | TraceRemoved(id: nat) | TracesCleared

  /** The label given to a trace added without one. */
  function DefaultLabel(id: nat): (s: string)
    ensures StartsWith(s, "Trace ") && |s| > 6
  {
    "Trace " + DecimalString(id)
  }

  /** The colour of the k-th colour ever drawn: the cycle wraps every ten. */
  function ColorOf(k: nat): (c: string)
    ensures c in ColorCycle
  {
    ColorCycle[k % |ColorCycle|]
  }

  /** The ten colours are pairwise different. */
  lemma {:induction false} ColorsDistinct()
    ensures forall i, j :: 0 <= i < j < |ColorCycle| ==> ColorCycle[i] != ColorCycle[j]
  {
    forall i, j | 0 <= i < j < |ColorCycle|
      ensures ColorCycle[i] != ColorCycle[j]
    {
      assert ColorCycle[i][1] != ColorCycle[j][1] || ColorCycle[i][2] != ColorCycle[j][2]
        || ColorCycle[i][3] != ColorCycle[j][3];
    }
  }

  /** Any ten consecutive colours drawn are pairwise different. */
  lemma {:induction false} TenConsecutiveDistinct(k: nat, a: nat, b: nat)
    requires k <= a < b < k + |ColorCycle|
    ensures ColorOf(a) != ColorOf(b)
  {
    ColorsDistinct();
    assert a % 10 != b % 10;
  }

  /** Each id is below the next one, so ids in insertion order are strictly increasing. */
  predicate Ascending(ids: seq<nat>)
  {
    |ids| <= 1 || (ids[0] < ids[1] && Ascending(ids[1..]))
  }

  /** The ids held in a sequence, as a set. */
  function SetOf(s: seq<nat>): (ids: set<nat>)
  {
    if s == [] then {} else {s[0]} + SetOf(s[1..])
  }

  lemma {:induction false} SetOfMembers(s: seq<nat>)
    ensures forall x :: x in SetOf(s) <==> x in s
  {
    if s != [] {
      SetOfMembers(s[1..]);
      assert s == [s[0]] + s[1..];
    }
  }

  lemma {:induction false} SetOfAppend(s: seq<nat>, x: nat)
    ensures SetOf(s + [x]) == SetOf(s) + {x}
  {
    if s != [] {
      assert (s + [x])[1..] == s[1..] + [x];
      SetOfAppend(s[1..], x);
    }
  }

  /** The first of ascending ids is below every later one. */
  lemma {:induction false} AscendingHead(s: seq<nat>)
    requires Ascending(s) && |s| > 0
    ensures forall y :: y in SetOf(s[1..]) ==> s[0] < y
  {
    if |s| > 1 {
      AscendingHead(s[1..]);
      assert s[1..][1..] == s[2..];
    }
  }

  /** Ascending ids are pairwise ordered, hence free of duplicates. */
  lemma {:induction false} AscendingAll(s: seq<nat>)
    requires Ascending(s)
    ensures forall i, j :: 0 <= i < j < |s| ==> s[i] < s[j]
  {
    if |s| > 1 {
      AscendingAll(s[1..]);
      AscendingHead(s);
      SetOfMembers(s[1..]);
      forall i, j | 0 <= i < j < |s|
        ensures s[i] < s[j]
      {
        assert s[j] == s[1..][j - 1];
        if i > 0 {
          assert s[i] == s[1..][i - 1];
        }
      }
    }
  }

  /** Ascending ids lie between the first and the last. */
  lemma {:induction false} AscendingBounds(s: seq<nat>)
    requires Ascending(s) && |s| > 0
    ensures forall y :: y in SetOf(s) ==> s[0] <= y <= s[|s| - 1]
  {
    if |s| > 1 {
      AscendingBounds(s[1..]);
      assert s[1..][|s| - 2] == s[|s| - 1];
    }
  }

  /** Appending an id above all present ones keeps the ids ascending. */
  lemma {:induction false} AscendingAppend(s: seq<nat>, x: nat)
    requires Ascending(s) && forall y :: y in SetOf(s) ==> y < x
    ensures Ascending(s + [x])
  {
    if |s| == 1 {
      assert s[0] in SetOf(s);
      assert s + [x] == [s[0], x];
    } else if |s| > 1 {
      assert SetOf(s) == {s[0]} + SetOf(s[1..]);
      assert (s + [x])[1..] == s[1..] + [x];
      AscendingAppend(s[1..], x);
    }
  }

  /** Ascending ids are distinct, so the set of them is as large as the sequence. */
  lemma {:induction false} SetOfCount(s: seq<nat>)
    requires Ascending(s)
    ensures |SetOf(s)| == |s|
  {
    if s != [] {
      AscendingHead(s);
      SetOfCount(s[1..]);
    }
  }

  /** Python's `list.remove(x)`: the first occurrence goes, the rest keep their order. */
  function RemoveFirst(s: seq<nat>, x: nat): (r: seq<nat>)
    requires x in SetOf(s)
    ensures |r| == |s| - 1
  {
    if s[0] == x then s[1..] else [s[0]] + RemoveFirst(s[1..], x)
  }

  /** On ascending ids, `RemoveFirst` removes exactly `x` and keeps the others ascending. */
  lemma {:induction false} RemoveFirstAscending(s: seq<nat>, x: nat)
    requires x in SetOf(s) && Ascending(s)
    ensures Ascending(RemoveFirst(s, x))
    ensures SetOf(RemoveFirst(s, x)) == SetOf(s) - {x}
  {
    AscendingHead(s);
    if s[0] != x {
      RemoveFirstAscending(s[1..], x);
      var r' := RemoveFirst(s[1..], x);
      assert ([s[0]] + r')[1..] == r';
      if |r'| > 0 {
        assert r'[0] in SetOf(r');
      }
    }
  }

  /** Dropping the first of the elements from `k` on leaves those from `k + 1` on. */
  lemma {:induction false} SuffixStep(s: seq<nat>, k: nat)
    requires k < |s|
    ensures s[k..][1..] == s[k + 1..]
  {
  }

  /** How many of the oldest traces an add evicts so that at most `MaxTraces` remain with the new one. */
  function Evicted(count: nat): (n: nat)
    ensures n <= count
    ensures count - n < MaxTraces
    ensures count < MaxTraces ==> n == 0
  {
    if count >= MaxTraces then count - MaxTraces + 1 else 0
  }

  /**
   * The widget's registry invariant: the keys of `traces` are exactly the
   * ids in `order`, which are increasing (so free of duplicates) and below
   * the next id, and each trace records its own id.
   */
  ghost predicate Registry(traces: map<nat, Trace>, order: seq<nat>, next: nat)
  {
    traces.Keys == SetOf(order)
    && Ascending(order)
    && (order == [] || (1 <= order[0] && order[|order| - 1] < next))
    && (forall t :: t in traces ==> traces[t].id == t)
    && next >= 1
  }

  /** Every registered id lies between the first and the last of the order, so below the next id. */
  lemma {:induction false} RegistryBelow(traces: map<nat, Trace>, order: seq<nat>, next: nat)
    requires Registry(traces, order, next)
    ensures forall t :: t in traces ==> 1 <= t < next
  {
    if order != [] {
      AscendingBounds(order);
    }
  }

  /** The registry holds one trace per id in the order. */
  lemma {:induction false} RegistryCount(traces: map<nat, Trace>, order: seq<nat>, next: nat)
    requires Registry(traces, order, next)
    ensures |traces| == |order|
  {
    SetOfCount(order);
    assert |traces| == |traces.Keys|;
  }

  /** Removing a registered id from both the map and the order keeps the registry. */
  lemma {:induction false} RegistryRemove(traces: map<nat, Trace>, order: seq<nat>, next: nat, id: nat)
    requires Registry(traces, order, next) && id in traces
    ensures Registry(traces - {id}, RemoveFirst(order, id), next)
  {
    RemoveFirstAscending(order, id);
    assert (traces - {id}).Keys == traces.Keys - {id};
    var r := RemoveFirst(order, id);
    if r != [] {
      AscendingBounds(order);
      assert r[0] in SetOf(r) && r[|r| - 1] in SetOf(r) by {
        SetOfMembers(r);
      }
    }
  }

  /** Registering a trace under the next id at the end of the order keeps the registry. */
  lemma {:induction false} RegistryAdd(traces: map<nat, Trace>, order: seq<nat>, next: nat, tr: Trace)
    requires Registry(traces, order, next) && tr.id == next
    ensures Registry(traces[next := tr], order + [next], next + 1)
  {
    RegistryBelow(traces, order, next);
    assert next !in traces;
    assert (traces[next := tr]).Keys == traces.Keys + {next};
    SetOfAppend(order, next);
    AscendingAppend(order, next);
  }

  /** The traces listed in the given id order. */
  function InOrder(traces: map<nat, Trace>, order: seq<nat>): (r: seq<Trace>)
    requires forall t :: t in order ==> t in traces
    ensures |r| == |order|
    ensures forall i :: 0 <= i < |r| ==> r[i] == traces[order[i]]
  {
    if order == [] then [] else [traces[order[0]]] + InOrder(traces, order[1..])
  }

  /** The overlay plot widget's trace bookkeeping. */
  class SpectrumPlotWidget {
    var traces: map<nat, Trace>
    /** `_trace_order`: ids in insertion order. */
    var order: seq<nat>
    var nextTraceId: nat
    var colorIndex: nat
    var liveTraceId: Option<nat>
    /** The latest trace's data, kept for the cursor readout. */
    var wavelengths: Option<seq<real>>
    var intensities: Option<seq<real>>
    /** The signals emitted so far. */
    var events: seq<PlotEvent>

    /**
     * The keys of `traces` are exactly the ids in `order`, which are
     * increasing (so free of duplicates), below the next id, at most
     * `MaxTraces` many, and the live trace, if any, is one of them.
     */
    ghost predicate Valid()
      reads this`traces, this`order, this`nextTraceId, this`liveTraceId
    {
      Registry(traces, order, nextTraceId)
      && |order| <= MaxTraces
      && (liveTraceId.Some? ==> liveTraceId.value in traces)
    }

    constructor ()
      ensures Valid()
      ensures traces == map[] && order == [] && nextTraceId == 1 && colorIndex == 0
      ensures liveTraceId == None && wavelengths == None && intensities == None && events == []
    {
      traces, order, nextTraceId, colorIndex := map[], [], 1, 0;
      liveTraceId, wavelengths, intensities, events := None, None, None, [];
    }

    /** `_next_color`: the colour at the current index, then advance the index. */
    method NextColor() returns (c: string)
      modifies this`colorIndex
      ensures c == ColorOf(old(colorIndex)) && colorIndex == old(colorIndex) + 1
    {
      c := ColorCycle[colorIndex % |ColorCycle|];
      colorIndex := colorIndex + 1;
    }

    /** `_remove_trace_internal`: drop the trace without a signal, clearing the live id if it was that one. */
    method RemoveTraceInternal(id: nat)
      requires Valid()
      modifies this`traces, this`order, this`liveTraceId
      ensures Valid()
      ensures id !in old(traces) ==> traces == old(traces) && order == old(order) && liveTraceId == old(liveTraceId)
      ensures id in old(traces) ==>
        traces == old(traces) - {id} && order == RemoveFirst(old(order), id)
        && liveTraceId == (if old(liveTraceId) == Some(id) then None else old(liveTraceId))
    {
      if id !in traces { return; }
      RegistryRemove(traces, order, nextTraceId, id);
      traces := traces - {id};
      order := RemoveFirst(order, id);
      if liveTraceId == Some(id) {
        liveTraceId := None;
      }
    }

    /** One turn of the eviction loop: silently remove the oldest trace. */
    method EvictOne()
      requires Valid() && |traces| == |order| > 0
      modifies this`traces, this`order, this`liveTraceId
      ensures Valid() && |traces| == |order|
      ensures order == old(order)[1..] && traces == old(traces) - {old(order)[0]}
      ensures liveTraceId == (if old(liveTraceId) == Some(old(order)[0]) then None else old(liveTraceId))
    {
      var oldest := order[0];
      assert oldest in traces && RemoveFirst(order, oldest) == order[1..];
      RemoveTraceInternal(oldest);
      RegistryCount(traces, order, nextTraceId);
    }

    /**
     * The eviction loop at the head of `add_trace`: while `MaxTraces` are
     * held, silently remove the oldest.
     */
    method EvictOldest()
      requires Valid()
      modifies this`traces, this`order, this`liveTraceId
      ensures Valid() && |traces| < MaxTraces
      ensures order == old(order)[Evicted(|old(order)|)..]
      ensures forall t :: t in traces ==> t in old(traces) && traces[t] == old(traces)[t]
      ensures liveTraceId.Some? ==> liveTraceId == old(liveTraceId)
      ensures old(liveTraceId).Some? && old(liveTraceId).value in traces ==> liveTraceId == old(liveTraceId)
    {
      ghost var order0, k := order, 0;
      RegistryCount(traces, order, nextTraceId);
      while |traces| >= MaxTraces
        invariant Valid() && |traces| == |order|
        invariant k <= Evicted(|order0|) && order == order0[k..]
        invariant forall t :: t in traces ==> t in old(traces) && traces[t] == old(traces)[t]
        invariant liveTraceId == (if old(liveTraceId).Some? && old(liveTraceId).value in traces then old(liveTraceId) else None)
        decreases |order|
      {
        EvictOne();
        SuffixStep(order0, k);
        k := k + 1;
      }
      assert k == Evicted(|order0|);
    }

    /**
     * `add_trace`: evict the oldest traces while `MaxTraces` are held, then
     * add a visible trace under the next id with the next colour and the
     * given name or "Trace <id>", and signal it.
     */
    method AddTrace(xs: Option<seq<real>>, ys: seq<real>, name: Option<string>) returns (id: nat)
      requires Valid()
      modifies this
      ensures Valid()
      ensures id == old(nextTraceId) && nextTraceId == id + 1
      ensures forall t :: t in old(traces) ==> t < id
      ensures order == old(order)[Evicted(|old(order)|)..] + [id]
      ensures forall t :: t in traces && t != id ==> t in old(traces) && traces[t] == old(traces)[t]
      ensures id in traces && traces[id] == Trace(id, if name.Some? then name.value else DefaultLabel(id), xs, ys,
                                                  ColorOf(old(colorIndex)), true)
      ensures colorIndex == old(colorIndex) + 1
      ensures liveTraceId.Some? ==> liveTraceId == old(liveTraceId)
      ensures old(liveTraceId).Some? && old(liveTraceId).value in traces ==> liveTraceId == old(liveTraceId)
      ensures wavelengths == xs && intensities == Some(ys)
      ensures events == old(events) + [TraceAdded(id, traces[id].name, traces[id].color)]
    {
      RegistryBelow(traces, order, nextTraceId);
      EvictOldest();
      id := Register(xs, ys, name);
    }

    /** The tail of `add_trace` once there is room: the new trace under the next id, with the next colour. */
    method Register(xs: Option<seq<real>>, ys: seq<real>, name: Option<string>) returns (id: nat)
      requires Valid() && |order| < MaxTraces
      modifies this`traces, this`order, this`nextTraceId, this`colorIndex, this`wavelengths, this`intensities, this`events
      ensures Valid()
      ensures id == old(nextTraceId) && nextTraceId == id + 1 && colorIndex == old(colorIndex) + 1
      ensures order == old(order) + [id]
      ensures traces == old(traces)[id := Trace(id, if name.Some? then name.value else DefaultLabel(id), xs, ys,
                                                ColorOf(old(colorIndex)), true)]
      ensures wavelengths == xs && intensities == Some(ys)
      ensures events == old(events) + [TraceAdded(id, traces[id].name, traces[id].color)]
    {
      id := nextTraceId;
      var text := if name.Some? then name.value else DefaultLabel(id);
      var color := NextColor();
      var trace := Trace(id, text, xs, ys, color, true);
      RegistryAdd(traces, order, nextTraceId, trace);
      traces, order, nextTraceId := traces[id := trace], order + [id], nextTraceId + 1;
      wavelengths, intensities, events := xs, Some(ys), events + [TraceAdded(id, text, color)];
    }

    /** `remove_trace`: an unknown id changes nothing; a known one is removed and signalled. */
    method RemoveTrace(id: nat)
      requires Valid()
      modifies this`traces, this`order, this`liveTraceId, this`events
      ensures Valid()
      ensures id !in old(traces) ==> unchanged(this)
      ensures id in old(traces) ==>
        traces == old(traces) - {id} && order == RemoveFirst(old(order), id)
        && liveTraceId == (if old(liveTraceId) == Some(id) then None else old(liveTraceId))
        && events == old(events) + [TraceRemoved(id)]
    {
      if id !in traces { return; }
      RemoveTraceInternal(id);
      events := events + [TraceRemoved(id)];
    }

    /** `set_trace_visible`: only that trace's flag changes; an unknown id changes nothing. */
    method SetTraceVisible(id: nat, visible: bool)
      requires Valid()
      modifies this`traces
      ensures Valid()
      ensures id !in old(traces) ==> traces == old(traces)
      ensures id in old(traces) ==> traces == old(traces)[id := old(traces)[id].(visible := visible)]
    {
      if id !in traces { return; }
      traces := traces[id := traces[id].(visible := visible)];
    }

    /** `clear_traces`: remove every trace in order, forget the data and the live trace, signal once. */
    method ClearTraces()
      requires Valid()
      modifies this`traces, this`order, this`liveTraceId, this`wavelengths, this`intensities, this`events
      ensures Valid()
      ensures traces == map[] && order == [] && liveTraceId == None
      ensures wavelengths == None && intensities == None
      ensures events == old(events) + [TracesCleared]
    {
      var ids := order;
      var k := 0;
      while k < |ids|
        invariant Valid()
        invariant 0 <= k <= |ids| && order == ids[k..]
        invariant events == old(events)
      {
        RemoveTraceInternal(ids[k]);
        k := k + 1;
      }
      wavelengths, intensities, liveTraceId := None, None, None;
      events := events + [TracesCleared];
    }

    /** `get_traces`: the traces in insertion order, so in increasing id order. */
    function GetTraces(): (r: seq<Trace>)
      reads this
      requires Valid()
      ensures |r| == |order| == |traces|
      ensures forall i :: 0 <= i < |r| ==> order[i] in traces && r[i] == traces[order[i]] && r[i].id == order[i]
      ensures forall i, j :: 0 <= i < j < |r| ==> r[i].id < r[j].id
    {
      SetOfMembers(order);
      AscendingAll(order);
      RegistryCount(traces, order, nextTraceId);
      InOrder(traces, order)
    }

    /** `clear`: the older name of `clear_traces`. */
    method Clear()
      requires Valid()
      modifies this`traces, this`order, this`liveTraceId, this`wavelengths, this`intensities, this`events
      ensures Valid() && traces == map[] && order == [] && liveTraceId == None
      ensures wavelengths == None && intensities == None
      ensures events == old(events) + [TracesCleared]
    {
      ClearTraces();
    }

    /**
     * `set_data`: silently remove the previous live trace, then add a new
     * trace labelled "Live" and make it the live one.
     */
    method SetData(xs: Option<seq<real>>, ys: seq<real>)
      requires Valid()
      modifies this
      ensures Valid()
      ensures liveTraceId == Some(old(nextTraceId)) && nextTraceId == old(nextTraceId) + 1
      ensures colorIndex == old(colorIndex) + 1
      ensures old(nextTraceId) in traces
        && traces[old(nextTraceId)] == Trace(old(nextTraceId), "Live", xs, ys, ColorOf(old(colorIndex)), true)
      ensures old(liveTraceId).Some? ==> old(liveTraceId).value !in traces
      ensures var kept := if old(liveTraceId).Some? && old(liveTraceId).value in old(traces)
                          then RemoveFirst(old(order), old(liveTraceId).value) else old(order);
              order == kept[Evicted(|kept|)..] + [old(nextTraceId)]
      ensures forall t :: t in traces && t != old(nextTraceId) ==> t in old(traces) && traces[t] == old(traces)[t]
      ensures wavelengths == xs && intensities == Some(ys)
      ensures events == old(events) + [TraceAdded(old(nextTraceId), "Live", ColorOf(old(colorIndex)))]
    {
      RegistryBelow(traces, order, nextTraceId);
      if liveTraceId.Some? && liveTraceId.value in traces {
        RemoveTraceInternal(liveTraceId.value);
      }
      ghost var gone := old(liveTraceId);
      assert gone.Some? ==> gone.value !in traces;
      var id := AddTrace(xs, ys, Some("Live"));
      liveTraceId := Some(id);
    }
  }

  /** A fresh widget after n `add_trace` calls holds min(n, 20) traces. */
  method AddMany(n: nat) returns (w: SpectrumPlotWidget)
    ensures w.Valid() && fresh(w)
    ensures |w.order| == (if n < MaxTraces then n else MaxTraces)
    ensures w.nextTraceId == n + 1 && w.colorIndex == n
  {
    w := new SpectrumPlotWidget();
    var k := 0;
    while k < n
      invariant 0 <= k <= n && w.Valid() && fresh(w)
      invariant |w.order| == (if k < MaxTraces then k else MaxTraces)
      invariant w.nextTraceId == k + 1 && w.colorIndex == k
    {
      var _ := w.AddTrace(None, [], None);
      k := k + 1;
    }
  }
}
