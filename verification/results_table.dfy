// The experiment results table: a list of experiment entries in the order
// they were added, each with a fresh id counted from 1, a procedure type, its
// parameters, a free-form status, a progress value, start and end times and
// an error message. Status updates hit the first entry with the id and are
// not checked against any transition rule; the terminal statuses are
// "completed", "failed" and "aborted". Clock readings are a parameter `now`;
// the table rendering itself is not modelled.
module ResultsTable {
  import opened Wrappers

  /** One experiment row. Times are abstract clock readings. */
  datatype Entry = Entry(
    id: nat,
    procedureType: string,
    parameters: map<string, real>,
    status: string,
    progress: real,
    startTime: Option<int>,
    endTime: Option<int>,
    errorMessage: Option<string>)

  /** The signals `experiment_selected` and `experiment_double_clicked`. */
  datatype TableEvent = Selected(id: nat) | DoubleClicked(id: nat)

  predicate Terminal(status: string)
  {
    status == "completed" || status == "failed" || status == "aborted"
  }

  /** The entry a fresh experiment gets: queued, no progress, no times, no error. */
  function NewEntry(id: nat, procedureType: string, parameters: map<string, real>): (e: Entry)
    ensures e.id == id && e.status == "queued" && e.progress == 0.0
    ensures e.startTime == None && e.endTime == None && e.errorMessage == None
  {
    Entry(id, procedureType, parameters, "queued", 0.0, None, None, None)
  }

  /**
   * One status update applied to one entry. The progress and the error
   * message change only when a value is given (an empty message counts as
   * none); the start time is stamped on the first "running", the end time
   * on every terminal status.
   */
  function Updated(e: Entry, status: string, progress: Option<real>, error: Option<string>, now: int): (r: Entry)
    ensures r.id == e.id && r.procedureType == e.procedureType && r.parameters == e.parameters
    ensures r.status == status
    ensures progress.None? ==> r.progress == e.progress
    ensures progress.Some? ==> r.progress == progress.value
    ensures e.startTime.Some? ==> r.startTime == e.startTime
    ensures status == "running" ==> r.startTime.Some?
    ensures Terminal(status) ==> r.endTime == Some(now)
    ensures !Terminal(status) ==> r.endTime == e.endTime
    ensures r.startTime != e.startTime ==> status == "running" && r.startTime == Some(now)
    ensures r.errorMessage != e.errorMessage ==> error.Some? && error.value != "" && r.errorMessage == error
  {
    var p := if progress.Some? then progress.value else e.progress;
    var start := if status == "running" && e.startTime.None? then Some(now) else e.startTime;
    var end := if Terminal(status) then Some(now) else e.endTime;
    var msg := if error.Some? && error.value != "" then error else e.errorMessage;
    e.(status := status, progress := p, startTime := start, endTime := end, errorMessage := msg)
  }

  /** The position of the first entry with `id`, if any. */
  function IndexOf(s: seq<Entry>, id: nat): (r: Option<nat>)
    ensures r.None? <==> forall j :: 0 <= j < |s| ==> s[j].id != id
    ensures r.Some? ==> r.value < |s| && s[r.value].id == id
    ensures r.Some? ==> forall j :: 0 <= j < r.value ==> s[j].id != id
  {
    if s == [] then None
    else if s[0].id == id then Some(0)
    else match IndexOf(s[1..], id) {
      case None => None
      case Some(k) => Some(k + 1)
    }
  }

  /** The entries whose status is not terminal, in their order. */
  function Pending(s: seq<Entry>): (r: seq<Entry>)
    ensures |r| <= |s|
    ensures forall e :: e in r <==> e in s && !Terminal(e.status)
  {
    if s == [] then []
    else if Terminal(s[0].status) then Pending(s[1..])
    else [s[0]] + Pending(s[1..])
  }

  /** Filtering distributes over concatenation, so the relative order of kept entries is the original one. */
  lemma {:induction false} PendingAppend(a: seq<Entry>, b: seq<Entry>)
    ensures Pending(a + b) == Pending(a) + Pending(b)
  {
    if a == [] {
      assert a + b == b;
    } else {
      assert (a + b)[1..] == a[1..] + b;
      PendingAppend(a[1..], b);
      if !Terminal(a[0].status) {
        assert [a[0]] + (Pending(a[1..]) + Pending(b)) == ([a[0]] + Pending(a[1..])) + Pending(b);
      }
    }
  }

  /** Clearing completed entries twice is the same as once. */
  lemma {:induction false} PendingIdempotent(s: seq<Entry>)
    ensures Pending(Pending(s)) == Pending(s)
  {
    if s != [] {
      PendingIdempotent(s[1..]);
      if !Terminal(s[0].status) {
        assert ([s[0]] + Pending(s[1..]))[1..] == Pending(s[1..]);
      }
    }
  }

  /** Ids strictly increase down the list. */
  predicate IdsAscending(s: seq<Entry>)
  {
    |s| <= 1 || (s[0].id < s[1].id && IdsAscending(s[1..]))
  }

  /** Dropping entries keeps ids ascending. */
  lemma {:induction false} PendingAscending(s: seq<Entry>)
    requires IdsAscending(s)
    ensures IdsAscending(Pending(s))
    ensures |Pending(s)| > 0 ==> Pending(s)[0].id >= s[0].id
  {
    if |s| > 1 {
      PendingAscending(s[1..]);
    }
  }

  /** Appending an id above every id keeps the list ascending. */
  lemma {:induction false} AscendingAppend(s: seq<Entry>, e: Entry)
    requires IdsAscending(s)
    requires forall x :: x in s ==> x.id < e.id
    ensures IdsAscending(s + [e])
  {
    if |s| > 1 {
      assert (s + [e])[1..] == s[1..] + [e];
      AscendingAppend(s[1..], e);
    }
  }

  /** In an ascending list the entry with a given id is the only one. */
  lemma {:induction false} AscendingUnique(s: seq<Entry>, i: nat, j: nat)
    requires IdsAscending(s)
    requires i < j < |s|
    ensures s[i].id < s[j].id
    decreases |s|, j - i
  {
    if i == 0 {
      if j > 1 {
        AscendingUnique(s, 1, j);
      }
    } else {
      AscendingUnique(s[1..], i - 1, j - 1);
    }
  }

  class ResultsTableWidget {
    var experiments: seq<Entry>
    var nextId: nat
    var events: seq<TableEvent>

    /** Ids are counted from 1, handed out in ascending order and never reused. */
    ghost predicate Valid()
      reads this`experiments, this`nextId
    {
      nextId >= 1 && IdsAscending(experiments) &&
      (forall e :: e in experiments ==> 1 <= e.id < nextId)
    }

    constructor ()
      ensures Valid()
      ensures experiments == [] && nextId == 1 && events == []
    {
      experiments, nextId, events := [], 1, [];
    }

    /** Appends a queued entry under a fresh id and returns the id. */
    method AddExperiment(procedureType: string, parameters: map<string, real>) returns (id: nat)
      requires Valid()
      modifies this`experiments, this`nextId
      ensures Valid()
      ensures id == old(nextId) && nextId == id + 1
      ensures forall e :: e in old(experiments) ==> e.id < id
      ensures experiments == old(experiments) + [NewEntry(id, procedureType, parameters)]
    {
      id := nextId;
      AscendingAppend(experiments, NewEntry(id, procedureType, parameters));
      experiments, nextId := experiments + [NewEntry(id, procedureType, parameters)], nextId + 1;
    }

    /**
     * Applies a status update to the first entry with `id`, stopping there;
     * an unknown id changes nothing.
     */
    method UpdateStatus(id: nat, status: string, progress: Option<real>, error: Option<string>, now: int)
      requires Valid()
      modifies this`experiments
      ensures Valid()
      ensures IndexOf(old(experiments), id).None? ==> experiments == old(experiments)
      ensures IndexOf(old(experiments), id).Some? ==>
        var i := IndexOf(old(experiments), id).value;
        experiments == old(experiments)[i := Updated(old(experiments)[i], status, progress, error, now)]
    {
      var i := 0;
      while i < |experiments|
        invariant i <= |experiments|
        invariant forall j :: 0 <= j < i ==> experiments[j].id != id
        invariant experiments == old(experiments)
      {
        if experiments[i].id == id {
          experiments := experiments[i := Updated(experiments[i], status, progress, error, now)];
          UpdatedAscending(old(experiments), i, status, progress, error, now);
          return;
        }
        i := i + 1;
      }
    }

    /** `get_experiment`: the first entry with `id`, or None. */
    function GetExperiment(id: nat): (r: Option<Entry>)
      reads this`experiments
      ensures r.None? <==> forall e :: e in experiments ==> e.id != id
      ensures r.Some? ==> r.value in experiments && r.value.id == id
    {
      match IndexOf(experiments, id) {
        case None => None
        case Some(i) => Some(experiments[i])
      }
    }

    /** Drops every entry; the id counter keeps counting. */
    method Clear()
      requires Valid()
      modifies this`experiments
      ensures Valid()
      ensures experiments == [] && nextId == old(nextId)
    {
      experiments := [];
    }

    /** Keeps only the entries whose status is not terminal, in order. */
    method ClearCompleted()
      requires Valid()
      modifies this`experiments
      ensures Valid()
      ensures experiments == Pending(old(experiments))
    {
      PendingAscending(experiments);
      experiments := Pending(experiments);
    }

    /** Selecting a row reports the id of the experiment in that row, if there is one. */
    method OnSelectionChanged(row: Option<nat>)
      modifies this`events
      ensures row.Some? && row.value < |experiments| ==> events == old(events) + [Selected(experiments[row.value].id)]
      ensures !(row.Some? && row.value < |experiments|) ==> events == old(events)
    {
      if row.Some? && row.value < |experiments| {
        events := events + [Selected(experiments[row.value].id)];
      }
    }

    /** Double-clicking a row reports the id of the experiment in that row, if there is one. */
    method OnDoubleClicked(row: nat)
      modifies this`events
      ensures row < |experiments| ==> events == old(events) + [DoubleClicked(experiments[row].id)]
      ensures row >= |experiments| ==> events == old(events)
    {
      if row < |experiments| {
        events := events + [DoubleClicked(experiments[row].id)];
      }
    }
  }

  /** An update keeps every id, so it keeps the ids ascending. */
  lemma {:induction false} UpdatedAscending(s: seq<Entry>, i: nat, status: string, progress: Option<real>, error: Option<string>, now: int)
    requires i < |s| && IdsAscending(s)
    ensures IdsAscending(s[i := Updated(s[i], status, progress, error, now)])
  {
    if |s| > 1 && i > 0 {
      assert s[i := Updated(s[i], status, progress, error, now)][1..] == s[1..][i - 1 := Updated(s[i], status, progress, error, now)];
      UpdatedAscending(s[1..], i - 1, status, progress, error, now);
    }
  }

  /**
   * With ids ascending, the entry an update reaches is the one and only
   * entry with that id, and the id added last is found at the end.
   */
  lemma {:induction false} LastAddedFound(s: seq<Entry>, e: Entry)
    requires IdsAscending(s + [e])
    ensures IndexOf(s + [e], e.id) == Some(|s|)
  {
    var t := s + [e];
    var r := IndexOf(t, e.id);
    assert t[|s|].id == e.id;
    if r.value < |s| {
      AscendingUnique(t, r.value, |s|);
    }
  }
}
