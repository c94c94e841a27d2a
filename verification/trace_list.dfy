// The trace list beside the spectrum plot: one row per trace id, each with a
// visibility checkbox, a colour swatch, a label and a remove button, laid out
// top to bottom above a "Clear All" button. The rows dictionary is keyed by
// trace id; the row widgets sit in a vertical layout in the order they were
// inserted. The widget's signals are an event log; the buttons and the
// checkbox only emit requests and never change the rows themselves.
module TraceList {

  /** One row: the serial number of its row widget, its label, swatch colour and checkbox state. */
  datatype Row = Row(widget: nat, name: string, color: string, checked: bool)

  /** The signals `visibility_toggled`, `trace_remove_requested` and `clear_all_requested`. */
  datatype ListEvent =
    | VisibilityToggled(id: int, visible: bool)
    | RemoveRequested(id: int)
    | ClearAllRequested

  /** `s` without the widgets in `gone`, order kept. */
  function Drop(s: seq<nat>, gone: set<nat>): (r: seq<nat>)
    ensures |r| <= |s|
    ensures forall w :: w in r <==> w in s && w !in gone
  {
    if s == [] then []
    else if s[0] in gone then Drop(s[1..], gone)
    else [s[0]] + Drop(s[1..], gone)
  }

  /** Dropping two sets one after the other is dropping their union. */
  lemma {:induction false} DropTwice(s: seq<nat>, a: set<nat>, b: set<nat>)
    ensures Drop(Drop(s, a), b) == Drop(s, a + b)
  {
    if s != [] {
      DropTwice(s[1..], a, b);
      if s[0] !in a && s[0] !in b {
        assert Drop(s, a) == [s[0]] + Drop(s[1..], a);
        assert Drop([s[0]] + Drop(s[1..], a), b) == [s[0]] + Drop(Drop(s[1..], a), b) by {
          assert ([s[0]] + Drop(s[1..], a))[1..] == Drop(s[1..], a);
        }
      } else if s[0] !in a {
        assert Drop(s, a) == [s[0]] + Drop(s[1..], a);
        assert ([s[0]] + Drop(s[1..], a))[1..] == Drop(s[1..], a);
      }
    }
  }

  /** Dropping nothing keeps the sequence. */
  lemma {:induction false} DropNone(s: seq<nat>)
    ensures Drop(s, {}) == s
  {
    if s != [] {
      DropNone(s[1..]);
      assert s == [s[0]] + s[1..];
    }
  }

  /** The widget serials of the rows currently registered. */
  ghost function WidgetsOf(rows: map<int, Row>): (ws: set<nat>)
    ensures forall id :: id in rows ==> rows[id].widget in ws
    ensures forall w :: w in ws ==> exists id :: id in rows && rows[id].widget == w
  {
    set id | id in rows :: rows[id].widget
  }

  /** Removing one row removes exactly its widget from the widgets of the rows. */
  lemma {:induction false} WidgetsWithout(rows: map<int, Row>, id: int)
    requires id in rows
    ensures WidgetsOf(rows - {id}) + {rows[id].widget} == WidgetsOf(rows)
  {
    forall x | x in WidgetsOf(rows)
      ensures x in WidgetsOf(rows - {id}) + {rows[id].widget}
    {
      var y :| y in rows && rows[y].widget == x;
      if y != id {
        assert (rows - {id})[y].widget == x;
      }
    }
  }

  class TraceListWidget {
    var rows: map<int, Row>
    /** Row widgets in the layout, top to bottom (the trailing stretch is not listed). */
    var layout: seq<nat>
    var nextWidget: nat
    var events: seq<ListEvent>

    /**
     * Every registered row's widget is in the layout, no two rows share a
     * widget, and widget serials below `nextWidget` have been handed out.
     */
    ghost predicate Valid()
      reads this`rows, this`layout, this`nextWidget
    {
      (forall id :: id in rows ==> rows[id].widget in layout) &&
      (forall a, b :: a in rows && b in rows && a != b ==> rows[a].widget != rows[b].widget) &&
      (forall w :: w in layout ==> w < nextWidget)
    }

    /** `row_count`. */
    function RowCount(): (n: nat)
      reads this`rows
      ensures n == 0 <==> rows == map[]
    {
      |rows|
    }

    constructor ()
      ensures Valid()
      ensures rows == map[] && layout == [] && nextWidget == 0 && events == []
    {
      rows, layout, nextWidget, events := map[], [], 0, [];
    }

    /**
     * Adds a row for `id` under the rows already shown, its checkbox
     * checked. A row already registered for `id` is replaced in the
     * dictionary, but its widget stays in the layout.
     */
    method AddTrace(id: int, name: string, color: string)
      requires Valid()
      modifies this`rows, this`layout, this`nextWidget
      ensures Valid()
      ensures rows == old(rows)[id := Row(old(nextWidget), name, color, true)]
      ensures layout == old(layout) + [old(nextWidget)]
      ensures nextWidget == old(nextWidget) + 1 && old(nextWidget) !in old(layout)
      ensures RowCount() == old(RowCount()) + (if id in old(rows) then 0 else 1)
    {
      var w := nextWidget;
      rows, layout, nextWidget := rows[id := Row(w, name, color, true)], layout + [w], w + 1;
      if id in old(rows) {
        assert rows.Keys == old(rows).Keys;
      } else {
        assert rows.Keys == old(rows).Keys + {id};
      }
    }

    /** Removes the row of `id` and its widget; an unknown id is ignored. */
    method RemoveTrace(id: int)
      requires Valid()
      modifies this`rows, this`layout
      ensures Valid()
      ensures id !in old(rows) ==> rows == old(rows) && layout == old(layout)
      ensures id in old(rows) ==> rows == old(rows) - {id} && layout == Drop(old(layout), {old(rows)[id].widget})
      ensures RowCount() == old(RowCount()) - (if id in old(rows) then 1 else 0)
    {
      if id !in rows {
        return;
      }
      var w := rows[id].widget;
      rows, layout := rows - {id}, Drop(layout, {w});
      assert old(rows).Keys == rows.Keys + {id};
      forall other | other in rows
        ensures rows[other].widget in layout
      {
        assert old(rows)[other].widget != w;
      }
    }

    /**
     * Removes every registered row, one id at a time. Widgets of rows that
     * were replaced by a later `AddTrace` of the same id stay in the layout.
     */
    method Clear()
      requires Valid()
      modifies this`rows, this`layout
      ensures Valid()
      ensures rows == map[]
      ensures layout == Drop(old(layout), WidgetsOf(old(rows)))
    {
      var pending := rows.Keys;
      ghost var removed: set<nat> := {};
      DropNone(layout);
      while pending != {}
        invariant Valid()
        invariant rows.Keys == pending
        invariant Cleared(old(rows), old(layout), removed)
        decreases pending
      {
        var id :| id in pending;
        removed := ClearOne(id, old(rows), old(layout), removed);
        pending := pending - {id};
      }
      assert WidgetsOf(rows) == {};
    }

    /** After removing the widgets in `removed`, the rest of `rows0` is still registered. */
    ghost predicate Cleared(rows0: map<int, Row>, layout0: seq<nat>, removed: set<nat>)
      reads this`rows, this`layout
    {
      removed + WidgetsOf(rows) == WidgetsOf(rows0) && layout == Drop(layout0, removed)
    }

    /** One pass of `Clear`: removes the row of `id` and adds its widget to the removed ones. */
    method ClearOne(id: int, ghost rows0: map<int, Row>, ghost layout0: seq<nat>, ghost removed: set<nat>)
      returns (ghost removed': set<nat>)
      requires Valid() && id in rows && Cleared(rows0, layout0, removed)
      modifies this`rows, this`layout
      ensures Valid() && rows == old(rows) - {id}
      ensures Cleared(rows0, layout0, removed')
    {
      var w := rows[id].widget;
      WidgetsWithout(rows, id);
      DropTwice(layout0, removed, {w});
      RemoveTrace(id);
      removed' := removed + {w};
    }

    /** A checkbox toggle only reports the new state of that trace. */
    method ToggleVisibility(id: int, visible: bool)
      modifies this`events
      ensures events == old(events) + [VisibilityToggled(id, visible)]
    {
      events := events + [VisibilityToggled(id, visible)];
    }

    /** The remove button only asks for the trace to be removed. */
    method RequestRemove(id: int)
      modifies this`events
      ensures events == old(events) + [RemoveRequested(id)]
    {
      events := events + [RemoveRequested(id)];
    }

    /** "Clear All" only asks for every trace to be removed. */
    method RequestClearAll()
      modifies this`events
      ensures events == old(events) + [ClearAllRequested]
    {
      events := events + [ClearAllRequested];
    }
  }

  /**
   * Adding the same id twice and then clearing leaves no registered row but
   * one widget still in the layout: the one the second add replaced.
   */
  method ReAddThenClear(id: int) returns (count: nat, shown: nat)
    ensures count == 0 && shown == 1
  {
    var w := new TraceListWidget();
    w.AddTrace(id, "a", "#1f77b4");
    w.AddTrace(id, "b", "#ff7f0e");
    assert w.rows == map[id := Row(1, "b", "#ff7f0e", true)];
    assert w.layout == [0, 1];
    w.Clear();
    assert WidgetsOf(map[id := Row(1, "b", "#ff7f0e", true)]) == {1};
    assert Drop([0, 1], {1}) == [0];
    count, shown := w.RowCount(), |w.layout|;
  }
}
