/**
 * The dashboard window (`MainWindow`): the feedback table, the three vehicle
 * columns of the general page, and the confirmation/rejection line, with the
 * operations that change them.
 */
module TabbedWindow {
  import opened StatusMessages
  import opened FeedbackTable
  import opened Layouts
  import opened GeneralPage
  import opened Commands

  class MainWindow {
    /** `feedback_dict`: what is known of each vehicle. */
    var feedback: Table
    /** The layouts of the general page's columns for Cougs 1, 2 and 3. */
    var column1: Layout
    var column2: Layout
    var column3: Layout
    /** The text of the confirmation/rejection label. */
    var confirmReject: string

    /** The column of vehicle `n`, as `general_page_C{n}_layout` names it. */
    function ColumnOf(n: int): Layout
      requires n in Vehicles
      reads this
    {
      if n == 1 then column1 else if n == 2 then column2 else column3
    }

    /** Every column carries a widget under the name of each of its vehicle's entries. */
    ghost predicate Named()
      reads this
    {
      AllNamed(column1, column2, column3)
    }

    /** The table keeps its fixed shape, and every entry's widget can be found. */
    ghost predicate Valid()
      reads this
    {
      ValidTable(feedback) && Named()
    }

    /**
     * The window as it opens: the initial table, drawn into freshly built
     * columns, and the opening feedback line.
     */
    constructor ()
      ensures AsOpened(feedback, column1, column2, column3, confirmReject) && Valid()
    {
      var t, c1, c2, c3, line := OpeningState();
      feedback, column1, column2, column3, confirmReject := t, c1, c2, c3, line;
    }

    /**
     * `replace_label` on the column of vehicle `n`: the widget found under
     * `name` is removed and a widget `w` with that object name and colour
     * `color` is inserted at its index; a missing name changes nothing.
     */
    method ReplaceLabel(name: string, n: int, w: Widget, color: string) returns (found: bool)
      requires n in Vehicles
      modifies this
      ensures found <==> Find(old(ColumnOf(n)), name).Some?
      ensures column1 == if n == 1 then Replace(old(column1), name, Child(name, w, color)) else old(column1)
      ensures column2 == if n == 2 then Replace(old(column2), name, Child(name, w, color)) else old(column2)
      ensures column3 == if n == 3 then Replace(old(column3), name, Child(name, w, color)) else old(column3)
      ensures feedback == old(feedback) && confirmReject == old(confirmReject)
      ensures old(Valid()) ==> Valid()
    {
      ghost var wasValid, before := Valid(), ColumnOf(n);
      var layout := ColumnOf(n);
      var index := Find(layout, name);
      if index.None? {
        return false;
      }
      var i := index.value;
      var removed := layout[..i] + layout[i + 1..];
      assert removed[..i] == layout[..i] && removed[i..] == layout[i + 1..];
      layout := removed[..i] + [Child(name, w, color)] + removed[i..];
      if n == 1 {
        column1 := layout;
      } else if n == 2 {
        column2 := layout;
      } else {
        column3 := layout;
      }
      found := true;
      if wasValid {
        assert ColumnOf(n) == Replace(before, name, Child(name, w, color));
        NamedAfterReplace(column1, column2, column3, before, n, name, Child(name, w, color));
      }
    }

    /**
     * `set_random_data`: every key of the table, in the table's order, has
     * its entries overwritten from its draws and their widgets redrawn. The
     * window keeps its shape, the table becomes the drawn table, and each
     * column is its old self with every entry's widget redrawn, in that
     * order, from the new table.
     */
    method SetRandomData(draws: map<string, map<int, int>>)
      requires Valid() && ValidDraws(draws)
      modifies this
      ensures Valid()
      ensures feedback == DrawnTable(draws)
      ensures column1 == Redrawn(old(column1), TableKeys, 1, feedback)
      ensures column2 == Redrawn(old(column2), TableKeys, 2, feedback)
      ensures column3 == Redrawn(old(column3), TableKeys, 3, feedback)
      ensures confirmReject == old(confirmReject)
    {
      ghost var start := feedback;
      ghost var drawn := DrawnTable(draws);
      PartialStart(start, drawn);
      ghost var done: seq<string> := [];
      for i := 0 to |TableKeys|
        invariant done == TableKeys[..i]
        invariant confirmReject == old(confirmReject)
        invariant Named()
        invariant Progress(start, drawn, old(column1), old(column2), old(column3), done)
      {
        var key := TableKeys[i];
        RedrawNext(start, draws, done, key, old(column1), old(column2), old(column3));
        TakeOneMore(TableKeys, i);
        done := done + [key];
      }
      TakeAll(TableKeys, done);
      PartialAll(start, drawn, done);
    }

    /**
     * Part-way through `set_random_data`, once the keys `done` have been
     * handled: the table holds the drawn rows of those keys and the starting
     * rows of all others, and each column, starting from `c1`, `c2` and `c3`,
     * has had exactly those keys' widgets redrawn.
     */
    ghost predicate Progress(start: Table, drawn: Table, c1: Layout, c2: Layout, c3: Layout, done: seq<string>)
      reads this
    {
      start.Keys == drawn.Keys && ValidTable(drawn) && TableKeysOnly(done) &&
      feedback == Partial(start, drawn, done) &&
      column1 == Redrawn(c1, done, 1, drawn) &&
      column2 == Redrawn(c2, done, 2, drawn) &&
      column3 == Redrawn(c3, done, 3, drawn)
    }

    /** One round of the outer loop of `set_random_data`: the row of `key` is drawn and redrawn. */
    method RedrawNext(ghost start: Table, draws: map<string, map<int, int>>, ghost done: seq<string>,
                      key: string, ghost c1: Layout, ghost c2: Layout, ghost c3: Layout)
      requires ValidTable(start) && ValidDraws(draws) && key in TableKeys
      requires Progress(start, DrawnTable(draws), c1, c2, c3, done) && Named()
      modifies this
      ensures Progress(start, DrawnTable(draws), c1, c2, c3, done + [key]) && Named()
      ensures confirmReject == old(confirmReject)
    {
      KeyStep(start, draws, done, key, c1, c2, c3);
      NamesKept(column1, column2, column3, key, draws[key]);
      RedrawKey(key, draws[key]);
    }

    /**
     * The inner loop of `set_random_data` for one key: Coug by Coug, the
     * entry is overwritten from its draw in `row` and its widget redrawn.
     * The key's row becomes the drawn row, and in each column exactly that
     * key's widget is redrawn.
     */
    method RedrawKey(key: string, row: map<int, int>)
      requires row.Keys == Vehicles && ValidDrawRow(key, row)
      requires key in feedback && feedback[key].Keys == Vehicles
      modifies this
      ensures feedback == old(feedback)[key := DrawnRow(key, row)]
      ensures column1 == Replace(old(column1), WidgetName(key, 1), UpdatedItem(key, DrawnEntry(key, row[1]), 1))
      ensures column2 == Replace(old(column2), WidgetName(key, 2), UpdatedItem(key, DrawnEntry(key, row[2]), 2))
      ensures column3 == Replace(old(column3), WidgetName(key, 3), UpdatedItem(key, DrawnEntry(key, row[3]), 3))
      ensures confirmReject == old(confirmReject)
    {
      ghost var before := feedback[key];
      ghost var drawn := DrawnRow(key, row);
      MixStart(before, drawn);
      var n := 1;
      while n <= 3
        invariant 1 <= n <= 4
        invariant confirmReject == old(confirmReject)
        invariant feedback == old(feedback)[key := Mix(before, drawn, n)]
        invariant column1 == if 1 < n then Replace(old(column1), WidgetName(key, 1), UpdatedItem(key, DrawnEntry(key, row[1]), 1)) else old(column1)
        invariant column2 == if 2 < n then Replace(old(column2), WidgetName(key, 2), UpdatedItem(key, DrawnEntry(key, row[2]), 2)) else old(column2)
        invariant column3 == if 3 < n then Replace(old(column3), WidgetName(key, 3), UpdatedItem(key, DrawnEntry(key, row[3]), 3)) else old(column3)
      {
        MixStep(before, drawn, n);
        ghost var current := feedback;
        if key in MessageKeys {
          var message := RandomMessages[row[n]];
          assert Text(message) == drawn[n];
          WriteEntry(key, n, Text(message));
        } else {
          assert Level(row[n]) == drawn[n];
          WriteEntry(key, n, Level(row[n]));
        }
        assert feedback == current[key := Mix(before, drawn, n + 1)];
        UpdateTwice(old(feedback), key, Mix(before, drawn, n), Mix(before, drawn, n + 1));
        n := n + 1;
      }
      MixEnd(before, drawn);
    }

    /**
     * One step of `set_random_data`: entry `e` is stored under `key` for
     * Coug `n`, and the widget of that entry is redrawn from it through
     * `replace_label`: a message label coloured by its classification, or
     * the icon of the stored state next to the key's prefix.
     */
    method WriteEntry(key: string, n: int, e: Entry)
      requires n in Vehicles && key in feedback && ValidEntry(key, e)
      modifies this
      ensures feedback == old(feedback)[key := old(feedback)[key][n := e]]
      ensures column1 == if n == 1 then Replace(old(column1), WidgetName(key, n), UpdatedItem(key, e, n)) else old(column1)
      ensures column2 == if n == 2 then Replace(old(column2), WidgetName(key, n), UpdatedItem(key, e, n)) else old(column2)
      ensures column3 == if n == 3 then Replace(old(column3), WidgetName(key, n), UpdatedItem(key, e, n)) else old(column3)
      ensures confirmReject == old(confirmReject)
    {
      feedback := feedback[key := feedback[key][n := e]];
      if key in MessageKeys {
        var color := Classify(e.text).color;
        var _ := ReplaceLabel(WidgetName(key, n), n, Label(e.text), color);
      } else {
        var icon := IconFor(feedback[key][n]);
        var _ := ReplaceLabel(WidgetName(key, n), n, IconText(SplitPrefix(key), icon), "");
      }
    }

    /** `load_missions_button`. */
    method LoadMissions()
      modifies this`confirmReject
      ensures confirmReject == FeedbackText(Command.LoadMissions, true)
      ensures old(Valid()) ==> Valid()
    {
      confirmReject := "Loading the missions...";
    }

    /** `start_missions_button`. */
    method StartMissions()
      modifies this`confirmReject
      ensures confirmReject == FeedbackText(Command.StartMissions, true)
      ensures old(Valid()) ==> Valid()
    {
      confirmReject := "Starting the missions...";
    }

    /** `recallCougs`. */
    method RecallCougs()
      modifies this`confirmReject
      ensures confirmReject == FeedbackText(Command.RecallCougs, true)
      ensures old(Valid()) ==> Valid()
    {
      confirmReject := "Recalling the Cougs...";
    }

    /** `AbortAllMissions`; `accepted` is the answer given in the confirmation dialog. */
    method AbortAllMissions(accepted: bool)
      modifies this`confirmReject
      ensures confirmReject == FeedbackText(AbortAll, accepted)
      ensures old(Valid()) ==> Valid()
    {
      if accepted {
        confirmReject := "Aborting all missions...";
      } else {
        confirmReject := "Canceling abort missions command...";
      }
    }
  }

  /**
   * The state the window opens with: the initial table, each column built
   * from it and carrying a widget under the name of each of its entries, and
   * the opening text of the feedback line.
   */
  ghost predicate AsOpened(t: Table, c1: Layout, c2: Layout, c3: Layout, line: string) {
    t == InitialTable && ValidTable(t) &&
    c1 == Column(t, 1) && c2 == Column(t, 2) && c3 == Column(t, 3) &&
    AllNamed(c1, c2, c3) && line == InitialFeedback
  }

  /** `feedback_dict` as the window starts with it, the three columns built from it, and the feedback line. */
  method OpeningState() returns (t: Table, c1: Layout, c2: Layout, c3: Layout, line: string)
    ensures AsOpened(t, c1, c2, c3, line)
  {
    InitialTableValid();
    t := InitialTable;
    c1, c2, c3 := BuildColumns(t);
    line := InitialFeedback;
  }

  /** Every column carries a widget under the name of each of its vehicle's entries. */
  ghost predicate AllNamed(c1: Layout, c2: Layout, c3: Layout) {
    CarriesNames(c1, 1) && CarriesNames(c2, 2) && CarriesNames(c3, 3)
  }

  /**
   * When column `n` has become `before` with the widget named `name`
   * replaced by one of the same name, and the other columns and `before`
   * carry every entry's name, so do all three columns.
   */
  lemma NamedAfterReplace(c1: Layout, c2: Layout, c3: Layout, before: Layout, n: int, name: string, it: Item)
    requires n in Vehicles && HasName(it, name) && CarriesNames(before, n)
    requires (if n == 1 then c1 else if n == 2 then c2 else c3) == Replace(before, name, it)
    requires n != 1 ==> CarriesNames(c1, 1)
    requires n != 2 ==> CarriesNames(c2, 2)
    requires n != 3 ==> CarriesNames(c3, 3)
    ensures AllNamed(c1, c2, c3)
  {
    ReplaceKeepsNames(before, name, it, n);
  }

  /**
   * Redrawing the widgets of `key` from `row` leaves every column carrying
   * every entry's name.
   */
  lemma NamesKept(c1: Layout, c2: Layout, c3: Layout, key: string, row: map<int, int>)
    requires AllNamed(c1, c2, c3) && key in KeySet && row.Keys == Vehicles && ValidDrawRow(key, row)
    ensures AllNamed(Replace(c1, WidgetName(key, 1), UpdatedItem(key, DrawnEntry(key, row[1]), 1)),
                     Replace(c2, WidgetName(key, 2), UpdatedItem(key, DrawnEntry(key, row[2]), 2)),
                     Replace(c3, WidgetName(key, 3), UpdatedItem(key, DrawnEntry(key, row[3]), 3)))
  {
    ReplaceKeepsNames(c1, WidgetName(key, 1), UpdatedItem(key, DrawnEntry(key, row[1]), 1), 1);
    ReplaceKeepsNames(c2, WidgetName(key, 2), UpdatedItem(key, DrawnEntry(key, row[2]), 2), 2);
    ReplaceKeepsNames(c3, WidgetName(key, 3), UpdatedItem(key, DrawnEntry(key, row[3]), 3), 3);
  }

  /**
   * What one round of the outer loop of `set_random_data` needs, once the
   * keys `done` have been handled and `key` comes next: the row of `key` can
   * be written, writing it extends the handled keys by `key`, and redrawing
   * that key's widget extends each column's redraw by `key`.
   */
  lemma KeyStep(start: Table, draws: map<string, map<int, int>>, done: seq<string>, key: string,
                c1: Layout, c2: Layout, c3: Layout)
    requires ValidTable(start) && ValidDraws(draws) && TableKeysOnly(done) && key in TableKeys
    ensures key in KeySet && ValidTable(DrawnTable(draws))
    ensures TableKeysOnly(done + [key])
    ensures key in draws && draws[key].Keys == Vehicles && ValidDrawRow(key, draws[key])
    ensures key in Partial(start, DrawnTable(draws), done)
    ensures Partial(start, DrawnTable(draws), done)[key].Keys == Vehicles
    ensures Partial(start, DrawnTable(draws), done)[key := DrawnRow(key, draws[key])]
      == Partial(start, DrawnTable(draws), done + [key])
    ensures Redrawn(c1, done + [key], 1, DrawnTable(draws)) ==
      Replace(Redrawn(c1, done, 1, DrawnTable(draws)), WidgetName(key, 1),
              UpdatedItem(key, DrawnEntry(key, draws[key][1]), 1))
    ensures Redrawn(c2, done + [key], 2, DrawnTable(draws)) ==
      Replace(Redrawn(c2, done, 2, DrawnTable(draws)), WidgetName(key, 2),
              UpdatedItem(key, DrawnEntry(key, draws[key][2]), 2))
    ensures Redrawn(c3, done + [key], 3, DrawnTable(draws)) ==
      Replace(Redrawn(c3, done, 3, DrawnTable(draws)), WidgetName(key, 3),
              UpdatedItem(key, DrawnEntry(key, draws[key][3]), 3))
  {
    var drawn := DrawnTable(draws);
    assert key in KeySet;
    DrawnRowOf(draws, key);
    PartialRow(start, drawn, done, key);
    assert start[key].Keys == Vehicles && drawn[key].Keys == Vehicles;
    PartialStep(start, drawn, done, key);
    RedrawnAppend(c1, done, key, 1, drawn);
    RedrawnAppend(c2, done, key, 2, drawn);
    RedrawnAppend(c3, done, key, 3, drawn);
  }

  lemma TakeOneMore(keys: seq<string>, i: nat)
    requires i < |keys|
    ensures keys[..i] + [keys[i]] == keys[..i + 1]
  {
  }

  /**
   * The table part-way through `set_random_data`: the rows of the keys
   * `done` come from `d`, every other row is still that of `t0`.
   */
  ghost function Partial(t0: Table, d: Table, done: seq<string>): Table
    requires t0.Keys == d.Keys
  {
    map k | k in t0 :: if k in done then d[k] else t0[k]
  }

  lemma PartialStart(t0: Table, d: Table)
    requires t0.Keys == d.Keys
    ensures Partial(t0, d, []) == t0
  {
  }

  /** Part-way through, every row is either still the old one or already the new one. */
  lemma PartialRow(t0: Table, d: Table, done: seq<string>, k: string)
    requires t0.Keys == d.Keys && k in t0
    ensures k in Partial(t0, d, done)
    ensures Partial(t0, d, done)[k] == t0[k] || Partial(t0, d, done)[k] == d[k]
  {
  }

  /** Writing the row of one more key extends the handled keys by it. */
  lemma PartialStep(t0: Table, d: Table, done: seq<string>, k: string)
    requires t0.Keys == d.Keys && k in t0
    ensures Partial(t0, d, done)[k := d[k]] == Partial(t0, d, done + [k])
  {
  }

  /** Once every key is handled, the table is `d`. */
  lemma PartialEnd(t0: Table, d: Table, done: seq<string>)
    requires t0.Keys == d.Keys
    requires forall k :: k in t0 ==> k in done
    ensures Partial(t0, d, done) == d
  {
  }

  lemma PartialAll(t0: Table, d: Table, done: seq<string>)
    requires t0.Keys == KeySet && d.Keys == KeySet && done == TableKeys
    ensures Partial(t0, d, done) == d
  {
    PartialEnd(t0, d, done);
  }

  /** A prefix as long as the whole sequence is the whole sequence. */
  lemma TakeAll(keys: seq<string>, done: seq<string>)
    requires done == keys[..|keys|]
    ensures done == keys
  {
  }

  lemma UpdateTwice(t: Table, key: string, a: map<int, Entry>, b: map<int, Entry>)
    ensures t[key := a][key := b] == t[key := b]
  {
  }

  /** A row part-way through the inner loop: the Cougs before `n` hold their new entries. */
  ghost function Mix(row: map<int, Entry>, drow: map<int, Entry>, n: int): map<int, Entry>
    requires row.Keys == drow.Keys
  {
    map m | m in row :: if m < n then drow[m] else row[m]
  }

  lemma MixStart(row: map<int, Entry>, drow: map<int, Entry>)
    requires row.Keys == Vehicles && drow.Keys == Vehicles
    ensures Mix(row, drow, 1) == row
  {
    forall m | m in row ensures 1 <= m {
      VehicleRange(m);
    }
  }

  /** Writing Coug `n`'s entry advances the row by one Coug. */
  lemma MixStep(row: map<int, Entry>, drow: map<int, Entry>, n: int)
    requires row.Keys == drow.Keys && n in row
    ensures Mix(row, drow, n)[n := drow[n]] == Mix(row, drow, n + 1)
  {
  }

  /** After Coug 3, the row is the new row. */
  lemma MixEnd(row: map<int, Entry>, drow: map<int, Entry>)
    requires row.Keys == Vehicles && drow.Keys == Vehicles
    ensures Mix(row, drow, 4) == drow
  {
    forall m | m in row ensures m < 4 {
      VehicleRange(m);
    }
  }
}
