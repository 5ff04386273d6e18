/**
 * The vehicle columns of the general page (`set_general_page_column_widgets`)
 * and the widgets the data update draws into them (`set_random_data`): the
 * object-name scheme `key + str(n)`, the label text taken from a key, the
 * construction of a column and the item redrawn for a table entry.
 */
module GeneralPage {
  import opened StatusMessages
  import opened FeedbackTable
  import opened Layouts

  /** Python's `str(n)` for a one-digit number. */
  function DigitString(n: int): (s: string)
    requires 0 <= n <= 9
  {
    [(48 + n) as char]
  }

  /** The object name of the widget showing entry `key` of vehicle `n`. */
  function WidgetName(key: string, n: int): (name: string)
    requires n in Vehicles
  {
    key + DigitString(n)
  }

  /** Different (key, vehicle) pairs name different widgets. */
  lemma WidgetNameInjective(k1: string, n1: int, k2: string, n2: int)
    requires n1 in Vehicles && n2 in Vehicles
    ensures WidgetName(k1, n1) == WidgetName(k2, n2) <==> k1 == k2 && n1 == n2
  {
    if WidgetName(k1, n1) == WidgetName(k2, n2) {
      var w := WidgetName(k1, n1);
      assert |k1| == |k2|;
      assert w[..|k1|] == k1;
      assert w[..|k2|] == k2;
      assert w[|k1|] == (48 + n1) as char && w[|k2|] == (48 + n2) as char;
    }
  }

  /** `key.split("_")[0]`: the part of `s` before its first underscore. */
  function SplitPrefix(s: string): (r: string)
    ensures r <= s && '_' !in r
    ensures |r| < |s| ==> s[|r|] == '_'
  {
    if s == [] || s[0] == '_' then [] else [s[0]] + SplitPrefix(s[1..])
  }

  /** The part before the first underscore of `a_b` is `a`, when `a` has none. */
  lemma {:induction false} SplitPrefixOf(a: string, b: string)
    requires '_' !in a
    ensures SplitPrefix(a + "_" + b) == a
  {
    if a == [] {
      assert a + "_" + b == "_" + b;
    } else {
      assert a[0] in a;
      assert (a + "_" + b)[0] == a[0];
      assert (a + "_" + b)[1..] == a[1..] + "_" + b;
      SplitPrefixOf(a[1..], b);
    }
  }

  /** One row under a section title. */
  datatype Row =
    | IconRow(text: string, suffix: string)  // a channel `text + "_" + suffix`, shown as `text` and an icon
    | StatusRow                              // the classified status message
    | LastMessageRow                         // the last message received

  /** The table key a row shows, which is also the stem of its widget's name. */
  function RowKey(r: Row): string {
    match r
    case IconRow(text, suffix) => text + "_" + suffix
    case StatusRow => StatusKey
    case LastMessageRow => LastKey
  }

  /** A row that can be drawn from a table of the fixed shape. */
  predicate RowFits(r: Row) {
    r.IconRow? ==> RowKey(r) in ChannelKeys && '_' !in r.text
  }

  datatype Section = Section(title: string, rows: seq<Row>)

  /** The sections of a vehicle column, in order, with the text of each icon row. */
  const Sections: seq<Section> := [
    Section("Connections", [
      IconRow("Wifi", "connections"),
      IconRow("Radio", "connections"),
      IconRow("Modem", "connections")]),
    Section("Sensors", [
      IconRow("Modem", "sensors"),
      IconRow("DVL", "sensors"),
      IconRow("GPS", "sensors"),
      IconRow("IMU", "sensors")]),
    Section("Status", [StatusRow]),
    Section("Last Message", [LastMessageRow])
  ]

  predicate SectionFits(s: Section) {
    forall r :: r in s.rows ==> RowFits(r)
  }

  predicate SectionsFit(ss: seq<Section>) {
    forall s :: s in ss ==> SectionFits(s)
  }

  const NoMessagesReceived := "No messages have been recieved"

  /** The widget a column is built with for one row. */
  function ConstructionItem(r: Row, t: Table, n: int): (it: Item)
    requires ValidTable(t) && n in Vehicles && RowFits(r)
    ensures HasName(it, WidgetName(RowKey(r), n))
  {
    var name := WidgetName(RowKey(r), n);
    match r
    case IconRow(text, _) =>
      IconLookupDefined(t, RowKey(r), n);
      Child(name, IconText(text, IconFor(t[RowKey(r)][n])), "")
    case StatusRow =>
      var d := Classify(t[StatusKey][n].text);
      Child(name, Label(d.text), d.color)
    case LastMessageRow =>
      if t[StatusKey][n].text != "" then Child(name, Label(t[LastKey][n].text), "")
      else Child(name, Label(NoMessagesReceived), "orange")
  }

  /** The rows of a section, each followed by 20 pixels of spacing, 40 after the last. */
  function RowItems(rows: seq<Row>, t: Table, n: int): (r: Layout)
    requires ValidTable(t) && n in Vehicles
    requires forall r :: r in rows ==> RowFits(r)
    ensures |r| == 2 * |rows|
  {
    if rows == [] then []
    else [ConstructionItem(rows[0], t, n), Spacing(if |rows| == 1 then 40 else 20)] +
         RowItems(rows[1..], t, n)
  }

  /** A section: its title, 20 pixels, then its rows. */
  function SectionItems(s: Section, t: Table, n: int): (r: Layout)
    requires ValidTable(t) && n in Vehicles && SectionFits(s)
    ensures |r| == 2 * |s.rows| + 2
  {
    [Child("", Heading(s.title), ""), Spacing(20)] + RowItems(s.rows, t, n)
  }

  function SectionsItems(ss: seq<Section>, t: Table, n: int): Layout
    requires ValidTable(t) && n in Vehicles && SectionsFit(ss)
  {
    if ss == [] then []
    else SectionsItems(ss[..|ss| - 1], t, n) + SectionItems(ss[|ss| - 1], t, n)
  }

  /** The column heading and the spacing under it; neither carries an object name. */
  function ColumnHeader(n: int): (r: Layout)
    requires n in Vehicles
    ensures forall it :: it in r ==> Tag(it) == None || Tag(it) == Some("")
  {
    [Child("", Heading("Coug " + DigitString(n) + ":"), ""), Spacing(20)]
  }

  /**
   * The whole column of vehicle `n`, drawn from table `t`; it ends with the
   * stretching spacer that keeps the widgets at the top.
   */
  function Column(t: Table, n: int): (c: Layout)
    requires ValidTable(t) && n in Vehicles
    ensures |c| >= 3 && c[|c| - 1] == Stretch
  {
    SectionsFitTable();
    ColumnHeader(n) + SectionsItems(Sections, t, n) + [Stretch]
  }

  /** Builds the column of vehicle `n` section by section, as the window's constructor does. */
  method BuildColumn(t: Table, n: int) returns (layout: Layout)
    requires ValidTable(t) && n in Vehicles
    ensures layout == Column(t, n)
  {
    SectionsFitTable();
    layout := ColumnHeader(n);
    var i := 0;
    while i < |Sections|
      invariant 0 <= i <= |Sections|
      invariant layout == ColumnHeader(n) + SectionsItems(Sections[..i], t, n)
    {
      SectionsItemsStep(Sections, i, t, n);
      var items := SectionItems(Sections[i], t, n);
      ConcatAssoc(ColumnHeader(n), SectionsItems(Sections[..i], t, n), items);
      layout := layout + items;
      i := i + 1;
    }
    WholePrefix(Sections, i);
    layout := layout + [Stretch];
  }

  lemma WholePrefix(ss: seq<Section>, i: nat)
    requires i == |ss|
    ensures ss[..i] == ss
  {
  }

  lemma ConcatAssoc(a: Layout, b: Layout, c: Layout)
    ensures (a + b) + c == a + (b + c)
  {
  }

  /**
   * Builds the columns of Cougs 1 to 3 from table `t`; each carries a widget
   * under the name of every entry of its vehicle.
   */
  method BuildColumns(t: Table) returns (c1: Layout, c2: Layout, c3: Layout)
    requires ValidTable(t)
    ensures c1 == Column(t, 1) && c2 == Column(t, 2) && c3 == Column(t, 3)
    ensures CarriesNames(c1, 1) && CarriesNames(c2, 2) && CarriesNames(c3, 3)
  {
    c1 := BuildColumn(t, 1);
    c2 := BuildColumn(t, 2);
    c3 := BuildColumn(t, 3);
    forall k | k in KeySet
      ensures Find(c1, WidgetName(k, 1)).Some? && Find(c2, WidgetName(k, 2)).Some? && Find(c3, WidgetName(k, 3)).Some?
    {
      ColumnNamesEachKeyOnce(t, 1, k);
      ColumnNamesEachKeyOnce(t, 2, k);
      ColumnNamesEachKeyOnce(t, 3, k);
    }
  }

  /** A prefix of fitting sections fits, and one more section adds its own items. */
  lemma SectionsItemsStep(ss: seq<Section>, i: nat, t: Table, n: int)
    requires ValidTable(t) && n in Vehicles && SectionsFit(ss) && i < |ss|
    ensures SectionsFit(ss[..i]) && SectionsFit(ss[..i + 1])
    ensures SectionsItems(ss[..i + 1], t, n) == SectionsItems(ss[..i], t, n) + SectionItems(ss[i], t, n)
  {
    assert ss[..i + 1][..i] == ss[..i];
    assert ss[..i + 1][i] == ss[i];
  }

  // ----- which names a column carries

  function RowKeys(rows: seq<Row>): seq<string> {
    if rows == [] then [] else [RowKey(rows[0])] + RowKeys(rows[1..])
  }

  function SectionKeys(ss: seq<Section>): seq<string> {
    if ss == [] then [] else SectionKeys(ss[..|ss| - 1]) + RowKeys(ss[|ss| - 1].rows)
  }

  function KeyCount(ks: seq<string>, k: string): nat {
    if ks == [] then 0 else (if ks[0] == k then 1 else 0) + KeyCount(ks[1..], k)
  }

  lemma {:induction false} KeyCountAppend(a: seq<string>, b: seq<string>, k: string)
    ensures KeyCount(a + b, k) == KeyCount(a, k) + KeyCount(b, k)
  {
    if a == [] {
      assert a + b == b;
    } else {
      assert (a + b)[0] == a[0];
      assert (a + b)[1..] == a[1..] + b;
      KeyCountAppend(a[1..], b, k);
    }
  }

  /** The rows of the column, read in order, are exactly the table's keys. */
  lemma SectionsCoverTable()
    ensures SectionsFit(Sections)
    ensures SectionKeys(Sections) == TableKeys
  {
    SectionsFitTable();
    IconRowKeys();
    assert Sections[..4][..3] == Sections[..3];
    assert Sections[..3][..2] == Sections[..2];
    assert Sections[..2][..1] == Sections[..1];
    assert Sections[..1][..0] == [];
    assert Sections[..4] == Sections;
    assert RowKeys(Sections[0].rows) == ChannelKeys[..3];
    assert RowKeys(Sections[1].rows) == ChannelKeys[3..];
    assert SectionKeys(Sections[..1]) == ChannelKeys[..3];
    assert SectionKeys(Sections[..2]) == ChannelKeys;
    assert SectionKeys(Sections[..3]) == ChannelKeys + [StatusKey];
  }

  /** The key of each icon row is the channel key at the same position. */
  lemma IconRowKeys()
    ensures |Sections[0].rows| == 3 && |Sections[1].rows| == 4
    ensures forall j :: 0 <= j < 3 ==> RowKey(Sections[0].rows[j]) == ChannelKeys[j]
    ensures forall j :: 0 <= j < 4 ==> RowKey(Sections[1].rows[j]) == ChannelKeys[3 + j]
  {
    ConnectionRowKeys();
    SensorRowKeys();
  }

  lemma ConnectionRowKeys()
    ensures "Wifi" + "_" + "connections" == ChannelKeys[0]
    ensures "Radio" + "_" + "connections" == ChannelKeys[1]
    ensures "Modem" + "_" + "connections" == ChannelKeys[2]
  {
  }

  lemma SensorRowKeys()
    ensures "Modem" + "_" + "sensors" == ChannelKeys[3]
    ensures "DVL" + "_" + "sensors" == ChannelKeys[4]
    ensures "GPS" + "_" + "sensors" == ChannelKeys[5]
    ensures "IMU" + "_" + "sensors" == ChannelKeys[6]
  {
  }

  /** Every row of the column can be drawn from a table of the fixed shape. */
  lemma SectionsFitTable()
    ensures SectionsFit(Sections)
  {
    IconRowKeys();
    assert '_' !in "Wifi" && '_' !in "Radio" && '_' !in "Modem";
    assert '_' !in "DVL" && '_' !in "GPS" && '_' !in "IMU";
    assert SectionFits(Sections[0]) by {
      forall r | r in Sections[0].rows ensures RowFits(r) {
        var j :| 0 <= j < 3 && Sections[0].rows[j] == r;
      }
    }
    assert SectionFits(Sections[1]) by {
      forall r | r in Sections[1].rows ensures RowFits(r) {
        var j :| 0 <= j < 4 && Sections[1].rows[j] == r;
      }
    }
    assert SectionFits(Sections[2]) && SectionFits(Sections[3]);
    forall s | s in Sections ensures SectionFits(s) {
      var i :| 0 <= i < 4 && Sections[i] == s;
    }
  }

  lemma {:induction false} KeyCountAbsent(ks: seq<string>, k: string)
    requires k !in ks
    ensures KeyCount(ks, k) == 0
  {
    if ks != [] {
      KeyCountAbsent(ks[1..], k);
    }
  }

  lemma {:induction false} KeyCountDistinct(ks: seq<string>, k: string)
    requires forall i, j :: 0 <= i < j < |ks| ==> ks[i] != ks[j]
    requires k in ks
    ensures KeyCount(ks, k) == 1
  {
    if ks[0] == k {
      assert k !in ks[1..];
      KeyCountAbsent(ks[1..], k);
    } else {
      KeyCountDistinct(ks[1..], k);
    }
  }

  /** No key occurs twice in the table's order. */
  lemma TableKeysUnique()
    ensures forall i, j :: 0 <= i < j < |TableKeys| ==> TableKeys[i] != TableKeys[j]
  {
  }

  lemma TableKeysDistinct(k: string)
    requires k in TableKeys
    ensures KeyCount(TableKeys, k) == 1
  {
    TableKeysUnique();
    KeyCountDistinct(TableKeys, k);
  }

  lemma {:induction false} RowItemsCount(rows: seq<Row>, t: Table, n: int, k: string)
    requires ValidTable(t) && n in Vehicles
    requires forall r :: r in rows ==> RowFits(r)
    ensures CountNamed(RowItems(rows, t, n), WidgetName(k, n)) == KeyCount(RowKeys(rows), k)
  {
    if rows != [] {
      var head := [ConstructionItem(rows[0], t, n), Spacing(if |rows| == 1 then 40 else 20)];
      CountAppend(head, RowItems(rows[1..], t, n), WidgetName(k, n));
      WidgetNameInjective(RowKey(rows[0]), n, k, n);
      assert CountNamed(head, WidgetName(k, n)) == (if RowKey(rows[0]) == k then 1 else 0);
      RowItemsCount(rows[1..], t, n, k);
    }
  }

  lemma {:induction false} SectionsItemsCount(ss: seq<Section>, t: Table, n: int, k: string)
    requires ValidTable(t) && n in Vehicles && SectionsFit(ss)
    ensures CountNamed(SectionsItems(ss, t, n), WidgetName(k, n)) == KeyCount(SectionKeys(ss), k)
  {
    if ss != [] {
      var last := ss[|ss| - 1];
      assert last in ss;
      var header: Layout := [Child("", Heading(last.title), ""), Spacing(20)];
      NoNameNoCount(header, WidgetName(k, n));
      SectionsItemsCount(ss[..|ss| - 1], t, n, k);
      CountAppend(header, RowItems(last.rows, t, n), WidgetName(k, n));
      RowItemsCount(last.rows, t, n, k);
      CountAppend(SectionsItems(ss[..|ss| - 1], t, n), SectionItems(last, t, n), WidgetName(k, n));
      KeyCountAppend(SectionKeys(ss[..|ss| - 1]), RowKeys(last.rows), k);
    }
  }

  /**
   * For every table key, a column carries exactly one widget named
   * `key + str(n)`: the name the data update looks up.
   */
  lemma ColumnNamesEachKeyOnce(t: Table, n: int, k: string)
    requires ValidTable(t) && n in Vehicles && k in TableKeys
    ensures CountNamed(Column(t, n), WidgetName(k, n)) == 1
    ensures Find(Column(t, n), WidgetName(k, n)).Some?
  {
    ColumnCount(t, n, k);
    SectionsCoverTable();
    TableKeysDistinct(k);
    CountedIsFound(Column(t, n), WidgetName(k, n));
  }

  /** A column carries a widget named after `k` once for each row whose key is `k`. */
  lemma ColumnCount(t: Table, n: int, k: string)
    requires ValidTable(t) && n in Vehicles
    ensures SectionsFit(Sections)
    ensures CountNamed(Column(t, n), WidgetName(k, n)) == KeyCount(SectionKeys(Sections), k)
  {
    SectionsFitTable();
    var name := WidgetName(k, n);
    var header, body := ColumnHeader(n), SectionsItems(Sections, t, n);
    assert Column(t, n) == header + body + [Stretch];
    FramedCount(header, body, name);
    SectionsItemsCount(Sections, t, n, k);
  }

  /** Items without that name around a layout add nothing to the count of a name. */
  lemma FramedCount(header: Layout, body: Layout, name: string)
    requires forall j :: 0 <= j < |header| ==> !HasName(header[j], name)
    ensures CountNamed(header + body + [Stretch], name) == CountNamed(body, name)
  {
    NoNameNoCount(header, name);
    NoNameNoCount([Stretch], name);
    CountAppend(header, body, name);
    CountAppend(header + body, [Stretch], name);
  }

  lemma CountedIsFound(l: Layout, name: string)
    requires CountNamed(l, name) >= 1
    ensures Find(l, name).Some?
  {
    if Find(l, name).None? {
      NoNameNoCount(l, name);
    }
  }

  lemma {:induction false} NoNameNoCount(l: Layout, name: string)
    requires forall j :: 0 <= j < |l| ==> !HasName(l[j], name)
    ensures CountNamed(l, name) == 0
  {
    if l != [] {
      assert !HasName(l[0], name);
      NoNameNoCount(l[1..], name);
    }
  }

  // ----- what a column shows

  lemma {:induction false} RowItemIn(rows: seq<Row>, t: Table, n: int, r: Row)
    requires ValidTable(t) && n in Vehicles
    requires forall r' :: r' in rows ==> RowFits(r')
    requires r in rows
    ensures ConstructionItem(r, t, n) in RowItems(rows, t, n)
  {
    if rows[0] != r {
      RowItemIn(rows[1..], t, n, r);
    }
  }

  lemma {:induction false} SectionsItemIn(ss: seq<Section>, t: Table, n: int, s: Section, r: Row)
    requires ValidTable(t) && n in Vehicles && SectionsFit(ss)
    requires s in ss && r in s.rows
    ensures ConstructionItem(r, t, n) in SectionsItems(ss, t, n)
  {
    var last := ss[|ss| - 1];
    if s == last {
      RowItemIn(last.rows, t, n, r);
    } else {
      assert s in ss[..|ss| - 1];
      SectionsItemIn(ss[..|ss| - 1], t, n, s, r);
    }
  }

  /** A freshly built column shows, under each row's name, that row's widget. */
  lemma ColumnShowsRows(t: Table, n: int, s: Section, r: Row)
    requires ValidTable(t) && n in Vehicles
    requires s in Sections && r in s.rows
    ensures RowFits(r)
    ensures ItemNamed(Column(t, n), WidgetName(RowKey(r), n)) == Some(ConstructionItem(r, t, n))
  {
    RowOfTable(s, r);
    RowInColumn(t, n, s, r);
    var col := Column(t, n);
    var i :| 0 <= i < |col| && col[i] == ConstructionItem(r, t, n);
    ColumnNamesEachKeyOnce(t, n, RowKey(r));
    UniqueNameIsFound(col, WidgetName(RowKey(r), n), i);
  }

  /** Every row of the column shows an entry of the table and can be drawn from it. */
  lemma RowOfTable(s: Section, r: Row)
    requires s in Sections && r in s.rows
    ensures RowFits(r) && RowKey(r) in TableKeys
  {
    SectionsCoverTable();
    SectionKeyIn(Sections, s, r);
  }

  /** The widget built for a row is one of the column's items. */
  lemma RowInColumn(t: Table, n: int, s: Section, r: Row)
    requires ValidTable(t) && n in Vehicles
    requires s in Sections && r in s.rows
    ensures RowFits(r) && ConstructionItem(r, t, n) in Column(t, n)
  {
    SectionsFitTable();
    SectionsItemIn(Sections, t, n, s, r);
    assert Column(t, n) == ColumnHeader(n) + SectionsItems(Sections, t, n) + [Stretch];
  }

  lemma {:induction false} RowKeyIn(rows: seq<Row>, r: Row)
    requires r in rows
    ensures RowKey(r) in RowKeys(rows)
  {
    if rows[0] != r {
      RowKeyIn(rows[1..], r);
    }
  }

  lemma {:induction false} SectionKeyIn(ss: seq<Section>, s: Section, r: Row)
    requires s in ss && r in s.rows
    ensures RowKey(r) in SectionKeys(ss)
  {
    if s == ss[|ss| - 1] {
      RowKeyIn(s.rows, r);
    } else {
      assert s in ss[..|ss| - 1];
      SectionKeyIn(ss[..|ss| - 1], s, r);
    }
  }

  /**
   * The Last Message row of a fresh column shows the stored last message when
   * the vehicle's status message is non-empty, and otherwise an orange
   * "No messages have been recieved".
   */
  lemma LastMessageShown(t: Table, n: int)
    requires ValidTable(t) && n in Vehicles
    ensures var shown := ItemNamed(Column(t, n), WidgetName(LastKey, n));
      shown.Some? && shown.value.Child? &&
      (t[StatusKey][n].text != "" ==>
        shown.value.widget == Label(t[LastKey][n].text) && shown.value.color == "") &&
      (t[StatusKey][n].text == "" ==>
        shown.value.widget == Label(NoMessagesReceived) && shown.value.color == "orange")
  {
    assert Sections[3] in Sections && LastMessageRow in Sections[3].rows;
    ColumnShowsRows(t, n, Sections[3], LastMessageRow);
  }

  /** The Status row of a fresh column shows the classified status message. */
  lemma StatusShown(t: Table, n: int)
    requires ValidTable(t) && n in Vehicles
    ensures var shown := ItemNamed(Column(t, n), WidgetName(StatusKey, n));
      var d := Classify(t[StatusKey][n].text);
      shown.Some? && shown.value.Child? &&
      shown.value.widget == Label(d.text) && shown.value.color == d.color
  {
    assert Sections[2] in Sections && StatusRow in Sections[2].rows;
    ColumnShowsRows(t, n, Sections[2], StatusRow);
  }

  // ----- what the data update draws

  /**
   * The item `set_random_data` puts under the name of entry `key` of vehicle
   * `n`: a message label in the colour its text classifies to, or an icon
   * with the part of the key before its first underscore.
   */
  function UpdatedItem(key: string, e: Entry, n: int): (it: Item)
    requires n in Vehicles && ValidEntry(key, e)
    ensures HasName(it, WidgetName(key, n))
  {
    if key in MessageKeys then
      Child(WidgetName(key, n), Label(e.text), Classify(e.text).color)
    else
      Child(WidgetName(key, n), IconText(SplitPrefix(key), IconFor(e)), "")
  }

  /** Every key in `keys` is a key of the table. */
  predicate TableKeysOnly(keys: seq<string>) {
    forall k :: k in keys ==> k in TableKeys
  }

  /**
   * A column after the entries `keys` of vehicle `n` have been redrawn from
   * table `t` one after the other, each through `replace_label`; no item is
   * added or removed.
   */
  function Redrawn(l: Layout, keys: seq<string>, n: int, t: Table): (r: Layout)
    requires ValidTable(t) && n in Vehicles
    requires TableKeysOnly(keys)
    ensures |r| == |l|
  {
    if keys == [] then l
    else
      var k := keys[|keys| - 1];
      Replace(Redrawn(l, keys[..|keys| - 1], n, t), WidgetName(k, n), UpdatedItem(k, t[k][n], n))
  }

  /** Redrawing one more entry replaces that entry's widget in the column redrawn so far. */
  lemma RedrawnAppend(l: Layout, keys: seq<string>, k: string, n: int, t: Table)
    requires ValidTable(t) && n in Vehicles
    requires TableKeysOnly(keys) && k in TableKeys
    ensures TableKeysOnly(keys + [k])
    ensures Redrawn(l, keys + [k], n, t) ==
      Replace(Redrawn(l, keys, n, t), WidgetName(k, n), UpdatedItem(k, t[k][n], n))
  {
    assert (keys + [k])[..|keys|] == keys;
  }

  /** The column carries a widget under the name of each of vehicle `n`'s entries. */
  predicate CarriesNames(l: Layout, n: int)
    requires n in Vehicles
  {
    forall k :: k in KeySet ==> Find(l, WidgetName(k, n)).Some?
  }

  /** A column with the same names at the same positions as one that carries every entry's name carries them too. */
  lemma SameTagsCarryNames(a: Layout, b: Layout, n: int)
    requires n in Vehicles && SameTags(a, b)
    requires CarriesNames(b, n)
    ensures CarriesNames(a, n)
  {
    forall k | k in KeySet ensures Find(a, WidgetName(k, n)).Some? {
      FindSameTags(a, b, WidgetName(k, n));
    }
  }

  /** Replacing a widget by one of the same name keeps every entry's name in the column. */
  lemma ReplaceKeepsNames(l: Layout, name: string, it: Item, n: int)
    requires n in Vehicles && HasName(it, name)
    requires CarriesNames(l, n)
    ensures CarriesNames(Replace(l, name, it), n)
  {
    ReplaceSameName(l, name, it);
    SameTagsCarryNames(Replace(l, name, it), l, n);
  }

  /** Redrawing keeps every object name at its position. */
  lemma {:induction false} RedrawnSameTags(l: Layout, keys: seq<string>, n: int, t: Table)
    requires ValidTable(t) && n in Vehicles
    requires TableKeysOnly(keys)
    ensures SameTags(Redrawn(l, keys, n, t), l)
  {
    if keys != [] {
      var k := keys[|keys| - 1];
      var before := Redrawn(l, keys[..|keys| - 1], n, t);
      RedrawnSameTags(l, keys[..|keys| - 1], n, t);
      ReplaceSameName(before, WidgetName(k, n), UpdatedItem(k, t[k][n], n));
    }
  }

  /** A column that carries every entry's name still does after a redraw. */
  lemma RedrawnCarriesNames(l: Layout, keys: seq<string>, n: int, t: Table)
    requires ValidTable(t) && n in Vehicles
    requires TableKeysOnly(keys)
    requires CarriesNames(l, n)
    ensures CarriesNames(Redrawn(l, keys, n, t), n)
  {
    RedrawnSameTags(l, keys, n, t);
    SameTagsCarryNames(Redrawn(l, keys, n, t), l, n);
  }

  /**
   * After the redraw, the widget found under the name of each redrawn entry
   * is the one drawn for that entry, provided the column had that name.
   */
  lemma {:induction false} RedrawnShows(l: Layout, keys: seq<string>, n: int, t: Table, k: string)
    requires ValidTable(t) && n in Vehicles
    requires TableKeysOnly(keys)
    requires k in keys && Find(l, WidgetName(k, n)).Some?
    ensures ItemNamed(Redrawn(l, keys, n, t), WidgetName(k, n)) == Some(UpdatedItem(k, t[k][n], n))
  {
    var last := keys[|keys| - 1];
    var rest := keys[..|keys| - 1];
    var before := Redrawn(l, rest, n, t);
    var it := UpdatedItem(last, t[last][n], n);
    ReplaceSameName(before, WidgetName(last, n), it);
    if k == last {
      RedrawnSameTags(l, rest, n, t);
      FindSameTags(before, l, WidgetName(k, n));
    } else {
      assert k in rest;
      RedrawnShows(l, rest, n, t, k);
      WidgetNameInjective(k, n, last, n);
    }
  }

  /**
   * Redrawing every key of the table in a column that carries every entry's
   * name finds each widget: the widget under each entry's name is then the
   * one drawn for that entry.
   */
  lemma RedrawnAllShown(l: Layout, n: int, t: Table, k: string)
    requires ValidTable(t) && n in Vehicles && CarriesNames(l, n) && k in TableKeys
    ensures TableKeysOnly(TableKeys)
    ensures ItemNamed(Redrawn(l, TableKeys, n, t), WidgetName(k, n)) == Some(UpdatedItem(k, t[k][n], n))
  {
    assert k in KeySet;
    RedrawnShows(l, TableKeys, n, t, k);
  }

  /** Items carrying none of the redrawn names stay exactly as they were. */
  lemma {:induction false} RedrawnKeepsOthers(l: Layout, keys: seq<string>, n: int, t: Table, j: nat)
    requires ValidTable(t) && n in Vehicles
    requires TableKeysOnly(keys)
    requires j < |l| && forall k :: k in keys ==> !HasName(l[j], WidgetName(k, n))
    ensures j < |Redrawn(l, keys, n, t)| && Redrawn(l, keys, n, t)[j] == l[j]
  {
    RedrawnSameTags(l, keys, n, t);
    if keys != [] {
      var last := keys[|keys| - 1];
      var before := Redrawn(l, keys[..|keys| - 1], n, t);
      RedrawnKeepsOthers(l, keys[..|keys| - 1], n, t, j);
      ReplaceSpec(before, WidgetName(last, n), UpdatedItem(last, t[last][n], n));
    }
  }

  /** Every icon row's text is the part of its key before the first underscore. */
  lemma IconRowTextIsKeyPrefix(r: Row)
    requires RowFits(r) && r.IconRow?
    ensures SplitPrefix(RowKey(r)) == r.text
  {
    SplitPrefixOf(r.text, r.suffix);
  }

  /**
   * Redrawing a channel entry with the value the column was built from gives
   * back exactly the widget the column was built with.
   */
  lemma ChannelRedrawMatchesConstruction(t: Table, n: int, r: Row)
    requires ValidTable(t) && n in Vehicles
    requires RowFits(r) && r.IconRow?
    ensures ValidEntry(RowKey(r), t[RowKey(r)][n])
    ensures UpdatedItem(RowKey(r), t[RowKey(r)][n], n) == ConstructionItem(r, t, n)
  {
    IconRowTextIsKeyPrefix(r);
    ChannelIsNoMessage(RowKey(r));
  }

  lemma ChannelIsNoMessage(k: string)
    requires k in ChannelKeys
    ensures k !in MessageKeys && k in KeySet
  {
  }

  /**
   * Redrawing every entry of a built column from a new table leaves each
   * channel row showing exactly what a column built from the new table shows.
   */
  lemma ChannelRedrawAsIfRebuilt(t0: Table, t: Table, n: int, s: Section, r: Row)
    requires ValidTable(t0) && ValidTable(t) && n in Vehicles
    requires s in Sections && r in s.rows && r.IconRow?
    ensures ItemNamed(Redrawn(Column(t0, n), TableKeys, n, t), WidgetName(RowKey(r), n)) ==
            ItemNamed(Column(t, n), WidgetName(RowKey(r), n))
  {
    var key := RowKey(r);
    ColumnShowsRows(t, n, s, r);
    SectionsCoverTable();
    SectionKeyIn(Sections, s, r);
    ColumnNamesEachKeyOnce(t0, n, key);
    RedrawnShows(Column(t0, n), TableKeys, n, t, key);
    ChannelRedrawMatchesConstruction(t, n, r);
  }

  /**
   * The Status row is not redrawn as it is built. For an unrecognised status
   * message, the update draws the message itself, while a column built from
   * the same table shows it behind the "Status flag unrecognized: " prefix;
   * both are blue.
   */
  lemma StatusRedrawDiffersFromConstruction(t: Table, n: int)
    requires ValidTable(t) && n in Vehicles && Unrecognized(t[StatusKey][n].text)
    ensures var m := t[StatusKey][n].text;
      UpdatedItem(StatusKey, t[StatusKey][n], n) == Child(WidgetName(StatusKey, n), Label(m), "blue") &&
      ConstructionItem(StatusRow, t, n) == Child(WidgetName(StatusKey, n), Label(UnrecognizedPrefix + m), "blue")
    ensures UpdatedItem(StatusKey, t[StatusKey][n], n) != ConstructionItem(StatusRow, t, n)
  {
    var m := t[StatusKey][n].text;
    ClassifyText(m);
    ClassifyBranches(m);
    assert |UnrecognizedPrefix + m| != |m|;
  }

  /** "garbage data", one of the four messages the update draws from, is unrecognised. */
  lemma GarbageIsUnrecognized()
    ensures RandomMessages[3] == "garbage data" && Unrecognized(RandomMessages[3])
  {
    var g := RandomMessages[3];
    assert |g| == 12 && |Running| == 7 && |Waiting| == 7 && |NoConnection| == 13;
  }
}
