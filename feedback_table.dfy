/**
 * The feedback table through which vehicle ("Coug") information reaches the
 * dashboard (`feedback_dict`), and the icon chosen for each channel state
 * (`icons_dict`).
 */
module FeedbackTable {

  /**
   * One entry of the table: a channel state (0 negative, 1 positive,
   * 2 waiting) or a message text.
   */
  datatype Entry = Level(level: int) | Text(text: string)

  /** The three standard pixmaps: a cross, a tick, and a question mark for "waiting". */
  datatype Icon = DialogNo | DialogYes | ContextHelp

  /** Key of the table, then vehicle number, to entry. */
  type Table = map<string, map<int, Entry>>

  /** Vehicle numbers: Cougs 1 to 3. */
  const Vehicles: set<int> := {1, 2, 3}

  /** The connection and sensor channels, in the table's order. */
  const ChannelKeys: seq<string> := [
    "Wifi_connections", "Radio_connections", "Modem_connections",
    "Modem_sensors", "DVL_sensors", "GPS_sensors", "IMU_sensors"
  ]

  const StatusKey := "Status_messages"
  const LastKey := "Last_messages"
  const MessageKeys: seq<string> := [StatusKey, LastKey]

  /** Every key of the table, in the order the table is built and walked. */
  const TableKeys: seq<string> := ChannelKeys + MessageKeys

  const KeySet: set<string> := set k | k in TableKeys

  /** The channel state to icon mapping. */
  const Icons: map<int, Icon> := map[0 := DialogNo, 1 := DialogYes, 2 := ContextHelp]

  /** The messages the development data generator picks from. */
  const RandomMessages: seq<string> := ["running", "no connection", "waiting", "garbage data"]

  lemma VehicleRange(n: int)
    requires n in Vehicles
    ensures 1 <= n <= 3
  {
  }

  /** Entries under a message key are texts, all others are states 0 to 2. */
  predicate ValidEntry(key: string, e: Entry) {
    if key in MessageKeys then e.Text? else e.Level? && 0 <= e.level <= 2
  }

  /** The table has exactly the fixed keys, each for exactly vehicles 1 to 3. */
  predicate ValidTable(t: Table) {
    t.Keys == KeySet &&
    forall k :: k in t ==> t[k].Keys == Vehicles && forall n :: n in t[k] ==> ValidEntry(k, t[k][n])
  }

  /**
   * The table the window starts with: one row per key, Coug 1 to 3 in each.
   * Every channel starts negative except Wifi and GPS, and every message
   * starts empty.
   */
  const InitialTable: Table := map k | k in KeySet :: InitialRow(k)

  /** The starting row of one key: an entry for each of Cougs 1 to 3. */
  function InitialRow(k: string): (r: map<int, Entry>)
    ensures r.Keys == Vehicles
  {
    if k == "Wifi_connections" then map[1 := Level(0), 2 := Level(1), 3 := Level(2)]
    else if k == "GPS_sensors" then map[1 := Level(2), 2 := Level(1), 3 := Level(0)]
    else if k in MessageKeys then map[1 := Text(""), 2 := Text(""), 3 := Text("")]
    else map[1 := Level(0), 2 := Level(0), 3 := Level(0)]
  }

  /** The icon shown for a channel state; no other state is shown with the same icon. */
  function IconFor(e: Entry): (icon: Icon)
    requires e.Level? && e.level in Icons
    ensures forall level :: level in Icons && Icons[level] == icon ==> level == e.level
  {
    Icons[e.level]
  }

  /**
   * Random draws for one key, one per vehicle: an index into the four
   * messages for a message key, a state 0 to 2 otherwise.
   */
  predicate ValidDrawRow(key: string, row: map<int, int>) {
    forall n :: n in row ==> 0 <= row[n] <= (if key in MessageKeys then |RandomMessages| - 1 else 2)
  }

  /** Random draws shaped like the table. */
  predicate ValidDraws(draws: map<string, map<int, int>>) {
    draws.Keys == KeySet &&
    forall k :: k in draws ==> draws[k].Keys == Vehicles && ValidDrawRow(k, draws[k])
  }

  /** The entry written for one draw. */
  function DrawnEntry(key: string, draw: int): (e: Entry)
    requires 0 <= draw <= (if key in MessageKeys then |RandomMessages| - 1 else 2)
    ensures ValidEntry(key, e)
    ensures e.Text? ==> e.text in RandomMessages
  {
    if key in MessageKeys then Text(RandomMessages[draw]) else Level(draw)
  }

  /**
   * The row of `key` once every vehicle's entry has been overwritten from its
   * draw: an entry for the same vehicles.
   */
  function DrawnRow(key: string, row: map<int, int>): (r: map<int, Entry>)
    requires ValidDrawRow(key, row)
    ensures r.Keys == row.Keys
  {
    map n | n in row :: DrawnEntry(key, row[n])
  }

  /**
   * The table after every entry has been overwritten from its draw: the same
   * keys and vehicles, every channel state 0 to 2, every message one of the
   * four fixed messages.
   */
  function DrawnTable(draws: map<string, map<int, int>>): (r: Table)
    requires ValidDraws(draws)
    ensures ValidTable(r)
  {
    map k | k in KeySet :: DrawnRow(k, draws[k])
  }

  /** The row of key `k` in the drawn table is the row drawn for `k`. */
  lemma DrawnRowOf(draws: map<string, map<int, int>>, k: string)
    requires ValidDraws(draws) && k in KeySet
    ensures DrawnTable(draws)[k] == DrawnRow(k, draws[k])
    ensures ValidDrawRow(k, draws[k])
    ensures DrawnTable(draws)[k][1] == DrawnEntry(k, draws[k][1])
    ensures DrawnTable(draws)[k][2] == DrawnEntry(k, draws[k][2])
    ensures DrawnTable(draws)[k][3] == DrawnEntry(k, draws[k][3])
  {
  }

  /** The drawn table keeps the table's shape and holds what was drawn. */
  lemma DrawnTableShape(draws: map<string, map<int, int>>)
    requires ValidDraws(draws)
    ensures ValidTable(DrawnTable(draws))
    ensures forall k, n :: k in MessageKeys && n in Vehicles ==>
      DrawnTable(draws)[k][n] == Text(RandomMessages[draws[k][n]])
    ensures forall k, n :: k in ChannelKeys && n in Vehicles ==>
      DrawnTable(draws)[k][n] == Level(draws[k][n]) && draws[k][n] in Icons
  {
    forall k, n | k in MessageKeys && n in Vehicles
      ensures DrawnTable(draws)[k][n] == Text(RandomMessages[draws[k][n]])
    {
      DrawnMessage(draws, k, n);
    }
    forall k, n | k in ChannelKeys && n in Vehicles
      ensures DrawnTable(draws)[k][n] == Level(draws[k][n]) && draws[k][n] in Icons
    {
      DrawnChannel(draws, k, n);
    }
  }

  lemma DrawnMessage(draws: map<string, map<int, int>>, k: string, n: int)
    requires ValidDraws(draws) && k in MessageKeys && n in Vehicles
    ensures 0 <= draws[k][n] < |RandomMessages|
    ensures DrawnTable(draws)[k][n] == Text(RandomMessages[draws[k][n]])
  {
    assert k in KeySet;
  }

  lemma DrawnChannel(draws: map<string, map<int, int>>, k: string, n: int)
    requires ValidDraws(draws) && k in ChannelKeys && n in Vehicles
    ensures DrawnTable(draws)[k][n] == Level(draws[k][n]) && draws[k][n] in Icons
  {
    assert k in KeySet && k !in MessageKeys;
    var level := draws[k][n];
    assert 0 <= level <= 2;
    assert level == 0 || level == 1 || level == 2;
  }

  /** The window starts from a table of the fixed shape. */
  lemma InitialTableValid()
    ensures ValidTable(InitialTable)
  {
    forall k | k in InitialTable
      ensures InitialTable[k].Keys == Vehicles
      ensures forall n :: n in InitialTable[k] ==> ValidEntry(k, InitialTable[k][n])
    {
      InitialRowValid(k);
    }
  }

  lemma InitialRowValid(k: string)
    ensures InitialRow(k).Keys == Vehicles
    ensures forall n :: n in InitialRow(k) ==> ValidEntry(k, InitialRow(k)[n])
  {
    var row := InitialRow(k);
    if k in MessageKeys {
      assert forall n :: n in row ==> row[n] == Text("");
    } else {
      assert forall n :: n in row ==> row[n].Level? && 0 <= row[n].level <= 2;
    }
  }

  /**
   * What the window starts with: no message for any Coug, Wifi states 0, 1
   * and 2 and GPS states 2, 1 and 0 for Cougs 1 to 3, every other channel
   * negative.
   */
  lemma InitialTableEntries(k: string, n: int)
    requires k in KeySet && n in Vehicles
    ensures k in MessageKeys ==> InitialTable[k][n] == Text("")
    ensures k == "Wifi_connections" ==> InitialTable[k][n] == Level(n - 1)
    ensures k == "GPS_sensors" ==> InitialTable[k][n] == Level(3 - n)
    ensures k in ChannelKeys && k != "Wifi_connections" && k != "GPS_sensors" ==>
      InitialTable[k][n] == Level(0)
  {
    assert InitialTable[k] == InitialRow(k);
  }

  /** In a table of the fixed shape, the icon of every channel entry is defined. */
  lemma IconLookupDefined(t: Table, k: string, n: int)
    requires ValidTable(t)
    requires k in ChannelKeys && n in Vehicles
    ensures t[k][n].Level? && t[k][n].level in Icons
  {
  }
}
