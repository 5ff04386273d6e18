# CoUGARS dashboard: status-table bookkeeping

This project models the bookkeeping done by the dashboard window of the CoUGARS
vehicle fleet (`MainWindow` in `CoUGARs_abstraction/tabbed_window.py`), and
proves properties about it. The model has six modules:

- `StatusMessages` (`status_messages.dfy`): `get_status_message_color`, the
  classifier that turns a vehicle's status flag into a colour and a label text.
- `FeedbackTable` (`feedback_table.dfy`): `feedback_dict` and `icons_dict`.
  - `feedback_dict` maps each of nine keys to an entry for each of Cougs 1 to 3.
    The nine keys are seven connection/sensor channels plus the status and last
    messages.
  - `icons_dict` maps a channel state to the icon that shows it.
  - This module also defines the table that `set_random_data` writes from its
    random draws.
- `Layouts` (`layouts.dfy`): a column of the general page as an ordered list of
  items. A child widget carries an object name and a style-sheet colour. The
  module covers lookup by object name and `replace_label`.
- `GeneralPage` (`general_page.dfy`): the columns that
  `set_general_page_column_widgets` builds, and the items that the data update
  draws into them.
  - Widgets are named `key + str(n)`.
  - Each key-prefix label is `key.split("_")[0]`.
  - The Last Message row follows its own rule.
  - The module proves that the names used at construction and the names looked
    up on update agree.
- `Commands` (`commands.dfy`): the text each command button writes into the
  confirmation/rejection line.
- `TabbedWindow` (`main_window.dfy`): the class `MainWindow`.
  - It holds the table, the three vehicle columns and the confirmation line.
  - Its methods change these in place: the constructor, `replace_label`, the two
    nested loops of `set_random_data`, and the command buttons.
  - `Valid()` is the class invariant: the table keeps its fixed shape, and every
    column carries a widget under the name of each of its vehicle's entries
    (`Named()`). So the lookup made by every redraw of `set_random_data` finds
    its widget.

The random draws of `set_random_data` are a parameter `draws`. It is shaped like
the table and holds, for each key and Coug, the number `random.randint` would
return: 0 to 3 for a message key, 0 to 2 for a channel. The accept/decline
answer of the abort dialog is a boolean parameter.

The table is a dictionary literal with fixed, mixed starting values. It is
changed only by `set_random_data`, which redraws the widget of every table
entry through `replace_label`. The column headings, section titles, spacing and
spacer stay as they were.

A redrawn widget is not always the one a rebuilt column would show. The update
draws the Status row with the raw message in the classifier's colour. So an
unrecognised message such as "garbage data" appears as itself in blue, while the
built column shows it behind "Status flag unrecognized: ". The update also
colours the Last Message row by the classifier, which construction does not. The
model keeps both behaviours of the code: `StatusRedrawDiffersFromConstruction`
states the difference, and `ChannelRedrawAsIfRebuilt` covers the channel rows
only.

## Model

| member | source | states |
|---|---|---|
| StatusMessages.Classify | CoUGARs_abstraction/tabbed_window.py:175-185 | the classifier is total and always answers one of the five colours green, red, yellow, orange, blue |
| StatusMessages.ToLower | CoUGARs_abstraction/tabbed_window.py:176-178 | `message.lower()` as modelled keeps the length and lower-cases every ASCII letter in place, leaving every other character as it is |
| StatusMessages.LowerMatchesIffSpelled | CoUGARs_abstraction/tabbed_window.py:176-178 | comparing `message.lower()` with a lower-case phrase accepts exactly the spellings of that phrase in any mix of letter case (both directions) |
| StatusMessages.ClassifyBranches | CoUGARs_abstraction/tabbed_window.py:175-185 | green iff the message is "running" in any letter case; red iff "no connection"; yellow iff "waiting"; orange iff the message is empty; blue iff it is none of these. So every input falls into exactly one branch |
| StatusMessages.ClassifyText | CoUGARs_abstraction/tabbed_window.py:175-185 | a recognised flag is shown as received; the empty message is shown as "No message to be read"; any other message is shown as "Status flag unrecognized: " followed by the message verbatim |
| StatusMessages.ClassifyInjective | CoUGARs_abstraction/tabbed_window.py:175-185 | two different messages never get the same colour and text, so the label identifies the message received |
| FeedbackTable.InitialRow | CoUGARs_abstraction/tabbed_window.py:18-37 | each row of the `feedback_dict` literal (the constant `InitialTable` maps every key to its row) has an entry for exactly Cougs 1 to 3 |
| FeedbackTable.InitialTableValid | CoUGARs_abstraction/tabbed_window.py:19-37 | the starting table has exactly the nine keys, each for exactly Cougs 1 to 3; channel entries are states 0 to 2 and message entries are texts |
| FeedbackTable.InitialTableEntries | CoUGARs_abstraction/tabbed_window.py:19-37 | the starting values: Wifi 0, 1, 2 and GPS 2, 1, 0 for Cougs 1 to 3, every other channel 0, both messages empty |
| FeedbackTable.IconFor | CoUGARs_abstraction/tabbed_window.py:43-47 | the `icons_dict` lookup (the constant `Icons`) gives each channel state its own icon: no other state is shown with the same one |
| FeedbackTable.IconLookupDefined | CoUGARs_abstraction/tabbed_window.py:43-47 | in a table of the fixed shape, every channel entry is a key of `icons_dict`, so the icon lookup is always defined |
| FeedbackTable.DrawnEntry | CoUGARs_abstraction/tabbed_window.py:140-150 | a drawn message is one of the four fixed messages and a drawn channel value is a state 0 to 2 |
| FeedbackTable.DrawnRow | CoUGARs_abstraction/tabbed_window.py:139-152 | one key's row after its inner loop has an entry for the same Cougs as before |
| FeedbackTable.DrawnTable | CoUGARs_abstraction/tabbed_window.py:137-152 | the table after the outer loop keeps the fixed shape: exactly the nine keys, each for exactly Cougs 1 to 3, every entry of its key's kind and in range |
| FeedbackTable.DrawnTableShape | CoUGARs_abstraction/tabbed_window.py:137-157 | after the update, each message entry is the drawn one of the four messages, and each channel entry is the drawn state, whose icon is defined |
| FeedbackTable.DrawnRowOf | CoUGARs_abstraction/tabbed_window.py:137-157 | the row of each key after the update holds, for each Coug, the entry of that Coug's draw |
| Layouts.Find | CoUGARs_abstraction/tabbed_window.py:160-162 | the lookup answers the first position holding a widget of that name, and answers none exactly when no widget has it |
| Layouts.ItemNamed | CoUGARs_abstraction/tabbed_window.py:160-162 | the lookup returns a widget of the column carrying the name, and returns none only when no widget of the column carries it |
| Layouts.Replace | CoUGARs_abstraction/tabbed_window.py:167-173 | removing the found widget and inserting the new one at its index keeps the column's length |
| Layouts.ReplaceSpec | CoUGARs_abstraction/tabbed_window.py:159-173 | replacing keeps the length; with no widget of that name it changes nothing; otherwise the new item sits at the found index and every other position is unchanged |
| Layouts.ReplaceSameName | CoUGARs_abstraction/tabbed_window.py:170-173 | the new label carries the old object name, so every name is still found where it was, and a repeated lookup finds the new item |
| Layouts.ReplaceTwice | CoUGARs_abstraction/tabbed_window.py:159-173 | replacing twice under the same name is the same as replacing once with the second item |
| Layouts.FindSameTags | CoUGARs_abstraction/tabbed_window.py:160-162 | layouts with the same names at the same positions answer every lookup alike |
| Layouts.UniqueNameIsFound | CoUGARs_abstraction/tabbed_window.py:160-162 | a widget that is the only one with its name is the one the lookup finds |
| GeneralPage.WidgetNameInjective | CoUGARs_abstraction/tabbed_window.py:148 | the names `key + str(n)` of two entries are equal exactly when the keys and Cougs are |
| GeneralPage.SplitPrefix | CoUGARs_abstraction/tabbed_window.py:153 | `key.split("_")[0]` is a prefix of the key with no underscore, followed in the key by an underscore unless it is the whole key |
| GeneralPage.SplitPrefixOf | CoUGARs_abstraction/tabbed_window.py:153 | for a text without an underscore, the part of `text_suffix` before the first underscore is the text |
| GeneralPage.IconRowTextIsKeyPrefix | CoUGARs_abstraction/tabbed_window.py:351-385 | the text each channel row is built with is its key's part before the first underscore (e.g. "DVL" for "DVL_sensors") |
| GeneralPage.ConstructionItem | CoUGARs_abstraction/tabbed_window.py:350-408 | each widget built for a row carries the object name `key + str(n)` of that row's key |
| GeneralPage.ColumnHeader | CoUGARs_abstraction/tabbed_window.py:330-335 | the "Coug n:" heading and the spacing under it carry no object name, so no entry lookup finds them |
| GeneralPage.RowItems | CoUGARs_abstraction/tabbed_window.py:350-408 | every row of a section adds its widget and one spacing, so a section's rows take twice as many items as there are rows |
| GeneralPage.SectionItems | CoUGARs_abstraction/tabbed_window.py:343-408 | a section adds two items (its title and one spacing) and two per row |
| GeneralPage.Column | CoUGARs_abstraction/tabbed_window.py:330-416 | the built column ends with the stretching spacer that keeps the widgets at the top |
| GeneralPage.BuildColumn | CoUGARs_abstraction/tabbed_window.py:330-416 | building a column section by section gives the header, then each section's title and rows with their spacing, then the spacer |
| GeneralPage.BuildColumns | CoUGARs_abstraction/tabbed_window.py:287-289 | the three built columns carry a widget under the name of every entry of their Coug |
| GeneralPage.SectionsCoverTable | CoUGARs_abstraction/tabbed_window.py:343-408 | the rows of a column, read in order, name exactly the table's keys in the table's order |
| GeneralPage.ColumnNamesEachKeyOnce | CoUGARs_abstraction/tabbed_window.py:350-408 | for every table key, a built column has exactly one widget named `key + str(n)`, so the lookup the update makes finds it |
| GeneralPage.ColumnShowsRows | CoUGARs_abstraction/tabbed_window.py:343-408 | in a built column, the widget found under each row's name is the one built for that row |
| GeneralPage.StatusShown | CoUGARs_abstraction/tabbed_window.py:388-398 | the Status row shows the classifier's text of the status message, in the classifier's colour |
| GeneralPage.LastMessageShown | CoUGARs_abstraction/tabbed_window.py:400-408 | the Last Message row shows the stored last message when that Coug's status message is non-empty, and otherwise "No messages have been recieved" in orange |
| GeneralPage.UpdatedItem | CoUGARs_abstraction/tabbed_window.py:141-157 | the widget the update draws for an entry carries that entry's name `key + str(n)` |
| GeneralPage.StatusRedrawDiffersFromConstruction | CoUGARs_abstraction/tabbed_window.py:141-145 | for an unrecognised status message, the update draws the message itself in blue, while construction (:388-398) shows "Status flag unrecognized: " followed by the message, in blue; the two widgets differ |
| GeneralPage.GarbageIsUnrecognized | CoUGARs_abstraction/tabbed_window.py:137 | "garbage data", the fourth message the update draws from, is none of the three flags in any letter case |
| GeneralPage.Redrawn | CoUGARs_abstraction/tabbed_window.py:137-157 | redrawing entries of a column one after the other through `replace_label` adds and removes no item |
| GeneralPage.RedrawnSameTags | CoUGARs_abstraction/tabbed_window.py:159-173 | redrawing any sequence of entries keeps every object name at its position |
| GeneralPage.RedrawnCarriesNames | CoUGARs_abstraction/tabbed_window.py:159-173 | a column carrying every entry's name still does after any sequence of redraws |
| GeneralPage.ReplaceKeepsNames | CoUGARs_abstraction/tabbed_window.py:167-173 | replacing a widget by one with the same object name keeps every entry's name in the column |
| GeneralPage.RedrawnShows | CoUGARs_abstraction/tabbed_window.py:137-157 | after a sequence of redraws, the widget under each redrawn entry's name is the last one drawn for it |
| GeneralPage.RedrawnAllShown | CoUGARs_abstraction/tabbed_window.py:137-157 | redrawing every key in a column carrying every name never misses: each entry's widget is then the one drawn from the new table |
| GeneralPage.RedrawnKeepsOthers | CoUGARs_abstraction/tabbed_window.py:159-173 | items named after none of the redrawn entries (titles, spacing, the spacer) stay exactly as they were |
| GeneralPage.ChannelRedrawMatchesConstruction | CoUGARs_abstraction/tabbed_window.py:151-153 | redrawing a channel entry gives exactly the widget the column was built with for that value: same name, same text, same icon |
| GeneralPage.ChannelRedrawAsIfRebuilt | CoUGARs_abstraction/tabbed_window.py:137-157 | after the whole update, every channel row of a built column shows what a column built from the new table shows |
| Commands.FeedbackText | CoUGARs_abstraction/tabbed_window.py:218-241 | no command's line is the opening text of the confirmation line |
| Commands.FeedbackIdentifiesCommand | CoUGARs_abstraction/tabbed_window.py:218-241 | two lines are equal exactly when they come from the same command and, for abort-all, the same dialog answer |
| TabbedWindow.MainWindow.constructor | CoUGARs_abstraction/tabbed_window.py:12-101 | the window opens with the literal table, three columns built from it, the opening confirmation text, and its invariant established |
| TabbedWindow.OpeningState | CoUGARs_abstraction/tabbed_window.py:19-37 | the opening table is of the fixed shape and the columns built from it carry every entry's name |
| TabbedWindow.MainWindow.ReplaceLabel | CoUGARs_abstraction/tabbed_window.py:159-173 | on the column of Coug `n`, the widget found under the name is replaced at its index by one with the same name and the given colour; it reports whether it was found; the other columns, the table and the confirmation line are unchanged, and the class invariant is kept |
| TabbedWindow.MainWindow.SetRandomData | CoUGARs_abstraction/tabbed_window.py:130-157 | the table becomes the drawn table, each column is its old self with every entry redrawn in the table's order, and the invariant is kept |
| TabbedWindow.MainWindow.RedrawNext | CoUGARs_abstraction/tabbed_window.py:137-157 | one round of the outer loop extends the keys handled, in the table and in each column, by one key |
| TabbedWindow.MainWindow.RedrawKey | CoUGARs_abstraction/tabbed_window.py:138-157 | the inner loop replaces the key's row by the drawn row and redraws exactly that key's widget in each column |
| TabbedWindow.MainWindow.WriteEntry | CoUGARs_abstraction/tabbed_window.py:139-157 | one Coug's entry is stored, and only its widget in only its column is redrawn: a message label coloured by the classifier, or the icon read back from the stored value |
| TabbedWindow.NamedAfterReplace | CoUGARs_abstraction/tabbed_window.py:159-173 | replacing one column's widget by one of the same name leaves all three columns carrying every entry's name |
| TabbedWindow.NamesKept | CoUGARs_abstraction/tabbed_window.py:137-157 | redrawing one key's widgets in columns that carry every entry's name leaves every column carrying every name, so the loop of `set_random_data` keeps the invariant key by key |
| TabbedWindow.MainWindow.LoadMissions | CoUGARs_abstraction/tabbed_window.py:218-221 | the line reads "Loading the missions..."; nothing else changes, so the class invariant is kept |
| TabbedWindow.MainWindow.StartMissions | CoUGARs_abstraction/tabbed_window.py:223-226 | the line reads "Starting the missions..."; nothing else changes, so the class invariant is kept |
| TabbedWindow.MainWindow.RecallCougs | CoUGARs_abstraction/tabbed_window.py:228-231 | the line reads "Recalling the Cougs..."; nothing else changes, so the class invariant is kept |
| TabbedWindow.MainWindow.AbortAllMissions | CoUGARs_abstraction/tabbed_window.py:233-242 | the line reads "Aborting all missions..." when the dialog is accepted and "Canceling abort missions command..." when it is declined; nothing else changes, so the class invariant is kept |

## Left out

- Qt widget construction, styling, fonts, palettes, pixmaps and tab stylesheets are left out. A widget is reduced to what the bookkeeping relies on: its object name, what it shows and its colour.
- The tab-width arithmetic of `resizeTabs` is left out; it promises nothing beyond layout.
- `random.randint` is replaced by the `draws` parameter. The two draws at the start of `set_random_data` are never used, so they are not modelled.
- `print` output, including the "widget_name not found" message of `replace_label`, is left out.
- `print_all_widgets_in_layout` is left out. It only walks the Qt widget tree and prints.
- The modal mechanics of `AbortMissionsDialog` are left out; only its accept/decline answer enters the model.
- Application start-up, the Ctrl+C shortcut, SIGINT handling and `close_window` are process I/O and are left out.
- Column 0 of the general page (the four buttons) is left out. It holds no table entry, and pressing a button is modelled by calling its method.
- `CoUGARs_abstraction/publisher_member_function.py` (ROS 2 publisher and subscriber plumbing) is not part of this model.
- The `learning_pyqt_basics` demos are not part of this model.
- StatusMessages.ToLower lower-cases ASCII letters only, while Python's `str.lower()` covers all of Unicode. The only non-ASCII character that lower-cases to a single ASCII letter is the Kelvin sign, which gives `k`. None of the three flags contains a `k`, so the classification is the same.
- Layouts.Find: `findChild` searches the column widget's whole subtree, while the model searches the column's own items by name. The two agree because every named widget is a direct item of its column.
- The model does not cover the case where `replace_label` finds a widget that is not an item of the layout, because `indexOf` would then give -1. That cannot happen with the names used here.
- Dictionary iteration order is taken to be insertion order, as Python guarantees. So the update walks the keys in the order of the table literal, and Cougs 1 to 3 within each key.
