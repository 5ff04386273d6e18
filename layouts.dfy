/**
 * A column of the general page seen as what the window relies on: an ordered
 * list of layout items, some of them child widgets carrying an object name.
 * Lookup by name (`findChild` followed by `indexOf`) and `replace_label`.
 */
module Layouts {
  import opened FeedbackTable

  datatype Option<T> = None | Some(value: T)

  /** What a child widget shows. */
  datatype Widget =
    | Heading(text: string)               // a title or section label
    | IconText(text: string, icon: Icon)  // an icon followed by a short text
    | Label(text: string)                 // a message label

  /**
   * A layout item: fixed spacing, a stretching spacer, or a child widget with
   * its object name ("" when none was given) and its style-sheet colour
   * ("" when none was set).
   */
  datatype Item =
    | Spacing(px: nat)
    | Stretch
    | Child(name: string, widget: Widget, color: string)

  type Layout = seq<Item>

  /** The item is a child widget whose object name is `name`. */
  predicate HasName(it: Item, name: string) {
    it.Child? && it.name == name
  }

  /** What a name lookup can see of an item: its object name if it is a widget. */
  function Tag(it: Item): Option<string> {
    if it.Child? then Some(it.name) else None
  }

  /** Two layouts have the same length and the same names at the same positions. */
  predicate SameTags(a: Layout, b: Layout) {
    |a| == |b| && forall i :: 0 <= i < |a| ==> Tag(a[i]) == Tag(b[i])
  }

  /** The position of the first child widget named `name`, if any. */
  function Find(l: Layout, name: string): (r: Option<nat>)
    ensures r.Some? ==> r.value < |l| && HasName(l[r.value], name)
    ensures r.Some? ==> forall j :: 0 <= j < r.value ==> !HasName(l[j], name)
    ensures r.None? ==> forall j :: 0 <= j < |l| ==> !HasName(l[j], name)
  {
    if l == [] then None
    else if HasName(l[0], name) then Some(0)
    else match Find(l[1..], name)
      case None => None
      case Some(i) => Some(i + 1)
  }

  /**
   * The item a lookup of `name` finds: a widget of the layout carrying that
   * name, and nothing only when no widget of the layout carries it.
   */
  function ItemNamed(l: Layout, name: string): (r: Option<Item>)
    ensures r.Some? ==> r.value in l && HasName(r.value, name)
    ensures r.None? ==> forall it :: it in l ==> !HasName(it, name)
  {
    match Find(l, name)
    case None => None
    case Some(i) => Some(l[i])
  }

  /**
   * `replace_label`: the widget named `name` is removed and `it` is inserted
   * at the same index; when no widget has that name, nothing changes.
   */
  function Replace(l: Layout, name: string, it: Item): (r: Layout)
    ensures |r| == |l|
  {
    match Find(l, name)
    case None => l
    case Some(i) => l[..i] + [it] + l[i + 1..]
  }

  /** How many child widgets are named `name`. */
  function CountNamed(l: Layout, name: string): nat {
    if l == [] then 0 else (if HasName(l[0], name) then 1 else 0) + CountNamed(l[1..], name)
  }

  /**
   * Replacing keeps the length; a missing name leaves the layout as it was;
   * otherwise exactly the found position changes, to the new item.
   */
  lemma ReplaceSpec(l: Layout, name: string, it: Item)
    ensures |Replace(l, name, it)| == |l|
    ensures Find(l, name).None? ==> Replace(l, name, it) == l
    ensures Find(l, name).Some? ==> Replace(l, name, it)[Find(l, name).value] == it
    ensures forall j :: 0 <= j < |l| && Find(l, name) != Some(j) ==> Replace(l, name, it)[j] == l[j]
  {
  }

  /** Layouts with the same names at the same positions answer every lookup alike. */
  lemma {:induction false} FindSameTags(a: Layout, b: Layout, name: string)
    requires SameTags(a, b)
    ensures Find(a, name) == Find(b, name)
  {
    if a != [] {
      assert Tag(a[0]) == Tag(b[0]);
      assert SameTags(a[1..], b[1..]) by {
        forall i | 0 <= i < |a| - 1 ensures Tag(a[1..][i]) == Tag(b[1..][i]) {
          assert Tag(a[i + 1]) == Tag(b[i + 1]);
        }
      }
      FindSameTags(a[1..], b[1..], name);
    }
  }

  /**
   * Replacing with an item of the same name keeps every name in place, so
   * the same item is found again and every other name is found where it was.
   */
  lemma ReplaceSameName(l: Layout, name: string, it: Item)
    requires HasName(it, name)
    ensures SameTags(Replace(l, name, it), l)
    ensures forall other :: Find(Replace(l, name, it), other) == Find(l, other)
    ensures Find(l, name).Some? ==> ItemNamed(Replace(l, name, it), name) == Some(it)
    ensures forall other :: other != name ==> ItemNamed(Replace(l, name, it), other) == ItemNamed(l, other)
  {
    var r := Replace(l, name, it);
    ReplaceSpec(l, name, it);
    assert SameTags(r, l) by {
      forall j | 0 <= j < |l| ensures Tag(r[j]) == Tag(l[j]) {
        if Find(l, name) == Some(j) {
          assert HasName(l[j], name);
        }
      }
    }
    forall other ensures Find(r, other) == Find(l, other) {
      FindSameTags(r, l, other);
    }
  }

  /** A second replacement under the same name finds and overwrites the first one. */
  lemma ReplaceTwice(l: Layout, name: string, it1: Item, it2: Item)
    requires HasName(it1, name) && HasName(it2, name)
    ensures Replace(Replace(l, name, it1), name, it2) == Replace(l, name, it2)
  {
    ReplaceSameName(l, name, it1);
    ReplaceSpec(l, name, it1);
    ReplaceSpec(Replace(l, name, it1), name, it2);
    ReplaceSpec(l, name, it2);
  }

  lemma {:induction false} CountAppend(a: Layout, b: Layout, name: string)
    ensures CountNamed(a + b, name) == CountNamed(a, name) + CountNamed(b, name)
  {
    if a == [] {
      assert a + b == b;
    } else {
      assert (a + b)[0] == a[0];
      assert (a + b)[1..] == a[1..] + b;
      CountAppend(a[1..], b, name);
    }
  }

  /** A widget named `name` that is the only one so named is what the lookup finds. */
  lemma {:induction false} UniqueNameIsFound(l: Layout, name: string, i: nat)
    requires i < |l| && HasName(l[i], name)
    requires CountNamed(l, name) == 1
    ensures Find(l, name) == Some(i)
  {
    if i > 0 {
      if HasName(l[0], name) {
        NamedIsCounted(l[1..], name, i - 1);
      } else {
        UniqueNameIsFound(l[1..], name, i - 1);
      }
    }
  }

  lemma {:induction false} NamedIsCounted(l: Layout, name: string, i: nat)
    requires i < |l| && HasName(l[i], name)
    ensures CountNamed(l, name) >= 1
  {
    if i > 0 && !HasName(l[0], name) {
      NamedIsCounted(l[1..], name, i - 1);
    }
  }
}
