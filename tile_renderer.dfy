/**
 * The lunch-menu tile's layout, with the layout toolkit's builders replaced
 * by plain values: a primary layout has a label (the weekday), a content
 * column of text elements, and a primary chip.
 */
module TileRenderer {
  import opened Wrappers
  import opened Days
  import opened MenuRepo

  /** What the renderer is given: the dishes to show today. */
  datatype LunchMenuTileState = LunchMenuTileState(todayMenu: seq<MenuItem>)

  /**
   * One entry of the content column: a dish name set as a heading, a
   * description line, or a price line (its "€%.2f" text is not modelled).
   */
  datatype Element = Heading(text: string) | Text(text: string) | PriceText(price: Price)

  /** The compact chip at the foot of the tile, with its label and the id of its click action. */
  datatype Chip = CompactChip(text: string, clickableId: string)

  /** A primary layout: label on top, content in the middle, chip at the bottom. */
  datatype TileLayout = PrimaryLayout(primaryLabel: string, content: seq<Element>, primaryChip: Chip)

  /** An image the tile could register under a resource id. */
  datatype ImageResource = DrawableResource(resId: int)

  /** The resources handed back for a resources request, by id. */
  type Resources = map<string, ImageResource>

  /** The "See more" chip; its action opens the app under the id "new_button". */
  const SeeMoreChip: Chip := CompactChip("See more", "new_button")

  /** The number of dishes that carry a description. */
  function CountDescribed(items: seq<MenuItem>): (n: nat)
    ensures n <= |items|
  {
    if items == [] then 0
    else (if items[0].description.Some? then 1 else 0) + CountDescribed(items[1..])
  }

  /** The dish names, in menu order. */
  function Names(items: seq<MenuItem>): (names: seq<string>)
    ensures |names| == |items|
    ensures forall i :: 0 <= i < |items| ==> names[i] == items[i].name
  {
    seq(|items|, i requires 0 <= i < |items| => items[i].name)
  }

  /** The texts of the heading elements of a column, in column order. */
  function Headings(column: seq<Element>): seq<string>
  {
    if column == [] then []
    else (if column[0].Heading? then [column[0].text] else []) + Headings(column[1..])
  }

  /**
   * The run of elements one dish adds to the column: its name as a heading,
   * then its description when it has one, then its price.
   */
  function ItemRun(item: MenuItem): (run: seq<Element>)
    ensures |run| == if item.description.Some? then 3 else 2
    ensures run[0] == Heading(item.name) && run[|run| - 1] == PriceText(item.price)
    ensures item.description.Some? ==> run[1] == Text(item.description.value)
  {
    [Heading(item.name)]
    + (match item.description case Some(d) => [Text(d)] case None => [])
    + [PriceText(item.price)]
  }

  /** The content column for a list of dishes: their runs one after another. */
  function Flatten(items: seq<MenuItem>): (column: seq<Element>)
    ensures |column| == 2 * |items| + CountDescribed(items)
    ensures column == [] <==> items == []
  {
    if items == [] then [] else ItemRun(items[0]) + Flatten(items[1..])
  }

  /** Flattening two lists one after the other is flattening each. */
  lemma {:induction false} FlattenConcat(a: seq<MenuItem>, b: seq<MenuItem>)
    ensures Flatten(a + b) == Flatten(a) + Flatten(b)
  {
    if a == [] {
      assert a + b == b;
    } else {
      assert (a + b)[0] == a[0];
      assert (a + b)[1..] == a[1..] + b;
      FlattenConcat(a[1..], b);
    }
  }

  lemma {:induction false} HeadingsConcat(x: seq<Element>, y: seq<Element>)
    ensures Headings(x + y) == Headings(x) + Headings(y)
  {
    if x == [] {
      assert x + y == y;
    } else {
      assert (x + y)[1..] == x[1..] + y;
      HeadingsConcat(x[1..], y);
    }
  }

  /** A dish's run holds one heading: its name. */
  lemma HeadingsOfRun(item: MenuItem)
    ensures Headings(ItemRun(item)) == [item.name]
  {
    var run := ItemRun(item);
    var last := [PriceText(item.price)];
    assert Headings(last) == [] by {
      assert last[1..] == [];
    }
    if item.description.Some? {
      var tail := [Text(item.description.value)] + last;
      assert tail[1..] == last;
      assert run[1..] == tail;
    } else {
      assert run[1..] == last;
    }
  }

  /** Reading the headings of the column gives exactly the dish names, in order. */
  lemma {:induction false} HeadingsAreNames(items: seq<MenuItem>)
    ensures Headings(Flatten(items)) == Names(items)
  {
    if items != [] {
      var run := ItemRun(items[0]);
      HeadingsConcat(run, Flatten(items[1..]));
      HeadingsOfRun(items[0]);
      HeadingsAreNames(items[1..]);
      assert Names(items) == [items[0].name] + Names(items[1..]);
    }
  }

  /** Puts a dish in front of a parsed list, keeping a failure a failure. */
  function Prepend(item: MenuItem, rest: Option<seq<MenuItem>>): (r: Option<seq<MenuItem>>)
    ensures r.Some? <==> rest.Some?
    ensures r.Some? ==> r.value == [item] + rest.value
  {
    match rest
    case Some(items) => Some([item] + items)
    case None => None
  }

  /**
   * Reads dishes back off a column: a heading, an optional description
   * line, and a price line per dish; anything else is no column `Flatten`
   * makes.
   */
  function Unflatten(column: seq<Element>): Option<seq<MenuItem>>
    decreases |column|
  {
    if column == [] then Some([])
    else if !column[0].Heading? then None
    else if |column| >= 2 && column[1].PriceText? then
      Prepend(MenuItem(column[0].text, None, column[1].price), Unflatten(column[2..]))
    else if |column| >= 3 && column[1].Text? && column[2].PriceText? then
      Prepend(MenuItem(column[0].text, Some(column[1].text), column[2].price), Unflatten(column[3..]))
    else None
  }

  /** The column loses nothing: every dish, field by field, can be read back from it. */
  lemma {:induction false} UnflattenFlatten(items: seq<MenuItem>)
    ensures Unflatten(Flatten(items)) == Some(items)
  {
    if items != [] {
      var column := Flatten(items);
      var run := ItemRun(items[0]);
      assert column == run + Flatten(items[1..]);
      assert column[|run|..] == Flatten(items[1..]);
      UnflattenFlatten(items[1..]);
      assert [items[0]] + items[1..] == items;
    }
  }

  /** Conversely, a column that reads back to some dishes is exactly their column. */
  lemma {:induction false} FlattenUnflatten(column: seq<Element>)
    ensures Unflatten(column).Some? ==> Flatten(Unflatten(column).value) == column
    decreases |column|
  {
    if column != [] && column[0].Heading? && Unflatten(column).Some? {
      var items := Unflatten(column).value;
      var n := if column[1].PriceText? then 2 else 3;
      assert items == [items[0]] + items[1..];
      assert Unflatten(column[n..]) == Some(items[1..]);
      FlattenUnflatten(column[n..]);
      assert ItemRun(items[0]) == column[..n];
      assert Flatten(items) == ItemRun(items[0]) + Flatten(items[1..]);
      assert column == column[..n] + column[n..];
    }
  }

  /** Two different menus are never laid out as the same column. */
  lemma FlattenInjective(a: seq<MenuItem>, b: seq<MenuItem>)
    ensures Flatten(a) == Flatten(b) ==> a == b
  {
    UnflattenFlatten(a);
    UnflattenFlatten(b);
  }

  lemma FlattenSnoc(items: seq<MenuItem>, item: MenuItem)
    ensures Flatten(items + [item]) == Flatten(items) + ItemRun(item)
  {
    FlattenConcat(items, [item]);
    assert Flatten([item]) == ItemRun(item) + Flatten([]);
  }

  /** The body of the `forEach` in `createLayout`: one dish's elements added to the column. */
  method AddMenuItem(column: seq<Element>, item: MenuItem) returns (column': seq<Element>)
    ensures column' == column + ItemRun(item)
  {
    column' := column + [Heading(item.name)];
    if item.description.Some? {
      column' := column' + [Text(item.description.value)];
    }
    column' := column' + [PriceText(item.price)];
  }

  /**
   * `createLayout`: a column builder to which each dish, in order, adds its
   * heading, its description if any, and its price.
   */
  method CreateLayout(state: LunchMenuTileState) returns (column: seq<Element>)
    ensures column == Flatten(state.todayMenu)
  {
    var items := state.todayMenu;
    column := [];
    var i := 0;
    while i < |items|
      invariant 0 <= i <= |items|
      invariant column == Flatten(items[..i])
    {
      column := AddMenuItem(column, items[i]);
      FlattenSnoc(items[..i], items[i]);
      assert items[..i + 1] == items[..i] + [items[i]];
      i := i + 1;
    }
    assert items[..i] == items;
  }

  /**
   * `getCurrentWeekday`: the day's enum name, all capitals. It lower-cases to
   * the key the menu is stored under, yet never equals that key.
   */
  function CurrentWeekday(today: Day): (weekday: string)
    ensures weekday != []
    ensures forall i :: 0 <= i < |weekday| ==> IsUpper(weekday[i])
    ensures Lowercase(weekday) == LookupKey(today)
    ensures weekday != LookupKey(today)
  {
    NameIsUpper(today);
    LookupKeyIsLowercaseName(today);
    assert Name(today)[0] != LookupKey(today)[0];
    Name(today)
  }

  /** `lunchMenuTileLayout`: weekday label, the content column and the "See more" chip. */
  function LunchMenuTileLayout(state: LunchMenuTileState, today: Day): (layout: TileLayout)
    ensures layout.primaryLabel == CurrentWeekday(today)
    ensures Unflatten(layout.content) == Some(state.todayMenu)
    ensures layout.primaryChip == SeeMoreChip
  {
    UnflattenFlatten(state.todayMenu);
    PrimaryLayout(CurrentWeekday(today), Flatten(state.todayMenu), SeeMoreChip)
  }

  /** The chip is the same whatever is on the menu, an empty menu included. */
  lemma ChipAlwaysPresent(state: LunchMenuTileState, today: Day)
    ensures LunchMenuTileLayout(state, today).primaryChip.text == "See more"
    ensures state.todayMenu == [] ==> LunchMenuTileLayout(state, today).content == []
  {
  }

  /** `produceRequestedResources`: whatever ids are asked for, nothing is added. */
  function ProduceRequestedResources(resources: Resources, resourceIds: seq<string>): (r: Resources)
    ensures r == resources
  {
    resources
  }
}
