/**
 * The home screen: the locally cached menu table, the menu-loading state
 * machine that fills it from the remote source once, the category toggle,
 * the search filter over the cached rows and the image URL of a dish.
 */
module Home {
  import opened Text

  /** The REAL price column. Nothing on the screen computes with it. */
  type Price(==, !new)

  /** One dish of the remote `menu` array, and the columns inserted for it. */
  datatype MenuItem = MenuItem(name: string, price: Price, description: string, image: string, category: string)

  /** A row of the `menu` table as `SELECT *` returns it: the AUTOINCREMENT id and the item's columns. */
  datatype Row = Row(id: int, item: MenuItem)

  /** What the remote request produced: the parsed `menu` array, or an error thrown by `fetch` or `response.json()`. */
  datatype FetchOutcome = Fetched(items: seq<MenuItem>) | FetchFailed

  const CATEGORIES: seq<string> := ["Starters", "Mains", "Desserts", "Drinks"]
  const IMAGE_BASE_URL := "https://raw.githubusercontent.com/Meta-Mobile-Developer-PC/Working-With-Data-API/main/images/"

  function ItemsOf(rows: seq<Row>): (items: seq<MenuItem>)
    ensures |items| == |rows|
    ensures forall i :: 0 <= i < |rows| ==> items[i] == rows[i].item
  {
    seq(|rows|, i requires 0 <= i < |rows| => rows[i].item)
  }

  /** The predicate of `menu.filter`: the category is unset or equal to the lower-cased selection, and the lower-cased name includes the lower-cased search text. */
  predicate Matches(row: Row, category: string, search: string)
  {
    && (category == "" || row.item.category == Lower(category))
    && Contains(Lower(row.item.name), Lower(search))
  }

  /** `filteredMenu`: a row is kept exactly when it matches, as often as the menu holds it. */
  function FilterMenu(menu: seq<Row>, category: string, search: string): (r: seq<Row>)
    ensures |r| <= |menu|
    ensures forall row :: row in r <==> row in menu && Matches(row, category, search)
    ensures forall row :: multiset(r)[row] == if Matches(row, category, search) then multiset(menu)[row] else 0
  {
    if menu == [] then []
    else
      assert menu == [menu[0]] + menu[1..];
      assert forall row :: row in menu <==> row == menu[0] || row in menu[1..];
      (if Matches(menu[0], category, search) then [menu[0]] else [])
      + FilterMenu(menu[1..], category, search)
  }

  /** `idx` picks the elements of `r` out of `s` at strictly increasing positions. */
  ghost predicate SubsequenceAt<T>(r: seq<T>, s: seq<T>, idx: seq<int>)
  {
    && |idx| == |r|
    && (forall k :: 0 <= k < |idx| ==> 0 <= idx[k] < |s| && r[k] == s[idx[k]])
    && (forall k, l :: 0 <= k < l < |idx| ==> idx[k] < idx[l])
  }

  ghost predicate IsSubsequence<T>(r: seq<T>, s: seq<T>)
  {
    exists idx :: SubsequenceAt(r, s, idx)
  }

  /** Positions into `s[1..]` become positions into `s`, and `s[0]` can be put in front. */
  lemma ShiftSubsequence<T>(r: seq<T>, s: seq<T>, idx: seq<int>) returns (shifted: seq<int>)
    requires |s| > 0 && SubsequenceAt(r, s[1..], idx)
    ensures SubsequenceAt(r, s, shifted)
    ensures SubsequenceAt([s[0]] + r, s, [0] + shifted)
  {
    shifted := seq(|idx|, k requires 0 <= k < |idx| => idx[k] + 1);
    assert forall k :: 0 <= k < |idx| ==> s[shifted[k]] == s[1..][idx[k]];
  }

  /** The filter is stable: what it shows is an order-preserving subsequence of the cached menu. */
  lemma {:induction false} FilterIsSubsequence(menu: seq<Row>, category: string, search: string)
    ensures IsSubsequence(FilterMenu(menu, category, search), menu)
  {
    if menu == [] {
      assert SubsequenceAt<Row>([], menu, []);
    } else {
      var rest := FilterMenu(menu[1..], category, search);
      FilterIsSubsequence(menu[1..], category, search);
      var idx :| SubsequenceAt(rest, menu[1..], idx);
      var shifted := ShiftSubsequence(rest, menu, idx);
      if Matches(menu[0], category, search) {
        assert FilterMenu(menu, category, search) == [menu[0]] + rest;
      } else {
        assert FilterMenu(menu, category, search) == rest;
      }
    }
  }

  /** With no category and an empty search the whole cached menu is shown, unchanged. */
  lemma {:induction false} FilterUnfiltered(menu: seq<Row>)
    ensures FilterMenu(menu, "", "") == menu
  {
    if menu != [] {
      ContainsEmpty(Lower(menu[0].item.name));
      assert Lower("") == "";
      FilterUnfiltered(menu[1..]);
      assert [menu[0]] + menu[1..] == menu;
    }
  }

  /** The category buttons: pressing the selected one clears the selection, any other one selects it. */
  function Toggle(selected: string, pressed: string): string
  {
    if selected == pressed then "" else pressed
  }

  /** The values `selectedCategory` can take: no selection or one of the four labels. */
  predicate IsSelection(s: string)
  {
    s == "" || s in CATEGORIES
  }

  lemma ToggleRule(selected: string, pressed: string)
    requires pressed != ""
    ensures Toggle(selected, pressed) == "" <==> selected == pressed
    ensures selected != pressed ==> Toggle(selected, pressed) == pressed
  {
  }

  /** Two presses of the same button end with no selection when it was not selected before, and back on it when it was. */
  lemma ToggleTwice(selected: string, pressed: string)
    requires pressed != ""
    ensures Toggle(Toggle(selected, pressed), pressed) == (if selected == pressed then pressed else "")
  {
  }

  lemma ToggleKeepsSelection(selected: string, pressed: string)
    requires IsSelection(selected) && pressed in CATEGORIES
    ensures IsSelection(Toggle(selected, pressed))
  {
  }

  /** `getImageUrl`: the fixed image base URL followed by the file name, which can be read back from it. */
  function ImageUrl(filename: string): (url: string)
    ensures IsPrefix(IMAGE_BASE_URL, url)
    ensures url[|IMAGE_BASE_URL|..] == filename
  {
    IMAGE_BASE_URL + filename
  }

  lemma ImageUrlInjective(a: string, b: string)
    requires ImageUrl(a) == ImageUrl(b)
    ensures a == b
  {
  }

  /** A dish whose name lacks the first letter of the search text is filtered out. */
  lemma NotContainsWithoutFirstChar(s: string, t: string)
    requires |t| > 0 && t[0] !in s
    ensures !Contains(s, t)
  {
    if Contains(s, t) {
      ContainsNeedsFirstChar(s, t);
    }
  }

  /** A one-dish cache: "Starters" and "greek" show the Greek Salad, "pizza" shows nothing. */
  lemma GreekSaladScenario(price: Price)
    ensures var salad := Row(1, MenuItem("Greek Salad", price, "", "greekSalad.jpg", "starters"));
      && FilterMenu([salad], "Starters", "greek") == [salad]
      && FilterMenu([salad], "Starters", "pizza") == []
  {
    var salad := Row(1, MenuItem("Greek Salad", price, "", "greekSalad.jpg", "starters"));
    LowerLiterals();
    assert IsPrefix("greek", "greek salad");
    NotContainsWithoutFirstChar("greek salad", "pizza");
    assert Matches(salad, "Starters", "greek");
    assert !Matches(salad, "Starters", "pizza");
  }

  lemma LowerLiterals()
    ensures Lower("Starters") == "starters"
    ensures Lower("Greek Salad") == "greek salad"
    ensures Lower("greek") == "greek"
    ensures Lower("pizza") == "pizza"
  {
  }

  /** The local `menu` table: rows in insertion order, ids from AUTOINCREMENT. */
  class MenuTable {
    var rows: seq<Row>
    var nextId: int

    ghost predicate Valid()
      reads this
    {
      && 1 <= nextId
      && (forall i :: 0 <= i < |rows| ==> 1 <= rows[i].id < nextId)
      && (forall i, j :: 0 <= i < j < |rows| ==> rows[i].id < rows[j].id)
    }

    /** `CREATE TABLE IF NOT EXISTS menu` on a fresh database. */
    constructor ()
      ensures Valid() && rows == []
    {
      rows := [];
      nextId := 1;
    }

    /** `SELECT * FROM menu`. */
    method SelectAll() returns (r: seq<Row>)
      ensures r == rows
    {
      r := rows;
    }

    /** `INSERT INTO menu ...`: the item is appended under a fresh id. */
    method Insert(item: MenuItem)
      requires Valid()
      modifies this
      ensures Valid()
      ensures rows == old(rows) + [Row(old(nextId), item)]
    {
      rows := rows + [Row(nextId, item)];
      nextId := nextId + 1;
    }
  }

  class HomeScreen {
    var selectedCategory: string
    var search: string
    var menu: seq<Row>
    var loading: bool
    const table: MenuTable

    ghost predicate Valid()
      reads this
    {
      IsSelection(selectedCategory)
    }

    constructor (table: MenuTable)
      ensures Valid()
      ensures selectedCategory == "Starters" && search == "" && menu == [] && loading
      ensures this.table == table
    {
      selectedCategory := "Starters";
      search := "";
      menu := [];
      loading := true;
      this.table := table;
    }

    method PressCategory(pressed: string)
      requires Valid() && pressed in CATEGORIES
      modifies this
      ensures Valid()
      ensures selectedCategory == Toggle(old(selectedCategory), pressed)
      ensures search == old(search) && menu == old(menu) && loading == old(loading)
    {
      selectedCategory := Toggle(selectedCategory, pressed);
    }

    method SetSearch(text: string)
      modifies this
      ensures search == text
      ensures selectedCategory == old(selectedCategory) && menu == old(menu) && loading == old(loading)
    {
      search := text;
    }

    /**
     * The mount effect: `loadMenu` reads the table; rows found are shown as
     * they are, an empty table is filled from the remote source. A failed
     * first read only clears `loading`.
     */
    method LoadMenu(selectFails: bool, fetch: FetchOutcome)
      requires table.Valid()
      modifies this, table
      ensures table.Valid()
      ensures selectedCategory == old(selectedCategory) && search == old(search)
      ensures !loading
      ensures selectFails ==> menu == old(menu) && table.rows == old(table.rows)
      ensures !selectFails && old(table.rows) != [] ==> menu == old(table.rows) && table.rows == old(table.rows)
      ensures !selectFails && old(table.rows) == [] && fetch.FetchFailed? ==> menu == [] && table.rows == []
      ensures !selectFails && old(table.rows) == [] && fetch.Fetched? ==> ItemsOf(table.rows) == fetch.items && menu == table.rows
    {
      loading := true;
      if selectFails {
        loading := false;
        return;
      }
      var rows := table.SelectAll();
      if |rows| > 0 {
        menu := rows;
        loading := false;
      } else {
        FetchAndStoreMenu(fetch);
      }
    }

    /**
     * `fetchAndStoreMenu`: every fetched item is inserted in order, then the
     * table is read back into `menu`. A failed fetch shows an empty menu.
     */
    method FetchAndStoreMenu(fetch: FetchOutcome)
      requires table.Valid()
      modifies this, table
      ensures table.Valid()
      ensures selectedCategory == old(selectedCategory) && search == old(search)
      ensures !loading
      ensures fetch.FetchFailed? ==> menu == [] && table.rows == old(table.rows)
      ensures fetch.Fetched? ==>
        && |table.rows| == |old(table.rows)| + |fetch.items|
        && table.rows[..|old(table.rows)|] == old(table.rows)
        && ItemsOf(table.rows[|old(table.rows)|..]) == fetch.items
        && menu == table.rows
    {
      match fetch
      case FetchFailed =>
        menu := [];
        loading := false;
      case Fetched(items) =>
        var i := 0;
        while i < |items|
          invariant 0 <= i <= |items|
          invariant table.Valid()
          invariant |table.rows| == |old(table.rows)| + i
          invariant table.rows[..|old(table.rows)|] == old(table.rows)
          invariant ItemsOf(table.rows[|old(table.rows)|..]) == items[..i]
          invariant selectedCategory == old(selectedCategory) && search == old(search)
        {
          table.Insert(items[i]);
          i := i + 1;
        }
        var rows := table.SelectAll();
        menu := rows;
        loading := false;
    }
  }
}
