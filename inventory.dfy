/**
 * The inventory store: a list of stock items held by a service object whose
 * operations replace that list. Persisting the list is an in-memory
 * assignment here; the clock-generated ids and timestamps are parameters or
 * left out.
 */
module Inventory {
  import opened Seqs
  import opened Grouping
  import opened Records

  /** The record of the last stock adjustment: `{ amount, reason }`. */
  datatype Adjustment = Adjustment(amount: real, reason: string)

  datatype Item = Item(
    id: string,
    name: string,
    description: Option<string>,
    sku: Option<string>,
    category: string,
    quantity: real,
    unitPrice: real,
    reorderLevel: real,
    totalValue: real,
    status: string,
    lastAdjustment: Option<Adjustment>)

  /**
   * The form data of a new item. A numeric field is `None` when it is
   * missing or does not parse as a number.
   */
  datatype ItemData = ItemData(
    id: Option<string>,
    name: string,
    description: Option<string>,
    sku: Option<string>,
    category: string,
    quantity: Option<real>,
    unitPrice: Option<real>,
    reorderLevel: Option<real>,
    status: Option<string>)

  /** The fields an update carries; `None` leaves a field as it is. */
  datatype ItemUpdate = ItemUpdate(
    name: Option<string>,
    description: Option<string>,
    sku: Option<string>,
    category: Option<string>,
    quantity: Option<real>,
    unitPrice: Option<real>,
    reorderLevel: Option<real>,
    status: Option<string>,
    lastAdjustment: Option<Adjustment>)

  /** `parseFloat(x) || fallback`: a missing, non-numeric or zero value gives the fallback. */
  function NumberOr(x: Option<real>, fallback: real): real
  {
    if x.Some? && x.value != 0.0 then x.value else fallback
  }

  function ItemIdOf(it: Item): string { it.id }
  function ItemCategoryOf(it: Item): string { it.category }
  function ValueOf(it: Item): real { it.totalValue }
  function QuantityOf(it: Item): real { it.quantity }

  predicate IsActive(it: Item) { it.status == "active" }

  /** Every item's value is its quantity times its unit price. */
  ghost predicate Consistent(items: seq<Item>)
  {
    forall it | it in items :: it.totalValue == it.quantity * it.unitPrice
  }

  /**
   * The item `addItem` builds: numeric fields parsed with their fallbacks
   * (quantity and price 0, reorder level 10), status "active" unless given,
   * and the value computed from quantity and price.
   */
  function NewItem(data: ItemData, generatedId: string): (it: Item)
    ensures it.totalValue == it.quantity * it.unitPrice
    ensures it.quantity == (if data.quantity.Some? && data.quantity.value != 0.0 then data.quantity.value else 0.0)
    ensures it.unitPrice == (if data.unitPrice.Some? && data.unitPrice.value != 0.0 then data.unitPrice.value else 0.0)
    ensures it.reorderLevel == (if data.reorderLevel.Some? && data.reorderLevel.value != 0.0 then data.reorderLevel.value else 10.0)
    ensures it.status == (if data.status.Some? && data.status.value != "" then data.status.value else "active")
    ensures it.id == (if data.id.Some? then data.id.value else generatedId)
    ensures it.name == data.name && it.description == data.description && it.sku == data.sku
    ensures it.category == data.category
    ensures it.lastAdjustment.None?
  {
    var quantity := NumberOr(data.quantity, 0.0);
    var unitPrice := NumberOr(data.unitPrice, 0.0);
    Item(
      if data.id.Some? then data.id.value else generatedId,
      data.name, data.description, data.sku, data.category,
      quantity, unitPrice, NumberOr(data.reorderLevel, 10.0),
      quantity * unitPrice, OrElse(data.status, "active"), None)
  }

  /**
   * The item `updateItem` writes back: the given fields replace the old
   * ones, except that a missing, non-numeric or zero quantity or unit price
   * keeps the old value; the value is recomputed.
   */
  function Updated(item: Item, u: ItemUpdate): (it: Item)
    ensures it.totalValue == it.quantity * it.unitPrice
    ensures it.quantity == (if u.quantity.Some? && u.quantity.value != 0.0 then u.quantity.value else item.quantity)
    ensures it.unitPrice == (if u.unitPrice.Some? && u.unitPrice.value != 0.0 then u.unitPrice.value else item.unitPrice)
    ensures it.id == item.id
    ensures it.name == (if u.name.Some? then u.name.value else item.name)
    ensures it.description == (if u.description.Some? then u.description else item.description)
    ensures it.sku == (if u.sku.Some? then u.sku else item.sku)
    ensures it.category == (if u.category.Some? then u.category.value else item.category)
    ensures it.reorderLevel == (if u.reorderLevel.Some? then u.reorderLevel.value else item.reorderLevel)
    ensures it.status == (if u.status.Some? then u.status.value else item.status)
    ensures it.lastAdjustment == (if u.lastAdjustment.Some? then u.lastAdjustment else item.lastAdjustment)
  {
    var quantity := NumberOr(u.quantity, item.quantity);
    var unitPrice := NumberOr(u.unitPrice, item.unitPrice);
    var merged := item.(
      name := if u.name.Some? then u.name.value else item.name,
      description := if u.description.Some? then u.description else item.description,
      sku := if u.sku.Some? then u.sku else item.sku,
      category := if u.category.Some? then u.category.value else item.category,
      reorderLevel := if u.reorderLevel.Some? then u.reorderLevel.value else item.reorderLevel,
      status := if u.status.Some? then u.status.value else item.status,
      lastAdjustment := if u.lastAdjustment.Some? then u.lastAdjustment else item.lastAdjustment);
    merged.(quantity := quantity, unitPrice := unitPrice, totalValue := quantity * unitPrice)
  }

  /** An update that leaves everything but the quantity and the adjustment record alone. */
  function StockUpdate(quantity: real, adjustment: Adjustment): ItemUpdate
  {
    ItemUpdate(None, None, None, None, Some(quantity), None, None, None, Some(adjustment))
  }

  /** `adjustStock` as written: the new quantity passes through `updateItem`'s `|| old`. */
  function AdjustedAsWritten(item: Item, adjustment: real, reason: string): Item
  {
    Updated(item, StockUpdate(item.quantity + adjustment, Adjustment(adjustment, reason)))
  }

  /** An adjustment that empties the stock leaves the old quantity in place. */
  lemma AdjustToZeroKeepsStock()
    ensures var item := Item("1", "Cement", None, None, "materials", 5.0, 2.0, 10.0, 10.0, "active", None);
            && item.quantity + -5.0 == 0.0
            && AdjustedAsWritten(item, -5.0, "used").quantity == 5.0
            && AdjustedAsWritten(AdjustedAsWritten(item, -5.0, "used"), 5.0, "returned").quantity == 10.0
  {
  }

  /** The adjusted item: the quantity becomes exactly `old + adjustment`, zero included. */
  function Adjusted(item: Item, adjustment: real, reason: string): (it: Item)
    ensures it.quantity == item.quantity + adjustment
    ensures it.totalValue == it.quantity * it.unitPrice
    ensures it.unitPrice == item.unitPrice && it.id == item.id && it.status == item.status
    ensures it.lastAdjustment == Some(Adjustment(adjustment, reason))
  {
    var quantity := item.quantity + adjustment;
    item.(quantity := quantity, totalValue := quantity * item.unitPrice,
          lastAdjustment := Some(Adjustment(adjustment, reason)))
  }

  /** After replacing one position, every item is the new one or was there before. */
  lemma ReplacedMembers(items: seq<Item>, i: nat, x: Item)
    requires i < |items|
    ensures forall it | it in items[i := x] :: it == x || it in items
  {
    forall it | it in items[i := x] ensures it == x || it in items {
      var m :| 0 <= m < |items| && items[i := x][m] == it;
      if m != i {
        assert items[m] == it;
      }
    }
  }

  /** Replacing one item by an item whose value is right keeps every value right. */
  lemma ReplaceKeepsConsistent(items: seq<Item>, i: nat, x: Item)
    requires i < |items| && Consistent(items) && x.totalValue == x.quantity * x.unitPrice
    ensures Consistent(items[i := x])
  {
    ReplacedMembers(items, i, x);
  }

  /** Adjusting by an amount and then by its negation restores the stock and its value. */
  lemma AdjustRoundTrip(item: Item, adjustment: real, r1: string, r2: string)
    requires item.totalValue == item.quantity * item.unitPrice
    ensures var back := Adjusted(Adjusted(item, adjustment, r1), -adjustment, r2);
            back.quantity == item.quantity && back.totalValue == item.totalValue
            && back == item.(lastAdjustment := Some(Adjustment(-adjustment, r2)))
  {
  }

  /** Where the adjusted quantity is not zero, the corrected and the written adjustment agree. */
  lemma AdjustedAgreesAwayFromZero(item: Item, adjustment: real, reason: string)
    requires item.quantity + adjustment != 0.0
    ensures AdjustedAsWritten(item, adjustment, reason) == Adjusted(item, adjustment, reason)
  {
  }

  /** `item.quantity <= threshold && item.status === 'active'` */
  function LowStock(threshold: real): Item -> bool
  {
    (it: Item) => it.quantity <= threshold && it.status == "active"
  }

  const DefaultThreshold: real := 10.0

  /**
   * `getLowStockItems(threshold)` keeps exactly the active items whose
   * quantity is at or below the threshold, in list order.
   */
  lemma LowStockItemsSpec(items: seq<Item>, threshold: real)
    ensures forall it | it in Filter(items, LowStock(threshold)) ::
              it in items && it.quantity <= threshold && it.status == "active"
    ensures forall it | it in items && it.quantity <= threshold && it.status == "active" ::
              it in Filter(items, LowStock(threshold))
  {
    FilterMembers(items, LowStock(threshold));
  }

  function IsEmpty(it: Item): bool { it.quantity == 0.0 }

  /** A category line of the breakdown: `{ count, value, quantity }` under its name. */
  datatype CategoryStock = CategoryStock(category: string, count: nat, value: real, quantity: real)

  datatype Stats = Stats(
    totalItems: nat,
    totalValue: real,
    lowStockCount: nat,
    outOfStock: nat,
    categoryBreakdown: seq<CategoryStock>,
    averageValue: real)

  function SummarizeStock(entry: (string, seq<Item>)): CategoryStock
  {
    CategoryStock(entry.0, |entry.1|, Sum(entry.1, ValueOf), Sum(entry.1, QuantityOf))
  }

  /** One line per group, in the order the categories were first met. */
  function StockLines(groups: seq<(string, seq<Item>)>): (r: seq<CategoryStock>)
    ensures |r| == |groups|
    ensures forall i :: 0 <= i < |groups| ==> r[i] == SummarizeStock(groups[i])
  {
    if groups == [] then []
    else StockLines(groups[..|groups| - 1]) + [SummarizeStock(groups[|groups| - 1])]
  }

  function Breakdown(active: seq<Item>): seq<CategoryStock>
  {
    StockLines(Group(active, ItemCategoryOf))
  }

  /** `count++; value += totalValue; quantity += quantity` on an existing line. */
  function Tally(line: CategoryStock, it: Item): CategoryStock
  {
    line.(count := line.count + 1, value := line.value + it.totalValue, quantity := line.quantity + it.quantity)
  }

  /** What `getInventoryStats` returns for a list of items. */
  function InventoryStats(items: seq<Item>): Stats
  {
    var active := Filter(items, IsActive);
    var totalValue := Sum(active, ValueOf);
    Stats(
      |active|, totalValue,
      |Filter(items, LowStock(DefaultThreshold))|,
      |Filter(active, IsEmpty)|,
      Breakdown(active),
      if |active| > 0 then totalValue / |active| as real else 0.0)
  }

  function FindStock(breakdown: seq<CategoryStock>, category: string): (i: nat)
    ensures i <= |breakdown|
    ensures i < |breakdown| ==> breakdown[i].category == category
  {
    if breakdown == [] then 0
    else if breakdown[0].category == category then 0
    else 1 + FindStock(breakdown[1..], category)
  }

  lemma {:induction false} FindStockLines(groups: seq<(string, seq<Item>)>, category: string)
    ensures FindStock(StockLines(groups), category) == IndexOf(groups, category)
  {
    if groups != [] {
      FindStockLines(groups[1..], category);
      assert StockLines(groups)[1..] == StockLines(groups[1..]);
    }
  }

  lemma BreakdownStep(active: seq<Item>, it: Item, b: seq<CategoryStock>, i: nat)
    requires b == Breakdown(active) && i == FindStock(b, it.category)
    ensures Breakdown(active + [it]) ==
              if i < |b| then b[i := Tally(b[i], it)]
              else b + [CategoryStock(it.category, 1, it.totalValue, it.quantity)]
  {
    var g := Group(active, ItemCategoryOf);
    var g' := AddTo(g, it.category, it);
    assert (active + [it])[..|active|] == active;
    assert Group(active + [it], ItemCategoryOf) == g';
    FindStockLines(g, it.category);
    if i < |g| {
      assert g' == g[i := (g[i].0, g[i].1 + [it])];
      ExistingStockStep(g, i, it, g');
    } else {
      assert g' == g + [(it.category, [it])];
      NewStockStep(g, it);
    }
  }

  /** Counting an item in the line at `i` changes that line alone. */
  lemma ExistingStockStep(g: seq<(string, seq<Item>)>, i: nat, it: Item, g': seq<(string, seq<Item>)>)
    requires i < |g| && g' == g[i := (g[i].0, g[i].1 + [it])]
    ensures StockLines(g') == StockLines(g)[i := Tally(StockLines(g)[i], it)]
  {
    var members := g[i].1;
    assert (members + [it])[..|members|] == members;
    assert g[i] == (g[i].0, members);
    var lines := StockLines(g);
    var updated := lines[i := Tally(lines[i], it)];
    assert forall j :: 0 <= j < |g| ==> StockLines(g')[j] == updated[j];
  }

  /** An item of a category not seen yet opens a line at the end. */
  lemma NewStockStep(g: seq<(string, seq<Item>)>, it: Item)
    ensures StockLines(g + [(it.category, [it])]) ==
              StockLines(g) + [CategoryStock(it.category, 1, it.totalValue, it.quantity)]
  {
    SumSingleton(it, ValueOf);
    SumSingleton(it, QuantityOf);
    assert (g + [(it.category, [it])])[..|g|] == g;
  }

  function SumStockCounts(b: seq<CategoryStock>): nat
  {
    if b == [] then 0 else SumStockCounts(b[..|b| - 1]) + b[|b| - 1].count
  }

  lemma {:induction false} SumStockCountsGroups(groups: seq<(string, seq<Item>)>)
    ensures SumStockCounts(StockLines(groups)) == TotalSize(groups)
  {
    if groups != [] {
      SumStockCountsGroups(groups[..|groups| - 1]);
    }
  }

  /**
   * What `getInventoryStats` promises: it counts and values only active
   * items, it counts as out of stock the active items with no quantity, its
   * breakdown has one line per category of active item whose count, value
   * and quantity are those of that category's items, and the counts add up
   * to the number of active items.
   */
  lemma InventoryStatsSpec(items: seq<Item>)
    ensures var s := InventoryStats(items);
            && s.totalItems == Count(items, IsActive)
            && s.outOfStock == |Filter(Filter(items, IsActive), IsEmpty)|
            && (s.totalItems == 0 ==> s.averageValue == 0.0)
            && SumStockCounts(s.categoryBreakdown) == s.totalItems
            && (forall i, j :: 0 <= i < j < |s.categoryBreakdown| ==>
                  s.categoryBreakdown[i].category != s.categoryBreakdown[j].category)
            && forall c | c in s.categoryBreakdown ::
                 var members := Filter(Filter(items, IsActive), KeyIs(ItemCategoryOf, c.category));
                 && c.count > 0
                 && c.count == |members| && c.value == Sum(members, ValueOf) && c.quantity == Sum(members, QuantityOf)
  {
    var active := Filter(items, IsActive);
    GroupSpec(active, ItemCategoryOf);
    GroupTotalSize(active, ItemCategoryOf);
    SumStockCountsGroups(Group(active, ItemCategoryOf));
  }

  /** Empty stock of an active item is also low stock: the two counts overlap. */
  lemma OutOfStockIsLowStock(items: seq<Item>)
    ensures forall it | it in Filter(Filter(items, IsActive), IsEmpty) ::
              it in Filter(items, LowStock(DefaultThreshold))
  {
    var active := Filter(items, IsActive);
    FilterMembers(items, IsActive);
    FilterMembers(active, IsEmpty);
    FilterMembers(items, LowStock(DefaultThreshold));
  }

  // ------------------------------------------------------------------ search

  /** ASCII lower-casing of one character. */
  function LowerChar(c: char): char
  {
    if 'A' <= c <= 'Z' then (c as int + 32) as char else c
  }

  function Lower(s: string): string
  {
    seq(|s|, i requires 0 <= i < |s| => LowerChar(s[i]))
  }

  /** `s.includes(sub)` */
  predicate Contains(s: string, sub: string)
  {
    exists i | 0 <= i <= |s| :: sub <= s[i..]
  }

  /** The search condition for an already lower-cased query. */
  function MatchesQuery(lowerQuery: string): Item -> bool
  {
    (it: Item) =>
      Contains(Lower(it.name), lowerQuery)
      || (it.description.Some? && Contains(Lower(it.description.value), lowerQuery))
      || (it.sku.Some? && Contains(Lower(it.sku.value), lowerQuery))
      || Contains(Lower(it.category), lowerQuery)
  }

  function Search(items: seq<Item>, query: string): seq<Item>
  {
    Filter(items, MatchesQuery(Lower(query)))
  }

  lemma LowerIdempotent(s: string)
    ensures Lower(Lower(s)) == Lower(s)
  {
  }

  /**
   * `searchItems` returns, in list order, exactly the items whose name,
   * description, sku or category contains the query; upper and lower case
   * make no difference, and the empty query returns every item.
   */
  lemma SearchSpec(items: seq<Item>, query: string)
    ensures forall it | it in Search(items, query) :: it in items && MatchesQuery(Lower(query))(it)
    ensures forall it | it in items && MatchesQuery(Lower(query))(it) :: it in Search(items, query)
    ensures Search(items, Lower(query)) == Search(items, query)
    ensures query == "" ==> Search(items, query) == items
  {
    FilterMembers(items, MatchesQuery(Lower(query)));
    LowerIdempotent(query);
    if query == "" {
      forall it | it in items ensures MatchesQuery(Lower(query))(it) {
        assert "" <= Lower(it.name)[0..];
      }
      FilterAll(items, MatchesQuery(Lower(query)));
    }
  }

  /** The `categoryBreakdown` loop of `getInventoryStats`, over the active items. */
  method FillBreakdown(active: seq<Item>) returns (breakdown: seq<CategoryStock>)
    ensures breakdown == Breakdown(active)
  {
    breakdown := [];
    ghost var raw: seq<(string, seq<Item>)> := [];
    for n := 0 to |active|
      invariant raw == Group(active[..n], ItemCategoryOf) && breakdown == StockLines(raw)
    {
      var it := active[n];
      var i := FindStock(breakdown, it.category);
      FindStockLines(raw, it.category);
      GroupPrefixStep(active, ItemCategoryOf, n);
      ghost var next := AddTo(raw, it.category, it);
      if i < |breakdown| {
        assert next == raw[i := (raw[i].0, raw[i].1 + [it])];
        ExistingStockStep(raw, i, it, next);
        breakdown := breakdown[i := Tally(breakdown[i], it)];
      } else {
        assert next == raw + [(it.category, [it])];
        NewStockStep(raw, it);
        // a fresh line `{ count: 0, value: 0, quantity: 0 }`, then the item counted in it
        breakdown := breakdown + [CategoryStock(it.category, 1, it.totalValue, it.quantity)];
      }
      raw := next;
    }
    assert active[..|active|] == active;
  }

  // ----------------------------------------------------------------- service

  class InventoryService {
    var items: seq<Item>

    /** The service starts from whatever list was stored before. */
    constructor(stored: seq<Item>)
      ensures items == stored
    {
      items := stored;
    }

    /** `getItemById`: the first item with that id. */
    function GetItemById(id: string): (r: Option<Item>)
      reads this
      ensures r.None? <==> forall it | it in items :: it.id != id
      ensures r.Some? ==> r.value in items && r.value.id == id
      ensures forall i | 0 <= i < |items| && items[i].id == id && (forall j | 0 <= j < i :: items[j].id != id) ::
                r == Some(items[i])
    {
      var i := Find(items, ItemIdOf, id);
      if i < |items| then Some(items[i]) else None
    }

    /** `getLowStockItems(threshold = 10)`. */
    function GetLowStockItems(threshold: real := DefaultThreshold): seq<Item>
      reads this
    {
      Filter(items, LowStock(threshold))
    }

    /** `addItem`: one new item at the end; the others are untouched. */
    method AddItem(data: ItemData, generatedId: string) returns (item: Item)
      modifies this
      ensures item == NewItem(data, generatedId)
      ensures items == old(items) + [item]
      ensures Consistent(old(items)) ==> Consistent(items)
    {
      item := NewItem(data, generatedId);
      items := items + [item];
    }

    /**
     * `updateItem`: nothing changes for an unknown id; otherwise only the
     * first item with the id is replaced, in place.
     */
    method UpdateItem(id: string, u: ItemUpdate) returns (r: Option<Item>)
      modifies this
      ensures r.None? <==> forall it | it in old(items) :: it.id != id
      ensures r.None? ==> items == old(items)
      ensures r.Some? ==>
                var i := Find(old(items), ItemIdOf, id);
                && r.value == Updated(old(items)[i], u)
                && items == old(items)[i := r.value]
      ensures Consistent(old(items)) ==> Consistent(items)
    {
      var i := Find(items, ItemIdOf, id);
      if i == |items| {
        return None;
      }
      var updated := Updated(items[i], u);
      items := items[i := updated];
      r := Some(updated);
    }

    /** `deleteItem`: drops every item with the id and reports success. */
    method DeleteItem(id: string) returns (ok: bool)
      modifies this
      ensures ok
      ensures items == Filter(old(items), Not(KeyIs(ItemIdOf, id)))
      ensures forall it | it in items :: it.id != id
      ensures forall it | it in old(items) && it.id != id :: it in items
      ensures Consistent(old(items)) ==> Consistent(items)
    {
      FilterMembers(items, Not(KeyIs(ItemIdOf, id)));
      items := Filter(items, Not(KeyIs(ItemIdOf, id)));
      ok := true;
    }

    /**
     * `adjustStock`, corrected: nothing changes for an unknown id or for an
     * adjustment that would make the quantity negative; otherwise the first
     * item with the id gets the quantity `old + adjustment`.
     */
    method AdjustStock(id: string, adjustment: real, reason: string) returns (r: Option<Item>)
      modifies this
      ensures (forall it | it in old(items) :: it.id != id) ==> r.None? && items == old(items)
      ensures r.None? ==> items == old(items)
      ensures var i := Find(old(items), ItemIdOf, id);
              i < |old(items)| ==>
                if old(items)[i].quantity + adjustment < 0.0 then r.None?
                else r == Some(Adjusted(old(items)[i], adjustment, reason))
                     && items == old(items)[i := r.value]
      ensures Consistent(old(items)) ==> Consistent(items)
      ensures (forall it | it in old(items) :: it.quantity >= 0.0) ==>
                forall it | it in items :: it.quantity >= 0.0
    {
      // the lookup `getItemById` makes, kept as the index it finds
      var i := Find(items, ItemIdOf, id);
      var found := if i < |items| then Some(items[i]) else None;
      if found.None? {
        return None;
      }
      var item := found.value;
      var newQuantity := item.quantity + adjustment;
      if newQuantity < 0.0 {
        return None;
      }
      var adjusted := Adjusted(item, adjustment, reason);
      Store(i, adjusted);
      assert Consistent(old(items)) ==> Consistent(items);
      r := Some(adjusted);
    }

    /** Writes `x` at position `i`: the `updatedItems[index] = ...` step of an update. */
    method Store(i: nat, x: Item)
      requires i < |items|
      modifies this
      ensures items == old(items)[i := x]
      ensures Consistent(old(items)) && x.totalValue == x.quantity * x.unitPrice ==> Consistent(items)
      ensures (forall it | it in old(items) :: it.quantity >= 0.0) && x.quantity >= 0.0 ==>
                forall it | it in items :: it.quantity >= 0.0
    {
      ReplacedMembers(items, i, x);
      if Consistent(items) && x.totalValue == x.quantity * x.unitPrice {
        ReplaceKeepsConsistent(items, i, x);
      }
      items := items[i := x];
    }

    /** `getInventoryStats`. */
    method GetInventoryStats() returns (s: Stats)
      ensures s == InventoryStats(items)
    {
      var active := Filter(items, IsActive);
      var totalValue := Sum(active, ValueOf);
      var breakdown := FillBreakdown(active);
      s := Stats(
        |active|, totalValue,
        |GetLowStockItems()|,
        |Filter(active, IsEmpty)|,
        breakdown,
        if |active| > 0 then totalValue / |active| as real else 0.0);
    }

    /** `searchItems(query)` */
    function SearchItems(query: string): seq<Item>
      reads this
    {
      Search(items, query)
    }
  }
}
