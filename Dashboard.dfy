/**
 * The sales figures of the admin dashboard (components/Dashboard.tsx:39-79)
 * over the orders of the chosen period: revenue, order count, average order
 * value, the five best-selling products and the revenue per category.
 *
 * The per-product and per-category dictionaries the component fills in its
 * nested loops are maps here, each with the list of its keys in the order
 * JavaScript enumerates them: category names in insertion order, product ids
 * (integer keys) in ascending order.
 */
module Dashboard {
  import opened Types
  import opened Tables
  import opened CartRules
  import opened Sorting
  import Sale

  /** An entry of `productSales`. */
  datatype ProductSale = ProductSale(quantity: int, name: string)

  /** An entry of `topCategories`. */
  datatype CategorySale = CategorySale(name: string, value: real)

  /** A dictionary together with its keys in insertion order. */
  datatype ProductTable = ProductTable(sales: map<int, ProductSale>, keys: seq<int>)
  datatype CategoryTable = CategoryTable(sales: map<string, real>, keys: seq<string>)

  datatype Summary = Summary(
    totalRevenue: real,
    totalOrders: int,
    averageOrderValue: real,
    topProducts: seq<ProductSale>,
    topCategories: seq<CategorySale>)

  /** The keys list names each key of the map exactly once. */
  ghost predicate KeysListed<K(!new), V>(m: map<K, V>, keys: seq<K>) {
    && (forall k :: k in m <==> k in keys)
    && (forall i, j :: 0 <= i < j < |keys| ==> keys[i] != keys[j])
  }

  ghost predicate HasCategory(lines: seq<CartItem>, c: string) {
    exists k :: 0 <= k < |lines| && lines[k].category == c
  }

  /** The lines of all orders, order after order, in the order the loops visit them. */
  function Lines(orders: seq<CompletedOrder>): seq<CartItem>
    decreases |orders|
  {
    if |orders| == 0 then [] else Lines(orders[..|orders| - 1]) + orders[|orders| - 1].cartItems
  }

  /** `filteredOrders.reduce((acc, order) => acc + order.total, 0)`. */
  function Revenue(orders: seq<CompletedOrder>): real
    decreases |orders|
  {
    if |orders| == 0 then 0.0 else Revenue(orders[..|orders| - 1]) + orders[|orders| - 1].total
  }

  /** The revenue of the lines in category `c`. */
  function CategoryRevenue(lines: seq<CartItem>, c: string): real
    decreases |lines|
  {
    if |lines| == 0 then 0.0
    else CategoryRevenue(lines[..|lines| - 1], c) + (if lines[|lines| - 1].category == c then LineTotal(lines[|lines| - 1]) else 0.0)
  }

  // ---- The loop bodies (lines 49-60) as steps, and their folds ----

  /** Lines 49-53: an id seen before adds to its quantity; a new id gets an entry with the line's quantity and name. */
  function ProductStep(t: ProductTable, line: CartItem): ProductTable {
    if line.id in t.sales then
      ProductTable(t.sales[line.id := t.sales[line.id].(quantity := t.sales[line.id].quantity + line.quantity)], t.keys)
    else
      ProductTable(t.sales[line.id := ProductSale(line.quantity, line.name)], t.keys + [line.id])
  }

  /**
   * Lines 55-60 as written: the entry is added to when it is truthy, that is
   * present and non-zero, and set to the line's revenue otherwise. A new key
   * is enumerated after the existing ones; overwriting a key keeps its place.
   */
  function CategoryStep(t: CategoryTable, line: CartItem): CategoryTable {
    var c, revenue := line.category, LineTotal(line);
    if c in t.sales && t.sales[c] != 0.0 then CategoryTable(t.sales[c := t.sales[c] + revenue], t.keys)
    else if c in t.sales then CategoryTable(t.sales[c := revenue], t.keys)
    else CategoryTable(t.sales[c := revenue], t.keys + [c])
  }

  function ProductTally(lines: seq<CartItem>): (t: ProductTable)
    ensures forall k :: k in t.keys ==> k in t.sales
    decreases |lines|
  {
    if |lines| == 0 then ProductTable(map[], [])
    else ProductStep(ProductTally(lines[..|lines| - 1]), lines[|lines| - 1])
  }

  function CategoryTally(lines: seq<CartItem>): (t: CategoryTable)
    ensures forall k :: k in t.keys ==> k in t.sales
    decreases |lines|
  {
    if |lines| == 0 then CategoryTable(map[], [])
    else CategoryStep(CategoryTally(lines[..|lines| - 1]), lines[|lines| - 1])
  }

  /**
   * `productSales` after the loops: one entry per product id on the lines,
   * holding the total quantity sold of that id and the name on its first line.
   */
  lemma {:induction false} ProductTallyMeaning(lines: seq<CartItem>)
    ensures var t := ProductTally(lines);
      && KeysListed(t.sales, t.keys)
      && (forall id :: id in t.sales <==> HasId(lines, CartItemId, id))
      && (forall id :: id in t.sales ==>
            && t.sales[id].quantity == Sale.QuantityFor(lines, id)
            && FirstIndex(lines, CartItemId, id) < |lines|
            && t.sales[id].name == lines[FirstIndex(lines, CartItemId, id)].name)
    decreases |lines|
  {
    if |lines| > 0 {
      var init, x := lines[..|lines| - 1], lines[|lines| - 1];
      assert lines == init + [x];
      ProductTallyMeaning(init);
      TallyAppend(init, x);
      var t0 := ProductTally(init);
      ProductStepKeys(t0, x);
      forall id
        ensures id in ProductStep(t0, x).sales <==> HasId(init + [x], CartItemId, id)
        ensures id in ProductStep(t0, x).sales ==> ProductEntry(ProductStep(t0, x), init + [x], id)
      {
        ProductStepEntry(t0, init, x, id);
      }
    }
  }

  /** What the entry for `id` holds after the loops over `lines`. */
  ghost predicate ProductEntry(t: ProductTable, lines: seq<CartItem>, id: int)
    requires id in t.sales
  {
    && t.sales[id].quantity == Sale.QuantityFor(lines, id)
    && FirstIndex(lines, CartItemId, id) < |lines|
    && t.sales[id].name == lines[FirstIndex(lines, CartItemId, id)].name
  }

  /** The product step keeps the key list in step with the dictionary. */
  lemma ProductStepKeys(t0: ProductTable, x: CartItem)
    requires KeysListed(t0.sales, t0.keys)
    ensures KeysListed(ProductStep(t0, x).sales, ProductStep(t0, x).keys)
  {
    if x.id !in t0.sales {
      var keys := t0.keys + [x.id];
      forall i, j | 0 <= i < j < |keys| ensures keys[i] != keys[j] {
        assert keys[i] == t0.keys[i];
        if j < |t0.keys| {
          assert keys[j] == t0.keys[j];
        }
      }
    }
  }

  /** The product step for one id: its entry follows the line just visited. */
  lemma ProductStepEntry(t0: ProductTable, init: seq<CartItem>, x: CartItem, id: int)
    requires id in t0.sales <==> HasId(init, CartItemId, id)
    requires id in t0.sales ==> ProductEntry(t0, init, id)
    ensures var t, lines := ProductStep(t0, x), init + [x];
      && (id in t.sales <==> HasId(lines, CartItemId, id))
      && (id in t.sales ==> ProductEntry(t, lines, id))
  {
    HasIdAppend(init, x, id);
    if id in t0.sales {
      SeenEntryStep(t0, init, x, id);
    } else if id == x.id {
      NewEntryStep(t0, init, x);
    }
  }

  lemma HasIdAppend(init: seq<CartItem>, x: CartItem, id: int)
    ensures HasId(init + [x], CartItemId, id) <==> HasId(init, CartItemId, id) || x.id == id
  {
    var lines := init + [x];
    if HasId(lines, CartItemId, id) && id != x.id {
      var k :| 0 <= k < |lines| && lines[k].id == id;
      assert init[k].id == id;
    }
    if HasId(init, CartItemId, id) {
      var k :| 0 <= k < |init| && init[k].id == id;
      assert lines[k].id == id;
    }
    assert lines[|init|] == x;
  }

  /** An id seen before keeps its first line and adds the new line's units. */
  lemma SeenEntryStep(t0: ProductTable, init: seq<CartItem>, x: CartItem, id: int)
    requires id in t0.sales && ProductEntry(t0, init, id)
    ensures id in ProductStep(t0, x).sales && ProductEntry(ProductStep(t0, x), init + [x], id)
  {
    var t, lines := ProductStep(t0, x), init + [x];
    FirstIndexAppend(init, CartItemId, id, x);
    QuantityForAppend(init, x, id);
    var f := FirstIndex(init, CartItemId, id);
    assert lines[f] == init[f];
    assert t.sales[id].name == t0.sales[id].name;
  }

  /** An id not seen before gets the new line's units and name. */
  lemma NewEntryStep(t0: ProductTable, init: seq<CartItem>, x: CartItem)
    requires x.id !in t0.sales && !HasId(init, CartItemId, x.id)
    ensures x.id in ProductStep(t0, x).sales && ProductEntry(ProductStep(t0, x), init + [x], x.id)
  {
    var lines := init + [x];
    FirstIndexAppend(init, CartItemId, x.id, x);
    QuantityForAppend(init, x, x.id);
    Sale.QuantityForAbsent(init, x.id);
    assert lines[|init|] == x;
  }

  lemma QuantityForAppend(init: seq<CartItem>, x: CartItem, id: int)
    ensures Sale.QuantityFor(init + [x], id) == Sale.QuantityFor(init, id) + (if x.id == id then x.quantity else 0)
  {
    assert (init + [x])[..|init|] == init;
  }

  /** `categorySales` after the loops: one entry per category on the lines, holding that category's revenue. */
  lemma {:induction false} CategoryTallyMeaning(lines: seq<CartItem>)
    ensures var t := CategoryTally(lines);
      && KeysListed(t.sales, t.keys)
      && (forall c :: c in t.sales <==> HasCategory(lines, c))
      && (forall c :: c in t.sales ==> t.sales[c] == CategoryRevenue(lines, c))
    decreases |lines|
  {
    if |lines| > 0 {
      var init, x := lines[..|lines| - 1], lines[|lines| - 1];
      assert lines == init + [x];
      CategoryTallyMeaning(init);
      TallyAppend(init, x);
      var t0 := CategoryTally(init);
      CategoryStepKeys(t0, x);
      forall c
        ensures c in CategoryStep(t0, x).sales <==> HasCategory(init + [x], c)
        ensures c in CategoryStep(t0, x).sales ==> CategoryStep(t0, x).sales[c] == CategoryRevenue(init + [x], c)
      {
        CategoryStepEntry(t0, init, x, c);
      }
    }
  }

  /** The category step keeps the key list in step with the dictionary. */
  lemma CategoryStepKeys(t0: CategoryTable, x: CartItem)
    requires KeysListed(t0.sales, t0.keys)
    ensures KeysListed(CategoryStep(t0, x).sales, CategoryStep(t0, x).keys)
  {
    if x.category !in t0.sales {
      var keys := t0.keys + [x.category];
      forall i, j | 0 <= i < j < |keys| ensures keys[i] != keys[j] {
        assert keys[i] == t0.keys[i];
        if j < |t0.keys| {
          assert keys[j] == t0.keys[j];
        }
      }
    }
  }

  /** The category step for one category: its entry follows the line just visited. */
  lemma CategoryStepEntry(t0: CategoryTable, init: seq<CartItem>, x: CartItem, c: string)
    requires c in t0.sales <==> HasCategory(init, c)
    requires c in t0.sales ==> t0.sales[c] == CategoryRevenue(init, c)
    ensures var t, lines := CategoryStep(t0, x), init + [x];
      && (c in t.sales <==> HasCategory(lines, c))
      && (c in t.sales ==> t.sales[c] == CategoryRevenue(lines, c))
  {
    var lines := init + [x];
    HasCategoryAppend(init, x, c);
    assert lines[..|init|] == init;
    assert CategoryRevenue(lines, c) == CategoryRevenue(init, c) + (if x.category == c then LineTotal(x) else 0.0);
    if c !in t0.sales {
      CategoryRevenueAbsent(init, c);
    }
  }

  lemma HasCategoryAppend(init: seq<CartItem>, x: CartItem, c: string)
    ensures HasCategory(init + [x], c) <==> HasCategory(init, c) || x.category == c
  {
    var lines := init + [x];
    if HasCategory(lines, c) && c != x.category {
      var k :| 0 <= k < |lines| && lines[k].category == c;
      assert init[k].category == c;
    }
    if HasCategory(init, c) {
      var k :| 0 <= k < |init| && init[k].category == c;
      assert lines[k].category == c;
    }
    assert lines[|init|] == x;
  }

  /** A category on none of the lines has no revenue. */
  lemma {:induction false} CategoryRevenueAbsent(lines: seq<CartItem>, c: string)
    requires !HasCategory(lines, c)
    ensures CategoryRevenue(lines, c) == 0.0
    decreases |lines|
  {
    if |lines| > 0 {
      var init := lines[..|lines| - 1];
      assert !HasCategory(init, c) by {
        forall k | 0 <= k < |init| ensures init[k].category != c {
          assert lines[k] == init[k];
        }
      }
      CategoryRevenueAbsent(init, c);
    }
  }

  // ---- Category revenue adds up to the revenue of all lines ----

  function SumValues(m: map<string, real>, keys: seq<string>): real
    requires forall k :: k in keys ==> k in m
    decreases |keys|
  {
    if |keys| == 0 then 0.0 else SumValues(m, keys[..|keys| - 1]) + m[keys[|keys| - 1]]
  }

  lemma {:induction false} SumValuesUpdate(m: map<string, real>, keys: seq<string>, c: string, v: real)
    requires forall k :: k in keys ==> k in m
    requires forall i, j :: 0 <= i < j < |keys| ==> keys[i] != keys[j]
    requires c in m
    ensures c !in keys ==> SumValues(m[c := v], keys) == SumValues(m, keys)
    ensures c in keys ==> SumValues(m[c := v], keys) == SumValues(m, keys) - m[c] + v
    decreases |keys|
  {
    if |keys| > 0 {
      var init := keys[..|keys| - 1];
      SumValuesUpdate(m, init, c, v);
      if keys[|keys| - 1] == c {
        assert c !in init;
      } else if c in keys {
        var i :| 0 <= i < |keys| && keys[i] == c;
        assert c in init by { assert init[i] == c; }
      }
    }
  }

  /** Summed over the categories, `categorySales` is the revenue of every line sold. */
  lemma {:induction false} CategorySalesAddUp(lines: seq<CartItem>)
    ensures var t := CategoryTally(lines); SumValues(t.sales, t.keys) == Subtotal(lines)
    decreases |lines|
  {
    if |lines| > 0 {
      var init, x := lines[..|lines| - 1], lines[|lines| - 1];
      assert lines == init + [x];
      CategorySalesAddUp(init);
      CategoryTallyMeaning(init);
      TallyAppend(init, x);
      SubtotalOfAppend(init, x);
      var t0, t := CategoryTally(init), CategoryTally(lines);
      var before := SumValues(t0.sales, t0.keys);
      assert before == Subtotal(init);
      assert Subtotal(lines) == before + LineTotal(x);
      StepAddsLine(t0, x);
    }
  }

  /** One step of the category loop adds the line's revenue to the sum over the keys. */
  lemma StepAddsLine(t0: CategoryTable, x: CartItem)
    requires KeysListed(t0.sales, t0.keys)
    ensures var t := CategoryStep(t0, x);
      (forall k :: k in t.keys ==> k in t.sales) && SumValues(t.sales, t.keys) == SumValues(t0.sales, t0.keys) + LineTotal(x)
  {
    var c, v := x.category, LineTotal(x);
    var t := CategoryStep(t0, x);
    if c in t0.sales {
      var nv := if t0.sales[c] != 0.0 then t0.sales[c] + v else v;
      assert t == CategoryTable(t0.sales[c := nv], t0.keys);
      SumValuesUpdate(t0.sales, t0.keys, c, nv);
    } else {
      assert t == CategoryTable(t0.sales[c := v], t0.keys + [c]);
      SumValuesAppend(t.sales, t0.keys, c);
      SumValuesSameOnKeys(t.sales, t0.sales, t0.keys);
    }
  }

  lemma SubtotalOfAppend(init: seq<CartItem>, x: CartItem)
    ensures Subtotal(init + [x]) == Subtotal(init) + LineTotal(x)
  {
    SubtotalAppend(init, [x]);
    assert Subtotal([x]) == LineTotal(x) + Subtotal([]);
  }

  lemma SumValuesAppend(m: map<string, real>, keys: seq<string>, c: string)
    requires forall k :: k in keys ==> k in m
    requires c in m
    ensures SumValues(m, keys + [c]) == SumValues(m, keys) + m[c]
  {
    assert (keys + [c])[..|keys|] == keys;
  }

  lemma {:induction false} SumValuesSameOnKeys(m: map<string, real>, n: map<string, real>, keys: seq<string>)
    requires forall k :: k in keys ==> k in m && k in n && m[k] == n[k]
    ensures SumValues(m, keys) == SumValues(n, keys)
    decreases |keys|
  {
    if |keys| > 0 {
      SumValuesSameOnKeys(m, n, keys[..|keys| - 1]);
    }
  }

  // ---- The top lists (lines 64-70) ----

  function QuantityKey(p: ProductSale): real {
    p.quantity as real
  }

  function ValueKey(c: CategorySale): real {
    c.value
  }

  /** Sorting ids by this key, largest first, lists them in ascending order. */
  function AscendingKey(id: int): real {
    -(id as real)
  }

  function ValuesAt(sales: map<int, ProductSale>, ids: seq<int>): (r: seq<ProductSale>)
    requires forall i :: 0 <= i < |ids| ==> ids[i] in sales
    ensures |r| == |ids|
    ensures forall i :: 0 <= i < |ids| ==> r[i] == sales[ids[i]]
  {
    seq(|ids|, i requires 0 <= i < |ids| => sales[ids[i]])
  }

  /** `Object.values(productSales)`: the entries in ascending id order. */
  function ProductValues(t: ProductTable): (r: seq<ProductSale>)
    requires forall k :: k in t.keys ==> k in t.sales
    ensures |r| == |t.keys|
  {
    SortedIdsInDomain(t);
    ValuesAt(t.sales, SortDesc(t.keys, AscendingKey))
  }

  lemma SortedIdsInDomain(t: ProductTable)
    requires forall k :: k in t.keys ==> k in t.sales
    ensures forall i :: 0 <= i < |SortDesc(t.keys, AscendingKey)| ==> SortDesc(t.keys, AscendingKey)[i] in t.sales
  {
    var ids := SortDesc(t.keys, AscendingKey);
    forall i | 0 <= i < |ids| ensures ids[i] in t.sales {
      var id := ids[i];
      assert id in multiset(ids);
      assert id in multiset(t.keys);
      assert id in t.keys;
    }
  }

  /** `Object.entries(categorySales).map(([name, value]) => ({ name, value }))`, in insertion order. */
  function CategoryEntries(t: CategoryTable): (r: seq<CategorySale>)
    requires forall k :: k in t.keys ==> k in t.sales
    ensures |r| == |t.keys|
    ensures forall i :: 0 <= i < |r| ==> r[i] == CategorySale(t.keys[i], t.sales[t.keys[i]])
  {
    seq(|t.keys|, i requires 0 <= i < |t.keys| => CategorySale(t.keys[i], t.sales[t.keys[i]]))
  }

  /** The figures the dashboard shows for the given orders. */
  function SummaryOf(orders: seq<CompletedOrder>): (s: Summary)
    ensures s.totalOrders == |orders| && s.totalRevenue == Revenue(orders)
    ensures |orders| == 0 ==> s.averageOrderValue == 0.0
    ensures |orders| > 0 ==> s.averageOrderValue * |orders| as real == s.totalRevenue
    ensures |s.topProducts| <= 5
  {
    var lines := Lines(orders);
    Finish(Revenue(orders), |orders|, ProductTally(lines), CategoryTally(lines))
  }

  /** Line 41: the average order value, 0 when there are no orders. */
  function Average(revenue: real, count: nat): (r: real)
    ensures count == 0 ==> r == 0.0
    ensures count > 0 ==> r * count as real == revenue
  {
    if count > 0 then revenue / count as real else 0.0
  }

  /** Lines 41 and 64-70: the average and the two sorted lists, from the filled dictionaries. */
  function Finish(revenue: real, count: nat, products: ProductTable, categories: CategoryTable): (s: Summary)
    requires forall k :: k in products.keys ==> k in products.sales
    requires forall k :: k in categories.keys ==> k in categories.sales
    ensures s.totalOrders == count && s.totalRevenue == revenue && s.averageOrderValue == Average(revenue, count)
    ensures |s.topProducts| <= 5
  {
    var top := Take(SortDesc(ProductValues(products), QuantityKey), 5);
    assert |top| <= 5;
    Summary(revenue, count, Average(revenue, count), top, SortDesc(CategoryEntries(categories), ValueKey))
  }

  /** The entry the dashboard keeps for a product sold in `lines`: its units sold and the name on its first line. */
  ghost function SaleOf(lines: seq<CartItem>, id: int): ProductSale
    requires HasId(lines, CartItemId, id)
  {
    FirstIndexFound(lines, CartItemId, id);
    ProductSale(Sale.QuantityFor(lines, id), lines[FirstIndex(lines, CartItemId, id)].name)
  }

  /** The keys of `productSales` in the order `Object.values` visits them. */
  function SoldIds(lines: seq<CartItem>): seq<int> {
    SortDesc(ProductTally(lines).keys, AscendingKey)
  }

  /** Those keys are the ids sold, each once. */
  lemma SoldIdsListed(lines: seq<CartItem>)
    ensures var ids := SoldIds(lines);
      && (forall a, b :: 0 <= a < b < |ids| ==> ids[a] != ids[b])
      && (forall id :: id in ids <==> HasId(lines, CartItemId, id))
  {
    ProductTallyMeaning(lines);
    var t := ProductTally(lines);
    var ids := SoldIds(lines);
    SortDescCorrect(t.keys, AscendingKey);
    PermutationDistinct(t.keys, ids);
    forall id ensures id in ids <==> HasId(lines, CartItemId, id) {
      assert id in ids <==> id in multiset(ids);
      assert id in t.keys <==> id in multiset(t.keys);
    }
  }

  /** One entry per product sold, in `Object.values` order. */
  ghost function SoldSales(lines: seq<CartItem>): seq<ProductSale> {
    SoldIdsListed(lines);
    var ids := SoldIds(lines);
    seq(|ids|, i requires 0 <= i < |ids| => SaleOf(lines, ids[i]))
  }

  /** `Object.values(productSales)` after the loops is that list. */
  lemma SoldSalesAreTheValues(lines: seq<CartItem>)
    ensures ProductValues(ProductTally(lines)) == SoldSales(lines)
  {
    var t := ProductTally(lines);
    SortedIdsInDomain(t);
    SoldIdsListed(lines);
    var ids := SoldIds(lines);
    var values := ProductValues(t);
    forall i | 0 <= i < |ids| ensures values[i] == SaleOf(lines, ids[i]) {
      EntryIsSaleOf(lines, ids[i]);
    }
  }

  /** The dictionary's entry for an id sold is `SaleOf` that id. */
  lemma EntryIsSaleOf(lines: seq<CartItem>, id: int)
    requires id in ProductTally(lines).sales
    ensures HasId(lines, CartItemId, id) && ProductTally(lines).sales[id] == SaleOf(lines, id)
  {
    ProductTallyMeaning(lines);
    assert ProductEntry(ProductTally(lines), lines, id);
  }

  /** Lines 64-66 for the given lines: the entries sorted by quantity, cut to five. */
  function TopProducts(lines: seq<CartItem>): (r: seq<ProductSale>)
    ensures |r| <= 5
  {
    Take(SortDesc(ProductValues(ProductTally(lines)), QuantityKey), 5)
  }

  /**
   * The five best sellers: the list is sorted by quantity, largest first,
   * holds min(5, number of products sold) entries, and each of them is the
   * entry of a product sold, no product twice (as a multiset it lies within
   * one entry per product sold). Every product sold either appears in it or
   * the list is full and every listed product sold at least as many units.
   */
  lemma TopProductsAreBestSellers(orders: seq<CompletedOrder>)
    ensures var s, lines := SummaryOf(orders), Lines(orders);
      && SortedDesc(s.topProducts, QuantityKey)
      && |s.topProducts| == (if |SoldIds(lines)| < 5 then |SoldIds(lines)| else 5)
      && (forall p :: p in s.topProducts ==> exists id :: HasId(lines, CartItemId, id) && p == SaleOf(lines, id))
      && multiset(s.topProducts) <= multiset(SoldSales(lines))
      && forall id :: HasId(lines, CartItemId, id) ==>
          SaleOf(lines, id) in s.topProducts
          || (|s.topProducts| == 5 && forall p :: p in s.topProducts ==> p.quantity >= SaleOf(lines, id).quantity)
  {
    var lines := Lines(orders);
    assert SummaryOf(orders).topProducts == TopProducts(lines);
    TopProductsShape(lines);
    TopProductsSound(lines);
    TopProductsComplete(lines);
  }

  lemma TopProductsShape(lines: seq<CartItem>)
    ensures SortedDesc(TopProducts(lines), QuantityKey)
    ensures |TopProducts(lines)| == (if |SoldIds(lines)| < 5 then |SoldIds(lines)| else 5)
  {
    var values := ProductValues(ProductTally(lines));
    TakeSorted(values, QuantityKey, 5);
    SortDescCorrect(values, QuantityKey);
    assert |SortDesc(values, QuantityKey)| == |values| by {
      assert |multiset(SortDesc(values, QuantityKey))| == |multiset(values)|;
    }
    SortDescCorrect(ProductTally(lines).keys, AscendingKey);
    assert |SoldIds(lines)| == |ProductTally(lines).keys| by {
      assert |multiset(SoldIds(lines))| == |multiset(ProductTally(lines).keys)|;
    }
  }

  lemma TopProductsSound(lines: seq<CartItem>)
    ensures multiset(TopProducts(lines)) <= multiset(SoldSales(lines))
    ensures forall p :: p in TopProducts(lines) ==> exists id :: HasId(lines, CartItemId, id) && p == SaleOf(lines, id)
  {
    SoldIdsListed(lines);
    SoldSalesAreTheValues(lines);
    var values := SoldSales(lines);
    var sorted := SortDesc(values, QuantityKey);
    SortDescCorrect(values, QuantityKey);
    TakeSubMultiset(sorted, 5);
    var ids := SoldIds(lines);
    forall p | p in TopProducts(lines) ensures exists id :: HasId(lines, CartItemId, id) && p == SaleOf(lines, id) {
      assert p in multiset(TopProducts(lines));
      assert p in multiset(values);
      var i :| 0 <= i < |values| && values[i] == p;
      assert ids[i] in ids;
    }
  }

  lemma TopProductsComplete(lines: seq<CartItem>)
    ensures forall id :: HasId(lines, CartItemId, id) ==>
      SaleOf(lines, id) in TopProducts(lines)
      || (|TopProducts(lines)| == 5 && forall p :: p in TopProducts(lines) ==> p.quantity >= SaleOf(lines, id).quantity)
  {
    ProductTallyMeaning(lines);
    var t := ProductTally(lines);
    forall id | HasId(lines, CartItemId, id)
      ensures SaleOf(lines, id) in TopProducts(lines)
        || (|TopProducts(lines)| == 5 && forall p :: p in TopProducts(lines) ==> p.quantity >= SaleOf(lines, id).quantity)
    {
      ProductValueListed(t, id);
      EntryIsSaleOf(lines, id);
      TopOfSorted(ProductValues(t), QuantityKey, 5, t.sales[id]);
    }
  }

  /** Every id in the dictionary has its entry among `Object.values`. */
  lemma ProductValueListed(t: ProductTable, id: int)
    requires forall k :: k in t.keys ==> k in t.sales
    requires forall k :: k in t.sales ==> k in t.keys
    requires id in t.sales
    ensures t.sales[id] in ProductValues(t)
  {
    var ids := SortDesc(t.keys, AscendingKey);
    assert id in t.keys;
    assert id in multiset(ids);
    var i :| 0 <= i < |ids| && ids[i] == id;
    SortedIdsInDomain(t);
    assert ProductValues(t)[i] == t.sales[id];
  }

  /** The sorted category list of the given lines. */
  function TopCategories(lines: seq<CartItem>): seq<CategorySale> {
    SortDesc(CategoryEntries(CategoryTally(lines)), ValueKey)
  }

  /**
   * The category list: sorted by revenue, largest first, one entry per
   * category sold, each with that category's revenue.
   */
  lemma TopCategoriesCoverCategories(orders: seq<CompletedOrder>)
    ensures var s, lines := SummaryOf(orders), Lines(orders);
      && SortedDesc(s.topCategories, ValueKey)
      && (forall e :: e in s.topCategories ==> HasCategory(lines, e.name) && e.value == CategoryRevenue(lines, e.name))
      && (forall c :: HasCategory(lines, c) ==> exists e :: e in s.topCategories && e.name == c)
      && (forall i, j :: 0 <= i < j < |s.topCategories| ==> s.topCategories[i].name != s.topCategories[j].name)
  {
    var lines := Lines(orders);
    assert SummaryOf(orders).topCategories == TopCategories(lines);
    SortDescCorrect(CategoryEntries(CategoryTally(lines)), ValueKey);
    TopCategoriesEntries(lines);
    TopCategoriesCover(lines);
    TopCategoriesDistinct(lines);
  }

  lemma TopCategoriesEntries(lines: seq<CartItem>)
    ensures forall e :: e in TopCategories(lines) ==> HasCategory(lines, e.name) && e.value == CategoryRevenue(lines, e.name)
  {
    CategoryTallyMeaning(lines);
    var entries := CategoryEntries(CategoryTally(lines));
    var top := TopCategories(lines);
    forall e | e in top ensures HasCategory(lines, e.name) && e.value == CategoryRevenue(lines, e.name) {
      assert e in multiset(entries);
      var i :| 0 <= i < |entries| && entries[i] == e;
    }
  }

  lemma TopCategoriesCover(lines: seq<CartItem>)
    ensures forall c :: HasCategory(lines, c) ==> exists e :: e in TopCategories(lines) && e.name == c
  {
    CategoryTallyMeaning(lines);
    var t := CategoryTally(lines);
    var entries := CategoryEntries(t);
    var top := TopCategories(lines);
    forall c | HasCategory(lines, c) ensures exists e :: e in top && e.name == c {
      var i :| 0 <= i < |t.keys| && t.keys[i] == c;
      assert entries[i] in multiset(top);
    }
  }

  lemma TopCategoriesDistinct(lines: seq<CartItem>)
    ensures var top := TopCategories(lines);
      forall i, j :: 0 <= i < j < |top| ==> top[i].name != top[j].name
  {
    CategoryTallyMeaning(lines);
    var entries := CategoryEntries(CategoryTally(lines));
    var top := TopCategories(lines);
    forall i, j | 0 <= i < j < |top| ensures top[i].name != top[j].name {
      DistinctNamesOnce(entries, top, i, j);
    }
  }

  /** A rearrangement of entries with distinct names cannot hold one name twice. */
  lemma DistinctNamesOnce(entries: seq<CategorySale>, top: seq<CategorySale>, i: int, j: int)
    requires forall a, b :: 0 <= a < b < |entries| ==> entries[a].name != entries[b].name
    requires multiset(top) == multiset(entries)
    requires 0 <= i < j < |top|
    ensures top[i].name != top[j].name
  {
    if top[i].name == top[j].name {
      assert top[i] in multiset(entries) && top[j] in multiset(entries);
      var a :| 0 <= a < |entries| && entries[a] == top[i];
      var b :| 0 <= b < |entries| && entries[b] == top[j];
      assert a == b;
      var e := top[i];
      assert top == top[..j] + [top[j]] + top[j + 1..];
      assert top[..j] == top[..i] + [top[i]] + top[i + 1..j];
      assert multiset(top)[e] >= 2;
      AtMostOnce(entries, e);
    }
  }

  /** One more line is one more step of each loop body. */
  lemma TallyAppend(prefix: seq<CartItem>, x: CartItem)
    ensures ProductTally(prefix + [x]) == ProductStep(ProductTally(prefix), x)
    ensures CategoryTally(prefix + [x]) == CategoryStep(CategoryTally(prefix), x)
  {
    assert (prefix + [x])[..|prefix|] == prefix;
  }

  /** The lines visited after one more line of the current order. */
  lemma PrefixStep(done: seq<CartItem>, items: seq<CartItem>, j: nat)
    requires j < |items|
    ensures done + items[..j + 1] == (done + items[..j]) + [items[j]]
    ensures j + 1 == |items| ==> done + items[..j + 1] == done + items
  {
    assert items[..j + 1] == items[..j] + [items[j]];
  }

  /** The lines of one more order follow those already visited. */
  lemma LinesAppend(orders: seq<CompletedOrder>, i: nat)
    requires i < |orders|
    ensures Lines(orders[..i + 1]) == Lines(orders[..i]) + orders[i].cartItems
  {
    assert orders[..i + 1][..i] == orders[..i];
  }

  /**
   * The inner loop of lines 48-61 over one order's lines: both dictionaries
   * are updated in place, line by line. Given the dictionaries filled from
   * the lines `done` visited before, it leaves those of `done + items`.
   */
  method TallyOrder(items: seq<CartItem>, ghost done: seq<CartItem>,
                    productSales0: map<int, ProductSale>, productKeys0: seq<int>,
                    categorySales0: map<string, real>, categoryKeys0: seq<string>)
    returns (productSales: map<int, ProductSale>, productKeys: seq<int>,
             categorySales: map<string, real>, categoryKeys: seq<string>)
    requires ProductTable(productSales0, productKeys0) == ProductTally(done)
    requires CategoryTable(categorySales0, categoryKeys0) == CategoryTally(done)
    ensures ProductTable(productSales, productKeys) == ProductTally(done + items)
    ensures CategoryTable(categorySales, categoryKeys) == CategoryTally(done + items)
  {
    productSales, productKeys, categorySales, categoryKeys := productSales0, productKeys0, categorySales0, categoryKeys0;
    ghost var seen := done;
    var j := 0;
    while j < |items|
      invariant 0 <= j <= |items|
      invariant seen == done + items[..j]
      invariant ProductTable(productSales, productKeys) == ProductTally(seen)
      invariant CategoryTable(categorySales, categoryKeys) == CategoryTally(seen)
    {
      var item := items[j];
      ghost var products := ProductTable(productSales, productKeys);
      ghost var categories := CategoryTable(categorySales, categoryKeys);
      if item.id in productSales {
        productSales := productSales[item.id := productSales[item.id].(quantity := productSales[item.id].quantity + item.quantity)];
      } else {
        productSales := productSales[item.id := ProductSale(item.quantity, item.name)];
        productKeys := productKeys + [item.id];
      }
      assert ProductTable(productSales, productKeys) == ProductStep(products, item);
      var revenue := LineTotal(item);
      if item.category in categorySales && categorySales[item.category] != 0.0 {
        categorySales := categorySales[item.category := categorySales[item.category] + revenue];
      } else {
        if item.category !in categorySales {
          categoryKeys := categoryKeys + [item.category];
        }
        categorySales := categorySales[item.category := revenue];
      }
      assert CategoryTable(categorySales, categoryKeys) == CategoryStep(categories, item);
      TallyAppend(seen, item);
      PrefixStep(done, items, j);
      seen := seen + [item];
      j := j + 1;
    }
    assert items[..j] == items;
  }

  /**
   * The `useMemo` body of lines 39-79: the nested `for` loops fill the two
   * dictionaries, then the totals and the sorted lists are taken.
   */
  method Summarize(orders: seq<CompletedOrder>) returns (s: Summary)
    ensures s == SummaryOf(orders)
  {
    var productSales: map<int, ProductSale> := map[];
    var productKeys: seq<int> := [];
    var categorySales: map<string, real> := map[];
    var categoryKeys: seq<string> := [];
    var i := 0;
    while i < |orders|
      invariant 0 <= i <= |orders|
      invariant ProductTable(productSales, productKeys) == ProductTally(Lines(orders[..i]))
      invariant CategoryTable(categorySales, categoryKeys) == CategoryTally(Lines(orders[..i]))
    {
      productSales, productKeys, categorySales, categoryKeys :=
        TallyOrder(orders[i].cartItems, Lines(orders[..i]), productSales, productKeys, categorySales, categoryKeys);
      LinesAppend(orders, i);
      i := i + 1;
    }
    assert orders[..|orders|] == orders;
    s := Finish(Revenue(orders), |orders|, ProductTable(productSales, productKeys), CategoryTable(categorySales, categoryKeys));
  }
}
