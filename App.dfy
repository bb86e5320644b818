/**
 * The register's session state (App.tsx): one object whose fields are the
 * component's `useState` slots, and one method per event handler. Clock
 * readings (`Date.now()`, `new Date()`) arrive as the parameter `now`;
 * `alert` is left out, and `window.confirm` is decided by the caller.
 */
module App {
  import opened Types
  import opened Tables
  import opened Constants
  import opened CartRules
  import Catalog
  import Access
  import Sale

  /** `CURRENCIES.find(c => c.code === code) || DEFAULT_CURRENCY` (App.tsx:223-226). */
  function FindCurrency(code: string): (r: Currency)
    ensures r in Currencies
    ensures r.code == code || (r == DefaultCurrency && forall c :: c in Currencies ==> c.code != code)
  {
    if Currencies[0].code == code then Currencies[0]
    else if Currencies[1].code == code then Currencies[1]
    else if Currencies[2].code == code then Currencies[2]
    else if Currencies[3].code == code then Currencies[3]
    else DefaultCurrency
  }

  /** A parked order for the current cart: its id and date are both the clock reading. */
  function Parked(cart: seq<CartItem>, customer: Option<Customer>, now: int): HeldOrder {
    HeldOrder(now, cart, customer, now)
  }

  /** The `forEach` of `handleProcessPayment` (App.tsx:119-125): each line takes its quantity off the product with its id. */
  method DecrementStock(products: seq<Product>, cart: seq<CartItem>) returns (r: seq<Product>)
    ensures r == Sale.ApplySale(products, cart)
  {
    r := products;
    var i := 0;
    while i < |cart|
      invariant 0 <= i <= |cart|
      invariant r == Sale.ApplySale(products, cart[..i])
    {
      var k := FirstIndex(r, ProductId, cart[i].id);
      if k < |r| {
        r := r[k := r[k].(stock := r[k].stock - cart[i].quantity)];
      }
      assert cart[..i + 1][..i] == cart[..i];
      i := i + 1;
    }
    assert cart[..|cart|] == cart;
  }

  /** The `filter` ending a recall: parked carts stay one line per product, the id is gone, every other held order stays. */
  lemma RecallFilter(held: seq<HeldOrder>, parked: seq<HeldOrder>, orderId: int)
    requires forall h :: h in held ==> UniqueIds(h.cart, CartItemId)
    requires forall h :: h in parked ==> UniqueIds(h.cart, CartItemId)
    ensures var r := RemoveById(held + parked, HeldOrderId, orderId);
      && (forall h :: h in r ==> UniqueIds(h.cart, CartItemId))
      && !HasId(r, HeldOrderId, orderId)
      && (forall h :: h in held && h.id != orderId ==> h in r)
      && (forall h :: h in parked && h.id != orderId ==> h in r)
  {
    var all := held + parked;
    var r := RemoveById(all, HeldOrderId, orderId);
    forall h | h in held && h.id != orderId ensures h in r {
      var m :| 0 <= m < |held| && held[m] == h;
      assert all[m] == h;
    }
    forall h | h in parked && h.id != orderId ensures h in r {
      var m :| 0 <= m < |parked| && parked[m] == h;
      assert all[|held| + m] == h;
    }
    forall h | h in r ensures UniqueIds(h.cart, CartItemId) {
      var m :| 0 <= m < |r| && r[m] == h;
      assert h in all;
    }
  }

  class PosSession {
    var currentUser: Option<User>
    var users: seq<User>
    var products: seq<Product>
    var cart: seq<CartItem>
    var activeCategory: string
    var searchTerm: string
    var paymentModalOpen: bool
    var currentView: View
    var customers: seq<Customer>
    var selectedCustomer: Option<Customer>
    var heldOrders: seq<HeldOrder>
    var receiptModalOpen: bool
    var completedOrder: Option<CompletedOrder>
    var currentCurrency: Currency
    var taxRate: real

    /**
     * What every handler keeps: the walk-in customer stays first in the
     * customer table, ids are unique in every table, and the cart and each
     * parked cart hold at most one line per product.
     */
    ghost predicate Valid()
      reads this
    {
      && |customers| > 0 && customers[0].id == WalkInCustomerId
      && UniqueIds(products, ProductId)
      && UniqueIds(customers, CustomerId)
      && UniqueIds(users, UserId)
      && UniqueIds(cart, CartItemId)
      && forall h :: h in heldOrders ==> UniqueIds(h.cart, CartItemId)
    }

    /** The initial state (App.tsx:16-33): nobody signed in, the fixture tables, an empty cart, the walk-in customer selected. */
    constructor ()
      ensures Valid()
      ensures currentUser == None && users == InitialUsers && products == InitialProducts && customers == InitialCustomers
      ensures cart == [] && heldOrders == [] && selectedCustomer == Some(InitialCustomers[0])
      ensures activeCategory == "All" && searchTerm == "" && currentView == Sales
      ensures !paymentModalOpen && !receiptModalOpen && completedOrder == None
      ensures currentCurrency == DefaultCurrency && taxRate == InitialTaxRate
    {
      currentUser := None;
      users := InitialUsers;
      products := InitialProducts;
      cart := [];
      activeCategory := "All";
      searchTerm := "";
      paymentModalOpen := false;
      currentView := Sales;
      customers := InitialCustomers;
      selectedCustomer := Some(InitialCustomers[0]);
      heldOrders := [];
      receiptModalOpen := false;
      completedOrder := None;
      currentCurrency := DefaultCurrency;
      taxRate := InitialTaxRate;
      assert forall k :: 0 <= k < |InitialProducts| ==> InitialProducts[k].id == k + 1;
      assert forall k :: 0 <= k < |InitialUsers| ==> InitialUsers[k].id == k + 1;
      assert forall k :: 0 <= k < |InitialCustomers| ==> InitialCustomers[k].id == k + 1;
    }

    /** `subtotal`, `tax` and `total` (App.tsx:97-99). */
    function CartSubtotal(): real
      reads this
    {
      Subtotal(cart)
    }

    function CartTax(): real
      reads this
    {
      Tax(Subtotal(cart), taxRate)
    }

    function CartTotal(): (r: real)
      reads this
      ensures r == CartSubtotal() * (1.0 + taxRate)
    {
      Total(Subtotal(cart), Tax(Subtotal(cart), taxRate))
    }

    /** `filteredProducts` (App.tsx:101-109). */
    function FilteredProducts(): seq<Product>
      reads this
    {
      Catalog.FilterProducts(products, activeCategory, searchTerm)
    }

    /** `handleLogin` (App.tsx:37-45): on a match the user is signed in and sent to the sales view. */
    method Login(email: string, password: string) returns (ok: bool)
      requires Valid()
      modifies this`currentUser, this`currentView
      ensures Valid()
      ensures ok == Access.FindLoginUser(users, email, password).Some?
      ensures ok ==> currentUser == Access.FindLoginUser(users, email, password) && currentView == Sales
      ensures !ok ==> currentUser == old(currentUser) && currentView == old(currentView)
    {
      var user := Access.FindLoginUser(users, email, password);
      if user.Some? {
        currentUser := user;
        currentView := Sales;
        ok := true;
      } else {
        ok := false;
      }
    }

    /** `handleLogout`. */
    method Logout()
      requires Valid()
      modifies this`currentUser
      ensures Valid() && currentUser == None
    {
      currentUser := None;
    }

    /** `navigate` (App.tsx:51-57): a non-admin asking for a management screen stays where they are. */
    method Navigate(view: View)
      requires Valid()
      modifies this`currentView
      ensures Valid()
      ensures currentView == Access.Navigate(currentUser, old(currentView), view)
      ensures !Access.IsAdmin(currentUser) && Access.AdminOnly(view) ==> currentView == old(currentView)
    {
      if !(currentUser.Some? && currentUser.value.role == Admin) && (view == Products || view == Customers || view == Users) {
        return;
      }
      currentView := view;
    }

    method SetSearchTerm(term: string)
      requires Valid()
      modifies this`searchTerm
      ensures Valid() && searchTerm == term
    {
      searchTerm := term;
    }

    method SelectCategory(category: string)
      requires Valid()
      modifies this`activeCategory
      ensures Valid() && activeCategory == category
    {
      activeCategory := category;
    }

    method SelectCustomer(customer: Option<Customer>)
      requires Valid()
      modifies this`selectedCustomer
      ensures Valid() && selectedCustomer == customer
    {
      selectedCustomer := customer;
    }

    /** `addToCart` (App.tsx:59-73). */
    method AddToCart(product: Product)
      requires Valid()
      modifies this`cart
      ensures Valid()
      ensures cart == CartRules.AddToCart(old(cart), product)
      ensures cart == old(cart) || TotalQuantity(cart) == TotalQuantity(old(cart)) + 1
    {
      AddToCartEffect(cart, product);
      cart := CartRules.AddToCart(cart, product);
    }

    /** `updateQuantity` (App.tsx:75-90), clamped against the current catalog. */
    method UpdateQuantity(productId: int, newQuantity: int)
      requires Valid()
      modifies this`cart
      ensures Valid()
      ensures cart == CartRules.UpdateQuantity(old(cart), products, productId, newQuantity)
    {
      UpdateQuantityEffect(cart, products, productId, newQuantity);
      cart := CartRules.UpdateQuantity(cart, products, productId, newQuantity);
    }

    /** `clearCart` (App.tsx:92-95): an empty cart and the first customer (the walk-in one) selected. */
    method ClearCart()
      requires Valid()
      modifies this`cart, this`selectedCustomer
      ensures Valid()
      ensures cart == [] && selectedCustomer == Some(customers[0]) && customers[0].id == WalkInCustomerId
    {
      cart := [];
      selectedCustomer := Some(customers[0]);
    }

    /** `handleCheckout` (App.tsx:111-115): the payment dialog opens only for a non-empty cart. */
    method Checkout()
      requires Valid()
      modifies this`paymentModalOpen
      ensures Valid()
      ensures paymentModalOpen == (old(paymentModalOpen) || |cart| > 0)
    {
      if |cart| > 0 {
        paymentModalOpen := true;
      }
    }

    /** The payment dialog's `onClose` (App.tsx:360): the dialog closes and the cart is kept for another try. */
    method CancelPayment()
      requires Valid()
      modifies this`paymentModalOpen
      ensures Valid()
      ensures !paymentModalOpen
    {
      paymentModalOpen := false;
    }

    /**
     * `handleProcessPayment` (App.tsx:117-147): each catalog product loses the
     * units of it in the cart, the order is recorded, and the receipt replaces
     * the payment dialog. The cart itself is kept until the receipt is closed.
     */
    method ProcessPayment(paymentMethod: PaymentMethod, amountTendered: Option<real>, now: int)
      requires Valid()
      modifies this`products, this`completedOrder, this`paymentModalOpen, this`receiptModalOpen
      ensures Valid()
      ensures products == Sale.ApplySale(old(products), cart)
      ensures |products| == |old(products)|
      ensures forall k :: 0 <= k < |products| ==>
        products[k] == old(products)[k].(stock := old(products)[k].stock - Sale.QuantityFor(cart, old(products)[k].id))
      ensures completedOrder == Some(Sale.CompleteOrder(cart, selectedCustomer, taxRate, currentCurrency, paymentMethod, amountTendered, now))
      ensures completedOrder.value.total == CartTotal()
      ensures !paymentModalOpen && receiptModalOpen
    {
      var newProducts := DecrementStock(products, cart);
      Sale.StockAfterSale(products, cart);
      products := newProducts;
      completedOrder := Some(Sale.CompleteOrder(cart, selectedCustomer, taxRate, currentCurrency, paymentMethod, amountTendered, now));
      paymentModalOpen := false;
      receiptModalOpen := true;
    }

    /** `handleCloseReceipt` (App.tsx:149-153). */
    method CloseReceipt()
      requires Valid()
      modifies this`receiptModalOpen, this`completedOrder, this`cart, this`selectedCustomer
      ensures Valid()
      ensures !receiptModalOpen && completedOrder == None && cart == [] && selectedCustomer == Some(customers[0])
    {
      receiptModalOpen := false;
      completedOrder := None;
      ClearCart();
    }

    /** `handleHoldOrder` (App.tsx:155-165): a non-empty cart is parked with its customer and the register cleared. */
    method HoldOrder(now: int)
      requires Valid()
      modifies this`heldOrders, this`cart, this`selectedCustomer
      ensures Valid()
      ensures |old(cart)| == 0 ==> heldOrders == old(heldOrders) && cart == old(cart) && selectedCustomer == old(selectedCustomer)
      ensures |old(cart)| > 0 ==>
        && heldOrders == old(heldOrders) + [Parked(old(cart), old(selectedCustomer), now)]
        && cart == [] && selectedCustomer == Some(customers[0])
    {
      if |cart| == 0 {
        return;
      }
      heldOrders := heldOrders + [Parked(cart, selectedCustomer, now)];
      ClearCart();
    }

    /**
     * `handleRecallOrder` (App.tsx:167-177). For a held order with that id
     * (the first one): a non-empty current cart is parked first, then the
     * order's cart and customer are restored and every held order with that
     * id is dropped. An unknown id changes nothing.
     */
    method RecallOrder(orderId: int, now: int)
      requires Valid()
      modifies this`heldOrders, this`cart, this`selectedCustomer
      ensures Valid()
      ensures !HasId(old(heldOrders), HeldOrderId, orderId) ==>
        heldOrders == old(heldOrders) && cart == old(cart) && selectedCustomer == old(selectedCustomer)
      ensures HasId(old(heldOrders), HeldOrderId, orderId) ==>
        var order := old(heldOrders)[FirstIndex(old(heldOrders), HeldOrderId, orderId)];
        var parked := if |old(cart)| > 0 then [Parked(old(cart), old(selectedCustomer), now)] else [];
        && cart == order.cart && selectedCustomer == order.customer
        && heldOrders == RemoveById(old(heldOrders) + parked, HeldOrderId, orderId)
        && !HasId(heldOrders, HeldOrderId, orderId)
        && (forall h :: h in old(heldOrders) && h.id != orderId ==> h in heldOrders)
        && (|old(cart)| > 0 && now != orderId ==> Parked(old(cart), old(selectedCustomer), now) in heldOrders)
    {
      var i := FirstIndex(heldOrders, HeldOrderId, orderId);
      if i == |heldOrders| {
        return;
      }
      var order := heldOrders[i];
      assert order in heldOrders;
      ghost var parked: seq<HeldOrder> := if |cart| > 0 then [Parked(cart, selectedCustomer, now)] else [];
      if |cart| > 0 {
        HoldOrder(now);
      } else {
        assert heldOrders + parked == heldOrders;
      }
      RecallFilter(old(heldOrders), parked, orderId);
      cart := order.cart;
      selectedCustomer := order.customer;
      heldOrders := RemoveById(heldOrders, HeldOrderId, orderId);
    }

    /** `handleDeleteHeldOrder` (App.tsx:179-181). */
    method DeleteHeldOrder(orderId: int)
      requires Valid()
      modifies this`heldOrders
      ensures Valid()
      ensures heldOrders == RemoveById(old(heldOrders), HeldOrderId, orderId)
    {
      heldOrders := RemoveById(heldOrders, HeldOrderId, orderId);
    }

    /** `handleAddProduct` (App.tsx:183-188): appended under a fresh id one above the largest. */
    method AddProduct(data: ProductData)
      requires Valid()
      modifies this`products
      ensures Valid()
      ensures products == old(products) + [Product(NextId(old(products), ProductId), data.name, data.category, data.price, data.stock, data.imageUrl)]
      ensures !HasId(old(products), ProductId, products[|products| - 1].id)
    {
      var p := Product(NextId(products, ProductId), data.name, data.category, data.price, data.stock, data.imageUrl);
      AppendWithNextId(products, ProductId, p);
      products := products + [p];
    }

    /** `handleUpdateProduct` (App.tsx:190-194). */
    method UpdateProduct(updated: Product)
      requires Valid()
      modifies this`products
      ensures Valid()
      ensures products == ReplaceById(old(products), ProductId, updated)
    {
      ReplaceByIdKeepsIds(products, ProductId, updated);
      products := ReplaceById(products, ProductId, updated);
    }

    /** `handleDeleteProduct` (App.tsx:196-198). */
    method DeleteProduct(productId: int)
      requires Valid()
      modifies this`products
      ensures Valid()
      ensures products == RemoveById(old(products), ProductId, productId)
    {
      RemoveByIdKeepsUnique(products, ProductId, productId);
      products := RemoveById(products, ProductId, productId);
    }

    /** `handleAddCustomer` (App.tsx:200-206). */
    method AddCustomer(data: CustomerData)
      requires Valid()
      modifies this`customers
      ensures Valid()
      ensures customers == old(customers) + [Customer(NextId(old(customers), CustomerId), data.name, data.email, data.totalSpent, data.rewardAvailable)]
      ensures !HasId(old(customers), CustomerId, customers[|customers| - 1].id)
    {
      var c := Customer(NextId(customers, CustomerId), data.name, data.email, data.totalSpent, data.rewardAvailable);
      AppendWithNextId(customers, CustomerId, c);
      customers := customers + [c];
    }

    /** `handleUpdateCustomer` (App.tsx:208-210). */
    method UpdateCustomer(updated: Customer)
      requires Valid()
      modifies this`customers
      ensures Valid()
      ensures customers == ReplaceById(old(customers), CustomerId, updated)
    {
      ReplaceByIdKeepsIds(customers, CustomerId, updated);
      customers := ReplaceById(customers, CustomerId, updated);
    }

    /**
     * `handleDeleteCustomer` (App.tsx:212-221): the walk-in customer is never
     * deleted; deleting the selected customer selects the first customer of
     * the table as it was before the deletion.
     */
    method DeleteCustomer(customerId: int)
      requires Valid()
      modifies this`customers, this`selectedCustomer
      ensures Valid()
      ensures customerId == WalkInCustomerId ==> customers == old(customers) && selectedCustomer == old(selectedCustomer)
      ensures customerId != WalkInCustomerId ==>
        && customers == RemoveById(old(customers), CustomerId, customerId)
        && selectedCustomer == (if old(selectedCustomer).Some? && old(selectedCustomer).value.id == customerId
                                then Some(old(customers)[0]) else old(selectedCustomer))
      ensures customers[0] == old(customers)[0]
    {
      if customerId == WalkInCustomerId {
        return;
      }
      var first := customers[0];
      RemoveByIdKeepsUnique(customers, CustomerId, customerId);
      customers := RemoveById(customers, CustomerId, customerId);
      if selectedCustomer.Some? && selectedCustomer.value.id == customerId {
        selectedCustomer := Some(first);
      }
    }

    /** `handleCurrencyChange` (App.tsx:223-226). */
    method ChangeCurrency(code: string)
      requires Valid()
      modifies this`currentCurrency
      ensures Valid() && currentCurrency == FindCurrency(code)
    {
      currentCurrency := FindCurrency(code);
    }

    /** `handleAddUser` (App.tsx:229-234). */
    method AddUser(data: UserData)
      requires Valid()
      modifies this`users
      ensures Valid()
      ensures users == old(users) + [User(NextId(old(users), UserId), data.name, data.email, data.password, data.role)]
      ensures !HasId(old(users), UserId, users[|users| - 1].id)
    {
      var u := User(NextId(users, UserId), data.name, data.email, data.password, data.role);
      AppendWithNextId(users, UserId, u);
      users := users + [u];
    }

    /** `handleUpdateUser` (App.tsx:236-238). */
    method UpdateUser(updated: User)
      requires Valid()
      modifies this`users
      ensures Valid()
      ensures users == ReplaceById(old(users), UserId, updated)
    {
      ReplaceByIdKeepsIds(users, UserId, updated);
      users := ReplaceById(users, UserId, updated);
    }

    /** `handleDeleteUser` (App.tsx:240-246): the signed-in user cannot delete their own account. */
    method DeleteUser(userId: int)
      requires Valid()
      modifies this`users
      ensures Valid()
      ensures currentUser.Some? && currentUser.value.id == userId ==> users == old(users)
      ensures !(currentUser.Some? && currentUser.value.id == userId) ==> users == RemoveById(old(users), UserId, userId)
    {
      if currentUser.Some? && userId == currentUser.value.id {
        return;
      }
      RemoveByIdKeepsUnique(users, UserId, userId);
      users := RemoveById(users, UserId, userId);
    }

    /** `onTaxRateChange={setTaxRate}`: the rate chosen on the product screen. */
    method SetTaxRate(rate: real)
      requires Valid()
      modifies this`taxRate
      ensures Valid() && taxRate == rate
    {
      taxRate := rate;
    }
  }
}
