/**
 * The catalog screen (components/ProductManagement.tsx): which product the
 * form is editing, how a saved form is dispatched to the register's add or
 * update handler, confirmed deletion, and the default tax-rate field.
 */
module ProductAdmin {
  import opened Types
  import opened Tables
  import App

  /** What the product form hands back: new fields, or a product that carries its id. */
  datatype ProductSave = NewProduct(data: ProductData) | ExistingProduct(product: Product)

  /**
   * `handleTaxInputChange` (lines 59-67) on the typed text and its
   * `parseFloat` value: the new default rate, or `None` when the handler
   * does not call `onTaxRateChange`.
   */
  function TaxRateFromInput(text: string, parsed: ParsedFloat): (r: Option<real>)
    ensures parsed.Num? && parsed.value >= 0.0 ==> r == Some(parsed.value / 100.0)
    ensures !(parsed.Num? && parsed.value >= 0.0) && text == "" ==> r == Some(0.0)
    ensures r.None? <==> text != "" && (parsed.NaN? || parsed.value < 0.0)
    ensures r.Some? ==> r.value >= 0.0
  {
    if parsed.Num? && parsed.value >= 0.0 then Some(parsed.value / 100.0)
    else if text == "" then Some(0.0)
    else None
  }

  /** The field shows the rate as a percentage; typing back a shown value of a non-negative rate sets that same rate. */
  lemma TaxInputRoundTrip(text: string, rate: real)
    requires rate >= 0.0
    ensures TaxRateFromInput(text, Num(rate * 100.0)) == Some(rate)
  {
  }

  /** The screen's state (lines 26-27). */
  class ProductManagement {
    var isModalOpen: bool
    var editingProduct: Option<Product>

    constructor ()
      ensures !isModalOpen && editingProduct.None?
    {
      isModalOpen := false;
      editingProduct := None;
    }

    /** `handleOpenModalForNew` (lines 29-32). */
    method OpenForNew()
      modifies this
      ensures isModalOpen && editingProduct.None?
    {
      editingProduct := None;
      isModalOpen := true;
    }

    /** `handleOpenModalForEdit` (lines 34-37). */
    method OpenForEdit(product: Product)
      modifies this
      ensures isModalOpen && editingProduct == Some(product)
    {
      editingProduct := Some(product);
      isModalOpen := true;
    }

    /** `handleCloseModal` (lines 39-42). */
    method CloseModal()
      modifies this
      ensures !isModalOpen && editingProduct.None?
    {
      isModalOpen := false;
      editingProduct := None;
    }

    /**
     * `handleSaveProduct` (lines 44-51): data with an id updates that
     * product in the register's catalog, data without one is added under a
     * fresh id; either way the form closes.
     */
    method SaveProduct(session: App.PosSession, saved: ProductSave)
      requires session.Valid()
      modifies this, session`products
      ensures session.Valid()
      ensures !isModalOpen && editingProduct.None?
      ensures saved.ExistingProduct? ==> session.products == ReplaceById(old(session.products), ProductId, saved.product)
      ensures saved.NewProduct? ==>
        && |session.products| == |old(session.products)| + 1
        && session.products[..|old(session.products)|] == old(session.products)
        && var p := session.products[|old(session.products)|];
           p.name == saved.data.name && p.category == saved.data.category && p.price == saved.data.price
           && p.stock == saved.data.stock && p.imageUrl == saved.data.imageUrl
           && !HasId(old(session.products), ProductId, p.id)
    {
      match saved {
        case ExistingProduct(product) =>
          session.UpdateProduct(product);
        case NewProduct(data) =>
          session.AddProduct(data);
      }
      CloseModal();
    }

    /** `handleDelete` (lines 53-57): the product goes only when the confirmation is accepted. */
    method Delete(session: App.PosSession, productId: int, confirmed: bool)
      requires session.Valid()
      modifies session`products
      ensures session.Valid()
      ensures confirmed ==> session.products == RemoveById(old(session.products), ProductId, productId)
      ensures !confirmed ==> session.products == old(session.products)
    {
      if confirmed {
        session.DeleteProduct(productId);
      }
    }

    /** The tax-rate field, wired to the register's `setTaxRate`: a refused entry leaves the rate as it was. */
    method TaxInputChange(session: App.PosSession, text: string, parsed: ParsedFloat)
      requires session.Valid()
      modifies session`taxRate
      ensures session.Valid()
      ensures var r := TaxRateFromInput(text, parsed);
        session.taxRate == if r.Some? then r.value else old(session.taxRate)
    {
      var r := TaxRateFromInput(text, parsed);
      if r.Some? {
        session.SetTaxRate(r.value);
      }
    }
  }
}
