/** An invoice line item (Concepto) and its per-item tax lists. */
module InvoiceItems {
  import opened Wrappers
  import opened TaxLists
  import LazyLists

  /** One tax line of an item (Traslado or Retencion): base, tax code,
      factor type, rate and amount, stored as given. */
  datatype InvoiceItemTax = InvoiceItemTax(
    base: real,
    taxId: Option<string>,
    taxTypeId: Option<string>,
    taxRate: real,
    amount: real)

  /** The item's Impuestos node: transferred and withholding lists. */
  type ItemTaxesWrapper = TaxesWrapper<InvoiceItemTax, InvoiceItemTax>

  /** Every property of an item as one value: what the serializer writes
      for the item's Concepto node. */
  datatype InvoiceItemContents = InvoiceItemContents(
    satItemId: Option<string>,
    itemId: Option<string>,
    quantity: real,
    unitOfMeasureId: Option<string>,
    unitOfMeasure: Option<string>,
    description: Option<string>,
    unitCost: real,
    amount: real,
    discount: real,
    taxObjectId: Option<string>,
    itemTaxex: Option<ItemTaxesWrapper>)

  class InvoiceItem {
    var satItemId: Option<string>
    var itemId: Option<string>
    var quantity: real
    var unitOfMeasureId: Option<string>
    var unitOfMeasure: Option<string>
    var description: Option<string>
    var unitCost: real
    var amount: real
    var discount: real
    var taxObjectId: Option<string>
    var itemTaxex: Option<ItemTaxesWrapper>

    /** `new InvoiceItem()`: every property at its default. */
    constructor ()
      ensures satItemId.None? && itemId.None? && unitOfMeasureId.None? && unitOfMeasure.None?
      ensures description.None? && taxObjectId.None? && itemTaxex.None?
      ensures quantity == 0.0 && unitCost == 0.0 && amount == 0.0 && discount == 0.0
    {
      satItemId, itemId, unitOfMeasureId, unitOfMeasure := None, None, None, None;
      description, taxObjectId, itemTaxex := None, None, None;
      quantity, unitCost, amount, discount := 0.0, 0.0, 0.0, 0.0;
    }

    /** The item's current property values. */
    function Contents(): InvoiceItemContents
      reads this
    {
      InvoiceItemContents(satItemId, itemId, quantity, unitOfMeasureId, unitOfMeasure,
                          description, unitCost, amount, discount, taxObjectId, itemTaxex)
    }

    // The frames below name only `itemTaxex`: no Add* call changes Quantity,
    // UnitCost, Amount, Discount or any other property of the item.

    /** Appends `itemTax` to the transferred list, creating wrapper and list
        when absent; the withholding list is untouched. */
    method AddTransferredTax(itemTax: InvoiceItemTax)
      modifies this`itemTaxex
      ensures itemTaxex.Some?
      ensures Transferred(itemTaxex) == LazyLists.Add(Transferred(old(itemTaxex)), itemTax)
      ensures Withholding(itemTaxex) == Withholding(old(itemTaxex))
    {
      itemTaxex := Some(AddTransferred(itemTaxex, [itemTax]));
    }

    /** Appends a transferred tax built from the five values exactly as
        given; the amount is not recomputed from base and rate. */
    method AddTransferredTaxManual(pbase: real, taxId: string, taxTypeId: string, taxRate: real, amount: real)
      modifies this`itemTaxex
      ensures itemTaxex.Some?
      ensures Transferred(itemTaxex)
           == LazyLists.Add(Transferred(old(itemTaxex)), InvoiceItemTax(pbase, Some(taxId), Some(taxTypeId), taxRate, amount))
      ensures Withholding(itemTaxex) == Withholding(old(itemTaxex))
    {
      var transferredTax := InvoiceItemTax(pbase, Some(taxId), Some(taxTypeId), taxRate, amount);
      itemTaxex := Some(AddTransferred(itemTaxex, [transferredTax]));
    }

    /** Appends `itemTax` to the withholding list; the transferred list is
        untouched. */
    method AddWithholdingTax(itemTax: InvoiceItemTax)
      modifies this`itemTaxex
      ensures itemTaxex.Some?
      ensures Withholding(itemTaxex) == LazyLists.Add(Withholding(old(itemTaxex)), itemTax)
      ensures Transferred(itemTaxex) == Transferred(old(itemTaxex))
    {
      itemTaxex := Some(AddWithholding(itemTaxex, [itemTax]));
    }

    /** Appends a withholding tax built from the five values as given. The
        source names its local `transferredTax`, yet it goes to the
        withholding list. */
    method AddWithholdingTaxManual(pbase: real, taxId: string, taxTypeId: string, taxRate: real, amount: real)
      modifies this`itemTaxex
      ensures itemTaxex.Some?
      ensures Withholding(itemTaxex)
           == LazyLists.Add(Withholding(old(itemTaxex)), InvoiceItemTax(pbase, Some(taxId), Some(taxTypeId), taxRate, amount))
      ensures Transferred(itemTaxex) == Transferred(old(itemTaxex))
    {
      var withholdingTax := InvoiceItemTax(pbase, Some(taxId), Some(taxTypeId), taxRate, amount);
      itemTaxex := Some(AddWithholding(itemTaxex, [withholdingTax]));
    }
  }
}
