/** A related document of a payment (DoctoRelacionado) and its tax lists
    (ImpuestosDR: TrasladosDR and RetencionesDR). */
module PaymentInvoices {
  import opened Wrappers
  import opened TaxLists
  import LazyLists

  /** A TrasladoDR line. */
  datatype PaymentInvoiceTransferredTax = PaymentInvoiceTransferredTax(
    base: real,
    taxId: Option<string>,
    taxTypeId: Option<string>,
    taxRate: real,
    amount: real)

  /** A RetencionDR line; both "Specified" flags start out true. */
  datatype PaymentInvoiceWithholdingTax = PaymentInvoiceWithholdingTax(
    base: real,
    taxId: Option<string>,
    taxTypeId: Option<string>,
    taxRate: real,
    taxRateSpecified: bool,
    amount: real,
    amountSpecified: bool)

  type PaymentInvoiceTaxesWrapper = TaxesWrapper<PaymentInvoiceTransferredTax, PaymentInvoiceWithholdingTax>

  /** The transferred line of the self-calculating overload: the base is the
      amount paid on the document and the amount is base times rate, with no
      rounding. */
  function SelfCalculatedTransferredTax(paymentAmount: real, taxId: string, taxTypeId: string, taxRate: real)
    : (t: PaymentInvoiceTransferredTax)
    ensures t.base == paymentAmount && t.taxRate == taxRate
    ensures t.amount == t.base * t.taxRate
    ensures t.taxId == Some(taxId) && t.taxTypeId == Some(taxTypeId)
  {
    PaymentInvoiceTransferredTax(paymentAmount, Some(taxId), Some(taxTypeId), taxRate, paymentAmount * taxRate)
  }

  /** The withholding line of the self-calculating overload, by the same
      formula; the presence flags keep their default, true. */
  function SelfCalculatedWithholdingTax(paymentAmount: real, taxId: string, taxTypeId: string, taxRate: real)
    : (t: PaymentInvoiceWithholdingTax)
    ensures t.base == paymentAmount && t.taxRate == taxRate
    ensures t.amount == t.base * t.taxRate
    ensures t.taxId == Some(taxId) && t.taxTypeId == Some(taxTypeId)
    ensures t.taxRateSpecified && t.amountSpecified
  {
    PaymentInvoiceWithholdingTax(paymentAmount, Some(taxId), Some(taxTypeId), taxRate, true, paymentAmount * taxRate, true)
  }

  /** With the default rate of 0 the self-calculated amount is 0 whatever
      was paid. */
  lemma SelfCalculatedDefaultRateIsZero(paymentAmount: real, taxId: string, taxTypeId: string)
    ensures SelfCalculatedTransferredTax(paymentAmount, taxId, taxTypeId, 0.0).amount == 0.0
  {
  }

  /** The self-calculated base is the amount paid and nothing else: two
      documents that paid the same amount get the same line, whatever their
      previous or remaining balances. */
  lemma SelfCalculatedDependsOnlyOnAmountPaid(paid: real, otherPaid: real, taxId: string, taxTypeId: string, taxRate: real)
    ensures SelfCalculatedTransferredTax(paid, taxId, taxTypeId, taxRate) == SelfCalculatedTransferredTax(otherPaid, taxId, taxTypeId, taxRate)
        <==> paid == otherPaid
  {
  }

  class PaymentInvoice {
    var invoiceUuid: Option<string>
    var invoiceSeries: Option<string>
    var invoiceNumber: Option<string>
    var invoiceCurrencyId: Option<string>
    var invoiceExchangeRate: real
    var partialityNumber: int
    var previousBalanceAmount: real
    var paymentAmount: real
    var remainingBalance: real
    var taxObjectId: Option<string>
    var invoiceTaxesWrapper: Option<PaymentInvoiceTaxesWrapper>

    /** `new PaymentInvoice()`: every property at its default. */
    constructor ()
      ensures invoiceUuid.None? && invoiceSeries.None? && invoiceNumber.None? && invoiceCurrencyId.None?
      ensures invoiceExchangeRate == 0.0 && partialityNumber == 0
      ensures previousBalanceAmount == 0.0 && paymentAmount == 0.0 && remainingBalance == 0.0
      ensures taxObjectId.None? && invoiceTaxesWrapper.None?
    {
      invoiceUuid, invoiceSeries, invoiceNumber, invoiceCurrencyId := None, None, None, None;
      invoiceExchangeRate, partialityNumber := 0.0, 0;
      previousBalanceAmount, paymentAmount, remainingBalance := 0.0, 0.0, 0.0;
      taxObjectId, invoiceTaxesWrapper := None, None;
    }

    // Every Add* below may change only `invoiceTaxesWrapper`.

    method AddTransferredTax(tax: PaymentInvoiceTransferredTax)
      modifies this`invoiceTaxesWrapper
      ensures invoiceTaxesWrapper.Some?
      ensures Transferred(invoiceTaxesWrapper) == LazyLists.Add(Transferred(old(invoiceTaxesWrapper)), tax)
      ensures Withholding(invoiceTaxesWrapper) == Withholding(old(invoiceTaxesWrapper))
    {
      invoiceTaxesWrapper := Some(AddTransferred(invoiceTaxesWrapper, [tax]));
    }

    method AddTransferredTaxes(taxes: seq<PaymentInvoiceTransferredTax>)
      modifies this`invoiceTaxesWrapper
      ensures invoiceTaxesWrapper.Some?
      ensures Transferred(invoiceTaxesWrapper) == LazyLists.AddRange(Transferred(old(invoiceTaxesWrapper)), taxes)
      ensures Withholding(invoiceTaxesWrapper) == Withholding(old(invoiceTaxesWrapper))
    {
      invoiceTaxesWrapper := Some(AddTransferred(invoiceTaxesWrapper, taxes));
    }

    /** Manually calculated: the five values are stored as given. */
    method AddTransferredTaxManual(pbase: real, taxId: string, taxTypeId: string, taxRate: real, amount: real)
      modifies this`invoiceTaxesWrapper
      ensures invoiceTaxesWrapper.Some?
      ensures Transferred(invoiceTaxesWrapper)
           == LazyLists.Add(Transferred(old(invoiceTaxesWrapper)),
                            PaymentInvoiceTransferredTax(pbase, Some(taxId), Some(taxTypeId), taxRate, amount))
      ensures Withholding(invoiceTaxesWrapper) == Withholding(old(invoiceTaxesWrapper))
    {
      var tax := PaymentInvoiceTransferredTax(pbase, Some(taxId), Some(taxTypeId), taxRate, amount);
      invoiceTaxesWrapper := Some(AddTransferred(invoiceTaxesWrapper, [tax]));
    }

    /** Self-calculating: base from PaymentAmount, never from the previous
        or remaining balance; the rate defaults to 0. */
    method AddTransferredTaxSelfCalculated(taxId: string, taxTypeId: string, taxRate: real := 0.0)
      modifies this`invoiceTaxesWrapper
      ensures invoiceTaxesWrapper.Some?
      ensures Transferred(invoiceTaxesWrapper)
           == LazyLists.Add(Transferred(old(invoiceTaxesWrapper)),
                            SelfCalculatedTransferredTax(paymentAmount, taxId, taxTypeId, taxRate))
      ensures Withholding(invoiceTaxesWrapper) == Withholding(old(invoiceTaxesWrapper))
    {
      var tax := SelfCalculatedTransferredTax(paymentAmount, taxId, taxTypeId, taxRate);
      invoiceTaxesWrapper := Some(AddTransferred(invoiceTaxesWrapper, [tax]));
    }

    method AddWithholdingTax(tax: PaymentInvoiceWithholdingTax)
      modifies this`invoiceTaxesWrapper
      ensures invoiceTaxesWrapper.Some?
      ensures Withholding(invoiceTaxesWrapper) == LazyLists.Add(Withholding(old(invoiceTaxesWrapper)), tax)
      ensures Transferred(invoiceTaxesWrapper) == Transferred(old(invoiceTaxesWrapper))
    {
      invoiceTaxesWrapper := Some(AddWithholding(invoiceTaxesWrapper, [tax]));
    }

    method AddWithholdingTaxes(taxes: seq<PaymentInvoiceWithholdingTax>)
      modifies this`invoiceTaxesWrapper
      ensures invoiceTaxesWrapper.Some?
      ensures Withholding(invoiceTaxesWrapper) == LazyLists.AddRange(Withholding(old(invoiceTaxesWrapper)), taxes)
      ensures Transferred(invoiceTaxesWrapper) == Transferred(old(invoiceTaxesWrapper))
    {
      invoiceTaxesWrapper := Some(AddWithholding(invoiceTaxesWrapper, taxes));
    }

    /** Manually calculated: the five values are stored as given and both
        presence flags keep their default, true. */
    method AddWithholdingTaxManual(pbase: real, taxId: string, taxTypeId: string, taxRate: real, amount: real)
      modifies this`invoiceTaxesWrapper
      ensures invoiceTaxesWrapper.Some?
      ensures Withholding(invoiceTaxesWrapper)
           == LazyLists.Add(Withholding(old(invoiceTaxesWrapper)),
                            PaymentInvoiceWithholdingTax(pbase, Some(taxId), Some(taxTypeId), taxRate, true, amount, true))
      ensures Transferred(invoiceTaxesWrapper) == Transferred(old(invoiceTaxesWrapper))
    {
      var tax := PaymentInvoiceWithholdingTax(pbase, Some(taxId), Some(taxTypeId), taxRate, true, amount, true);
      invoiceTaxesWrapper := Some(AddWithholding(invoiceTaxesWrapper, [tax]));
    }

    /** Self-calculating, by the same formula as the transferred overload. */
    method AddWithholdingTaxSelfCalculated(taxId: string, taxTypeId: string, taxRate: real)
      modifies this`invoiceTaxesWrapper
      ensures invoiceTaxesWrapper.Some?
      ensures Withholding(invoiceTaxesWrapper)
           == LazyLists.Add(Withholding(old(invoiceTaxesWrapper)),
                            SelfCalculatedWithholdingTax(paymentAmount, taxId, taxTypeId, taxRate))
      ensures Transferred(invoiceTaxesWrapper) == Transferred(old(invoiceTaxesWrapper))
    {
      var tax := SelfCalculatedWithholdingTax(paymentAmount, taxId, taxTypeId, taxRate);
      invoiceTaxesWrapper := Some(AddWithholding(invoiceTaxesWrapper, [tax]));
    }
  }
}
