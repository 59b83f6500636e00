/** A payment of the Pagos 2.0 complement (Pago): its payment data, its
    related documents and its payment-level tax summary (ImpuestosP). */
module Payments {
  import opened Wrappers
  import opened TaxLists
  import opened PaymentInvoices
  import LazyLists

  /** A TrasladoP line; both "Specified" flags start out true. */
  datatype PaymentTransferredTax = PaymentTransferredTax(
    base: real,
    taxId: Option<string>,
    taxTypeId: Option<string>,
    taxRate: real,
    taxRateSpecified: bool,
    amount: real,
    amountSpecified: bool)

  /** A RetencionP line; its "Specified" flag starts out true. */
  datatype PaymentWithholdingTax = PaymentWithholdingTax(
    taxId: Option<string>,
    amount: real,
    amountSpecified: bool)

  type PaymentTaxesWrapper = TaxesWrapper<PaymentTransferredTax, PaymentWithholdingTax>

  class Payment {
    var paymentDate: Option<string>
    var paymentFormId: Option<string>
    var currencyId: Option<string>
    var exchangeRate: real
    var amount: real
    var operationNumber: Option<string>
    var originBankTin: Option<string>
    var originBankAccountNumber: Option<string>
    var destinationBankTin: Option<string>
    var destinationAccountNumber: Option<string>
    var foreignBankName: Option<string>
    var electronicPaymentSystemId: Option<string>
    var base64PaymentCertificate: Option<string>
    var paymentOriginalString: Option<string>
    var signatureValue: Option<string>
    var invoices: Option<seq<PaymentInvoice>>
    var paymentTaxesWrapper: Option<PaymentTaxesWrapper>

    /** `new Payment()`: every property at its default. */
    constructor ()
      ensures paymentDate.None? && paymentFormId.None? && currencyId.None?
      ensures exchangeRate == 0.0 && amount == 0.0
      ensures operationNumber.None? && originBankTin.None? && originBankAccountNumber.None?
      ensures destinationBankTin.None? && destinationAccountNumber.None? && foreignBankName.None?
      ensures electronicPaymentSystemId.None? && base64PaymentCertificate.None?
      ensures paymentOriginalString.None? && signatureValue.None?
      ensures invoices.None? && paymentTaxesWrapper.None?
    {
      paymentDate, paymentFormId, currencyId := None, None, None;
      exchangeRate, amount := 0.0, 0.0;
      operationNumber, originBankTin, originBankAccountNumber := None, None, None;
      destinationBankTin, destinationAccountNumber, foreignBankName := None, None, None;
      electronicPaymentSystemId, base64PaymentCertificate := None, None;
      paymentOriginalString, signatureValue := None, None;
      invoices, paymentTaxesWrapper := None, None;
    }

    /** The payment carries exactly these fifteen values, no related
        documents and no tax node. */
    ghost predicate HasFields(
      paymentDate: Option<string>, paymentFormId: Option<string>, currencyId: Option<string>, exchangeRate: real,
      amount: real, operationNumber: Option<string>, originBankTin: Option<string>,
      originBankAccountNumber: Option<string>, destinationBankTin: Option<string>,
      destinationAccountNumber: Option<string>, foreignBankName: Option<string>,
      electronicPaymentSystemId: Option<string>, base64PaymentCertificate: Option<string>,
      paymentOriginalString: Option<string>, signatureValue: Option<string>)
      reads this
    {
      && this.paymentDate == paymentDate && this.paymentFormId == paymentFormId
      && this.currencyId == currencyId && this.exchangeRate == exchangeRate && this.amount == amount
      && this.operationNumber == operationNumber && this.originBankTin == originBankTin
      && this.originBankAccountNumber == originBankAccountNumber
      && this.destinationBankTin == destinationBankTin && this.destinationAccountNumber == destinationAccountNumber
      && this.foreignBankName == foreignBankName && this.electronicPaymentSystemId == electronicPaymentSystemId
      && this.base64PaymentCertificate == base64PaymentCertificate
      && this.paymentOriginalString == paymentOriginalString && this.signatureValue == signatureValue
      && invoices.None? && paymentTaxesWrapper.None?
    }

    /** The object initializer `new Payment { PaymentDate = ..., ... }` used
        by the payment service: the fifteen payment values as given, with no
        related documents and no tax node. */
    constructor Fields(
      paymentDate: Option<string>, paymentFormId: Option<string>, currencyId: Option<string>, exchangeRate: real,
      amount: real, operationNumber: Option<string>, originBankTin: Option<string>,
      originBankAccountNumber: Option<string>, destinationBankTin: Option<string>,
      destinationAccountNumber: Option<string>, foreignBankName: Option<string>,
      electronicPaymentSystemId: Option<string>, base64PaymentCertificate: Option<string>,
      paymentOriginalString: Option<string>, signatureValue: Option<string>)
      ensures HasFields(paymentDate, paymentFormId, currencyId, exchangeRate, amount, operationNumber, originBankTin,
                        originBankAccountNumber, destinationBankTin, destinationAccountNumber, foreignBankName,
                        electronicPaymentSystemId, base64PaymentCertificate, paymentOriginalString, signatureValue)
    {
      this.paymentDate, this.paymentFormId, this.currencyId := paymentDate, paymentFormId, currencyId;
      this.exchangeRate, this.amount, this.operationNumber := exchangeRate, amount, operationNumber;
      this.originBankTin, this.originBankAccountNumber := originBankTin, originBankAccountNumber;
      this.destinationBankTin, this.destinationAccountNumber := destinationBankTin, destinationAccountNumber;
      this.foreignBankName, this.electronicPaymentSystemId := foreignBankName, electronicPaymentSystemId;
      this.base64PaymentCertificate, this.paymentOriginalString := base64PaymentCertificate, paymentOriginalString;
      this.signatureValue := signatureValue;
      invoices, paymentTaxesWrapper := None, None;
    }

    /** Appends `invoice` (the very object, not a copy) to the related
        documents, creating the list when absent. */
    method AddInvoice(invoice: PaymentInvoice)
      modifies this`invoices
      ensures invoices == LazyLists.Add(old(invoices), invoice)
    {
      invoices := LazyLists.Add(invoices, invoice);
    }

    /** The ten-argument overload: a new related document carrying the ten
        values and no tax node is appended; the documents already there are
        kept, in order, and none of them is changed. */
    method AddInvoiceFields(
      invoiceUuid: Option<string>,
      invoiceSeries: Option<string>,
      invoiceNumber: Option<string>,
      invoiceCurrencyId: Option<string>,
      invoiceExchangeRate: real,
      partialityNumber: int,
      previousBalanceAmount: real,
      paymentAmount: real,
      remainingBalance: real,
      taxObjectId: Option<string>)
      returns (invoice: PaymentInvoice)
      modifies this`invoices
      ensures fresh(invoice)
      ensures invoices == LazyLists.Add(old(invoices), invoice)
      ensures invoice.invoiceUuid == invoiceUuid && invoice.invoiceSeries == invoiceSeries
      ensures invoice.invoiceNumber == invoiceNumber && invoice.invoiceCurrencyId == invoiceCurrencyId
      ensures invoice.invoiceExchangeRate == invoiceExchangeRate && invoice.partialityNumber == partialityNumber
      ensures invoice.previousBalanceAmount == previousBalanceAmount
      ensures invoice.paymentAmount == paymentAmount && invoice.remainingBalance == remainingBalance
      ensures invoice.taxObjectId == taxObjectId
      ensures invoice.invoiceTaxesWrapper.None?
    {
      invoice := new PaymentInvoice();
      invoice.invoiceUuid, invoice.invoiceSeries := invoiceUuid, invoiceSeries;
      invoice.invoiceNumber, invoice.invoiceCurrencyId := invoiceNumber, invoiceCurrencyId;
      invoice.invoiceExchangeRate, invoice.partialityNumber := invoiceExchangeRate, partialityNumber;
      invoice.previousBalanceAmount := previousBalanceAmount;
      invoice.paymentAmount, invoice.remainingBalance := paymentAmount, remainingBalance;
      invoice.taxObjectId := taxObjectId;
      invoices := LazyLists.Add(invoices, invoice);
    }
  }
}
