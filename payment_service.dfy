/** The payment receipt builder (a CFDI of type Pago carrying the Pagos 2.0
    complement). The source derives it from the invoice service; here it
    holds one and works on that service's document. */
module PaymentServices {
  import opened Wrappers
  import opened Catalog
  import opened InvoiceItems
  import opened Invoices
  import opened Payments
  import LazyLists

  /** The Totales node of the complement; a new one has every total at 0. */
  datatype PaymentSummary = PaymentSummary(
    withholdingIva: real,
    withholdingIsr: real,
    withholdingIeps: real,
    transferredIva16Base: real,
    transferredIva16: real,
    transferredIva8Base: real,
    transferredIva8: real,
    transferredIva0Base: real,
    transferredIva0: real,
    transferredIvaExcento: real,
    totalPaymentAmount: real)

  const NewPaymentSummary := PaymentSummary(0.0, 0.0, 0.0, 0.0, 0.0, 0.0, 0.0, 0.0, 0.0, 0.0, 0.0)

  /** The Pagos complement. */
  class PaymentComplement {
    var headerDecimals: int
    var itemsDecimals: int
    var roundingStrategy: MidpointRounding
    var paymentSummary: Option<PaymentSummary>
    var version: Option<string>
    var payments: Option<seq<Payment>>

    /** The object initializer used by the service: the decimal and rounding
        settings given, a new summary, version "2.0" and no payment list. */
    constructor (headerDecimals: int, itemsDecimals: int, roundingStrategy: MidpointRounding)
      ensures this.headerDecimals == headerDecimals && this.itemsDecimals == itemsDecimals
      ensures this.roundingStrategy == roundingStrategy
      ensures paymentSummary == Some(NewPaymentSummary) && version == Some("2.0") && payments.None?
    {
      this.headerDecimals, this.itemsDecimals, this.roundingStrategy := headerDecimals, itemsDecimals, roundingStrategy;
      paymentSummary := Some(NewPaymentSummary);
      version := Some(V20.ToValue());
      payments := None;
    }
  }

  /** The single concept every payment receipt carries: the payment codes,
      quantity 1, every amount 0, no NoIdentificacion, no Unidad and no taxes. */
  const StandardPaymentItem := InvoiceItemContents(
    Some(SatPaymentItemId), None, 1.0, Some(SatPaymentUnitOfMeasureId), None,
    Some(SatPaymentItemDescriptionId), 0.0, 0.0, 0.0, Some(SatPaymentObjectId), None)

  ghost predicate IsStandardPaymentItem(item: InvoiceItem)
    reads item
  {
    item.Contents() == StandardPaymentItem
  }

  /** The header ConfigureStandardFields leaves in the document: version
      4.0, the given date, type Pago and no export ("01"). */
  function StandardPaymentHeader(h: InvoiceHeader, now: string): (r: InvoiceHeader)
    ensures r.invoiceTypeId == Pago && r.invoiceVersion == V40
    ensures r.invoiceDate == Some(now) && r.exportId == Some(ExportNotApplicable)
    ensures r.(invoiceVersion := h.invoiceVersion, invoiceDate := h.invoiceDate,
               invoiceTypeId := h.invoiceTypeId, exportId := h.exportId) == h
  {
    h.(invoiceVersion := V40, invoiceDate := Some(now), invoiceTypeId := Pago, exportId := Some(ExportNotApplicable))
  }

  /** The standard fields change the document's type but the service's copy
      of the default header still says Ingreso, so the two disagree and the
      type switch of SerializeToString picks the invoice settings. */
  lemma StandardFieldsLeaveMirrorBehind(now: string)
    ensures StandardPaymentHeader(DefaultHeader, now) != DefaultHeader
    ensures DefaultHeader.invoiceTypeId == Ingreso
    ensures SettingsFor(DefaultHeader.invoiceTypeId) == Ok(InvoiceSettings)
    ensures SettingsFor(StandardPaymentHeader(DefaultHeader, now).invoiceTypeId) == Ok(PaymentSettings)
  {
  }

  /** The whole document of a new payment receipt once it has been given the
      schema location `schemaLocation`: the Pago header, the standard item
      and nothing else. */
  function NewPaymentDocument(now: string, schemaLocation: string): (d: InvoiceDocument)
    ensures d.header.invoiceTypeId == Pago && d.invoiceItems == [StandardPaymentItem]
    ensures d.invoiceIssuer.None? && d.invoiceRecipient.None?
  {
    InvoiceDocument(StandardPaymentHeader(DefaultHeader, now), Some(schemaLocation), None, None, None, None,
                    [StandardPaymentItem])
  }

  class PaymentService {
    const service: InvoiceService
    var paymentComplement: PaymentComplement?

    /** `new PaymentService()`, with the clock reading passed in as `now`.
        The document gets the standard item and the Pago header, while the
        service's copy of the header keeps its defaults. */
    constructor (now: string)
      ensures fresh(service) && fresh(service.invoice)
      ensures |service.invoice.invoiceItems| == 1 && fresh(service.invoice.invoiceItems[0])
      ensures IsStandardPaymentItem(service.invoice.invoiceItems[0])
      ensures service.invoice.header == StandardPaymentHeader(DefaultHeader, now)
      ensures service.invoice.Contents() == NewPaymentDocument(now, "").(schemaLocation := None)
      ensures service.mirror == DefaultHeader && !service.InSync()
      ensures service.InvoiceTypeId() == Ingreso
      ensures service.credential.None? && paymentComplement == null
      ensures service.invoice.headerDecimals == DefaultHeaderDecimals && service.invoice.itemsDecimals == DefaultItemsDecimals
      ensures service.invoice.roundingStrategy == DefaultRoundingStrategy
    {
      service := new InvoiceService();
      paymentComplement := null;
      new;
      ConfigureStandardFields(now);
      StandardFieldsLeaveMirrorBehind(now);
    }

    /** The payment receipt built the way the header setters are meant to
        be used: the same standard item, with the four header values written
        through the service so that both copies agree and the InvoiceTypeId
        getter returns Pago. */
    constructor Intended(now: string)
      ensures fresh(service) && fresh(service.invoice)
      ensures |service.invoice.invoiceItems| == 1 && fresh(service.invoice.invoiceItems[0])
      ensures IsStandardPaymentItem(service.invoice.invoiceItems[0])
      ensures service.invoice.header == StandardPaymentHeader(DefaultHeader, now)
      ensures service.invoice.Contents() == NewPaymentDocument(now, "").(schemaLocation := None)
      ensures service.InSync() && service.InvoiceTypeId() == Pago
      ensures service.credential.None? && paymentComplement == null
    {
      service := new InvoiceService();
      paymentComplement := null;
      new;
      AddStandardItem();
      SetStandardFields(now);
    }

    /** Writes version, date, type and export code through the service's
        setters, so that both copies of the header change alike. */
    method SetStandardFields(now: string)
      modifies service`mirror, service.invoice`header
      ensures service.mirror == StandardPaymentHeader(old(service.mirror), now)
      ensures service.invoice.header == StandardPaymentHeader(old(service.invoice.header), now)
    {
      service.SetInvoiceVersion(V40);
      service.SetInvoiceDate(Some(now));
      service.SetInvoiceTypeId(Pago);
      service.SetExportId(Some(ExportNotApplicable));
    }

    /** Appends a new standard item after the items already there. */
    method AddStandardItem()
      modifies service.invoice`invoiceItems
      ensures |service.invoice.invoiceItems| == |old(service.invoice.invoiceItems)| + 1
      ensures service.invoice.invoiceItems[..|old(service.invoice.invoiceItems)|] == old(service.invoice.invoiceItems)
      ensures fresh(service.invoice.invoiceItems[|old(service.invoice.invoiceItems)|])
      ensures IsStandardPaymentItem(service.invoice.invoiceItems[|old(service.invoice.invoiceItems)|])
    {
      var item := new InvoiceItem();
      item.satItemId, item.quantity := Some(SatPaymentItemId), 1.0;
      item.unitOfMeasureId, item.description := Some(SatPaymentUnitOfMeasureId), Some(SatPaymentItemDescriptionId);
      item.unitCost, item.amount, item.discount := 0.0, 0.0, 0.0;
      item.taxObjectId := Some(SatPaymentObjectId);
      service.AddInvoiceItem(item);
    }

    /** Adds one more standard item and writes version, date, type and
        export code straight into the document, not through the service's
        setters: the service's copy of the header is left as it was. */
    method ConfigureStandardFields(now: string)
      modifies service.invoice`invoiceItems, service.invoice`header
      ensures |service.invoice.invoiceItems| == |old(service.invoice.invoiceItems)| + 1
      ensures service.invoice.invoiceItems[..|old(service.invoice.invoiceItems)|] == old(service.invoice.invoiceItems)
      ensures fresh(service.invoice.invoiceItems[|old(service.invoice.invoiceItems)|])
      ensures IsStandardPaymentItem(service.invoice.invoiceItems[|old(service.invoice.invoiceItems)|])
      ensures service.invoice.header == StandardPaymentHeader(old(service.invoice.header), now)
    {
      AddStandardItem();
      service.invoice.header := StandardPaymentHeader(service.invoice.header, now);
    }

    /** `_paymentComplement ??= new PaymentComplement { ... }`: the first
        call creates the complement from the document's settings of that
        moment; later calls keep the existing one untouched. */
    method EnsureComplement()
      modifies this`paymentComplement
      ensures paymentComplement != null
      ensures old(paymentComplement) != null ==> paymentComplement == old(paymentComplement)
      ensures old(paymentComplement) != null ==>
                unchanged(paymentComplement`headerDecimals, paymentComplement`itemsDecimals,
                          paymentComplement`roundingStrategy, paymentComplement`paymentSummary,
                          paymentComplement`version)
      ensures old(paymentComplement) == null ==>
                && fresh(paymentComplement)
                && paymentComplement.headerDecimals == service.invoice.headerDecimals
                && paymentComplement.itemsDecimals == service.invoice.itemsDecimals
                && paymentComplement.roundingStrategy == service.invoice.roundingStrategy
                && paymentComplement.paymentSummary == Some(NewPaymentSummary)
                && paymentComplement.version == Some("2.0")
                && paymentComplement.payments.None?
    {
      if paymentComplement == null {
        paymentComplement := new PaymentComplement(service.invoice.headerDecimals, service.invoice.itemsDecimals,
                                                   service.invoice.roundingStrategy);
      }
    }

    /** Appends one payment, creating the complement and its list on first
        use. Once the complement exists only its payment list changes. */
    method AddPayment(payment: Payment)
      modifies this`paymentComplement, paymentComplement
      ensures unchanged(payment)
      ensures paymentComplement != null
      ensures old(paymentComplement) != null ==> paymentComplement == old(paymentComplement)
      ensures old(paymentComplement) != null ==>
                unchanged(paymentComplement`headerDecimals, paymentComplement`itemsDecimals,
                          paymentComplement`roundingStrategy, paymentComplement`paymentSummary,
                          paymentComplement`version)
      ensures old(paymentComplement) == null ==>
                && fresh(paymentComplement)
                && paymentComplement.headerDecimals == service.invoice.headerDecimals
                && paymentComplement.itemsDecimals == service.invoice.itemsDecimals
                && paymentComplement.roundingStrategy == service.invoice.roundingStrategy
                && paymentComplement.paymentSummary == Some(NewPaymentSummary)
                && paymentComplement.version == Some("2.0")
      ensures paymentComplement.payments
           == LazyLists.Add(if old(paymentComplement) == null then None else old(paymentComplement.payments), payment)
    {
      EnsureComplement();
      paymentComplement.payments := LazyLists.Add(paymentComplement.payments, payment);
    }

    /** Appends all the given payments in order. Unlike AddInvoiceItems it
        has no empty-list check: an empty list still creates the complement
        and an (empty) payment list. */
    method AddPayments(payments: seq<Payment>)
      modifies this`paymentComplement, paymentComplement
      ensures paymentComplement != null
      ensures old(paymentComplement) != null ==> paymentComplement == old(paymentComplement)
      ensures old(paymentComplement) != null ==>
                unchanged(paymentComplement`headerDecimals, paymentComplement`itemsDecimals,
                          paymentComplement`roundingStrategy, paymentComplement`paymentSummary,
                          paymentComplement`version)
      ensures old(paymentComplement) == null ==>
                && fresh(paymentComplement)
                && paymentComplement.headerDecimals == service.invoice.headerDecimals
                && paymentComplement.itemsDecimals == service.invoice.itemsDecimals
                && paymentComplement.roundingStrategy == service.invoice.roundingStrategy
                && paymentComplement.paymentSummary == Some(NewPaymentSummary)
                && paymentComplement.version == Some("2.0")
      ensures paymentComplement.payments
           == LazyLists.AddRange(if old(paymentComplement) == null then None else old(paymentComplement.payments), payments)
    {
      EnsureComplement();
      paymentComplement.payments := LazyLists.AddRange(paymentComplement.payments, payments);
    }

    /** The field overload: a new payment carrying the fifteen values, with
        no related documents and no tax node, is appended. */
    method AddPaymentFields(
      paymentDate: Option<string>, paymentFormId: Option<string>, currencyId: Option<string>, exchangeRate: real,
      amount: real, operationNumber: Option<string>, originBankTin: Option<string>,
      originBankAccountNumber: Option<string>, destinationBankTin: Option<string>,
      destinationAccountNumber: Option<string>, foreignBankName: Option<string> := None,
      electronicPaymentSystemId: Option<string> := None, base64PaymentCertificate: Option<string> := None,
      paymentOriginalString: Option<string> := None, signatureValue: Option<string> := None)
      returns (payment: Payment)
      modifies this`paymentComplement, paymentComplement
      ensures paymentComplement != null
      ensures old(paymentComplement) != null ==> paymentComplement == old(paymentComplement)
      ensures old(paymentComplement) != null ==>
                unchanged(paymentComplement`headerDecimals, paymentComplement`itemsDecimals,
                          paymentComplement`roundingStrategy, paymentComplement`paymentSummary,
                          paymentComplement`version)
      ensures old(paymentComplement) == null ==>
                && fresh(paymentComplement)
                && paymentComplement.headerDecimals == service.invoice.headerDecimals
                && paymentComplement.itemsDecimals == service.invoice.itemsDecimals
                && paymentComplement.roundingStrategy == service.invoice.roundingStrategy
                && paymentComplement.paymentSummary == Some(NewPaymentSummary)
                && paymentComplement.version == Some("2.0")
      ensures fresh(payment)
      ensures paymentComplement.payments
           == LazyLists.Add(if old(paymentComplement) == null then None else old(paymentComplement.payments), payment)
      ensures payment.HasFields(paymentDate, paymentFormId, currencyId, exchangeRate, amount, operationNumber, originBankTin,
                                originBankAccountNumber, destinationBankTin, destinationAccountNumber, foreignBankName,
                                electronicPaymentSystemId, base64PaymentCertificate, paymentOriginalString, signatureValue)
    {
      payment := new Payment.Fields(
        paymentDate, paymentFormId, currencyId, exchangeRate, amount, operationNumber, originBankTin,
        originBankAccountNumber, destinationBankTin, destinationAccountNumber, foreignBankName,
        electronicPaymentSystemId, base64PaymentCertificate, paymentOriginalString, signatureValue);
      AddPayment(payment);
    }
  }

  /** A new payment receipt serialized right away: the type switch reads the
      service's stale InvoiceTypeId (Ingreso), so the document, whose type
      is Pago, gets the plain invoice settings and their schema location. */
  method SerializeNewPaymentService(now: string, writer: XmlWriter) returns (ps: PaymentService, xml: Result<string>)
    ensures ps.service.invoice.header.invoiceTypeId == Pago
    ensures ps.service.invoice.Contents() == NewPaymentDocument(now, writer.schemaLocation(InvoiceSettings))
    ensures xml == Ok(writer.render(InvoiceSettings, NewPaymentDocument(now, writer.schemaLocation(InvoiceSettings))))
  {
    ps := new PaymentService(now);
    xml := ps.service.SerializeToString(writer);
  }

  /** The same with the receipt built through the setters: the payment
      settings are chosen. */
  method SerializeNewPaymentServiceIntended(now: string, writer: XmlWriter) returns (ps: PaymentService, xml: Result<string>)
    ensures ps.service.invoice.header.invoiceTypeId == Pago
    ensures ps.service.invoice.Contents() == NewPaymentDocument(now, writer.schemaLocation(PaymentSettings))
    ensures xml == Ok(writer.render(PaymentSettings, NewPaymentDocument(now, writer.schemaLocation(PaymentSettings))))
  {
    ps := new PaymentService.Intended(now);
    xml := ps.service.SerializeToString(writer);
  }
}
