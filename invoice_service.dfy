/** The CFDI 4.0 document and the service that builds it: line items,
    parties, related CFDIs, the mirrored header properties, the choice of
    serializer settings by invoice type and the signing preconditions. */
module Invoices {
  import opened Wrappers
  import opened Catalog
  import opened InvoiceItems
  import LazyLists

  /** The header attributes of the Comprobante node. The service keeps one
      copy (read by its getters) and the document keeps another. */
  datatype InvoiceHeader = InvoiceHeader(
    invoiceVersion: InvoiceVersion,
    invoiceSerie: Option<string>,
    invoiceNumber: Option<string>,
    invoiceDate: Option<string>,
    signatureValue: Option<string>,
    paymentForm: Option<string>,
    certificateNumber: Option<string>,
    certificateB64: Option<string>,
    paymentConditions: Option<string>,
    subtotal: real,
    discount: real,
    currency: Option<string>,
    exchangeRate: real,
    total: real,
    invoiceTypeId: InvoiceType,
    exportId: Option<string>,
    paymentMethodId: Option<string>,
    expeditionZipCode: Option<string>,
    pacConfirmation: Option<string>)

  /** Every header property at its C# default: enums at 0 (V40, Ingreso),
      strings null, decimals 0. */
  const DefaultHeader := InvoiceHeader(
    V40, None, None, None, None, None, None, None, None,
    0.0, 0.0, None, 0.0, 0.0, DefaultInvoiceType, None, None, None, None)

  datatype InvoiceIssuer = InvoiceIssuer(
    tin: Option<string>,
    legalName: Option<string>,
    taxRegimeId: Option<string>,
    operationNumber: Option<string>)

  datatype InvoiceRecipient = InvoiceRecipient(
    tin: Option<string>,
    legalName: Option<string>,
    zipCode: Option<string>,
    foreignCountryId: Option<string>,
    foreignTin: Option<string>,
    taxRegimeId: Option<string>,
    cfdiUseId: Option<string>)

  datatype InvoiceGlobalInformation = InvoiceGlobalInformation(
    periodicity: Option<string>,
    month: Option<string>,
    year: int)

  datatype InvoiceRelated = InvoiceRelated(invoiceUuid: Option<string>)

  /** The CfdiRelacionados node: one relationship type for all its UUIDs. */
  datatype InvoiceRelatedWrapper = InvoiceRelatedWrapper(
    relatedInvoices: Option<seq<InvoiceRelated>>,
    relationshipTypeId: Option<string>)

  /** The settings families the serializer can be configured for. */
  datatype SerializerSettings = InvoiceSettings | WaybillSettings | PayrollSettings | PaymentSettings

  /** The signing credential: the original string the XSLT produces from an
      XML text, and the Base64 of the signature of a string. Both belong to
      an external library and are left abstract. */
  datatype Credential = Credential(originalString: string -> string, signBase64: string -> string)

  /** Everything the serializer writes for a document, as one value: the
      header attributes, the schema location, the global information, the
      related-CFDI node, the two parties and every line item, in order. */
  datatype InvoiceDocument = InvoiceDocument(
    header: InvoiceHeader,
    schemaLocation: Option<string>,
    globalInformation: Option<InvoiceGlobalInformation>,
    relatedInvoiceWrapper: Option<InvoiceRelatedWrapper>,
    invoiceIssuer: Option<InvoiceIssuer>,
    invoiceRecipient: Option<InvoiceRecipient>,
    invoiceItems: seq<InvoiceItemContents>)

  /** The current values of a list of item objects, position by position. */
  function ItemContents(items: seq<InvoiceItem>): (r: seq<InvoiceItemContents>)
    reads items
    ensures |r| == |items|
    ensures forall k :: 0 <= k < |items| ==> r[k] == items[k].Contents()
  {
    seq(|items|, k requires 0 <= k < |items| reads items => items[k].Contents())
  }

  /** A document with its Sello replaced by `signature`. */
  function WithSignature(d: InvoiceDocument, signature: Option<string>): InvoiceDocument
  {
    d.(header := d.header.(signatureValue := signature))
  }

  /** The XML side of serialization, which is library code: the schema
      location each settings family selects, and the cleaned XML text of a
      whole document under given settings. */
  datatype XmlWriter = XmlWriter(
    schemaLocation: SerializerSettings -> string,
    render: (SerializerSettings, InvoiceDocument) -> string)

  /** The type switch of SerializeToString. Every named member has a settings
      family; any other value of the enum is not supported. */
  function SettingsFor(t: InvoiceType): (r: Result<SerializerSettings>)
    ensures r == Ok(InvoiceSettings) <==> t == Ingreso || t == Egreso
    ensures r == Ok(WaybillSettings) <==> t == Traslado
    ensures r == Ok(PayrollSettings) <==> t == Nomina
    ensures r == Ok(PaymentSettings) <==> t == Pago
    ensures r.Err? <==> !(Ingreso <= t <= Pago)
    ensures r.Err? ==> r.error == NotSupported
  {
    if t == Ingreso || t == Egreso then Ok(InvoiceSettings)
    else if t == Traslado then Ok(WaybillSettings)
    else if t == Nomina then Ok(PayrollSettings)
    else if t == Pago then Ok(PaymentSettings)
    else Err(NotSupported)
  }

  /** The related documents of a wrapper that may not exist yet. */
  function RelatedInvoicesOf(w: Option<InvoiceRelatedWrapper>): Option<seq<InvoiceRelated>>
  {
    if w.None? then None else w.value.relatedInvoices
  }

  /** The relationship type of a wrapper that may not exist yet. */
  function RelationshipTypeOf(w: Option<InvoiceRelatedWrapper>): Option<string>
  {
    if w.None? then None else w.value.relationshipTypeId
  }

  /** AddRelatedCfdi(InvoiceRelated): the wrapper and its list now exist,
      the entry is appended and the relationship type is left as it was. */
  function WithRelated(w: Option<InvoiceRelatedWrapper>, related: InvoiceRelated): (r: InvoiceRelatedWrapper)
    ensures r.relatedInvoices == LazyLists.Add(RelatedInvoicesOf(w), related)
    ensures r.relationshipTypeId == RelationshipTypeOf(w)
  {
    var current := if w.None? then InvoiceRelatedWrapper(None, None) else w.value;
    current.(relatedInvoices := LazyLists.Add(current.relatedInvoices, related))
  }

  /** AddRelatedCfdi(uuid, type): an entry carrying `uuid` is appended and
      the single relationship type of the node becomes `relationshipTypeId`. */
  function WithRelatedOfType(w: Option<InvoiceRelatedWrapper>, invoiceUuid: string, relationshipTypeId: string)
    : (r: InvoiceRelatedWrapper)
    ensures r.relatedInvoices == LazyLists.Add(RelatedInvoicesOf(w), InvoiceRelated(Some(invoiceUuid)))
    ensures r.relationshipTypeId == Some(relationshipTypeId)
  {
    var current := if w.None? then InvoiceRelatedWrapper(None, None) else w.value;
    current.(relationshipTypeId := Some(relationshipTypeId),
             relatedInvoices := LazyLists.Add(current.relatedInvoices, InvoiceRelated(Some(invoiceUuid))))
  }

  /** The last relationship type given applies to every UUID in the node:
      after two typed adds the node holds both UUIDs, in call order, under
      the second type only. */
  lemma {:induction false} LastRelationshipTypeWins(
    w: Option<InvoiceRelatedWrapper>, uuid1: string, type1: string, uuid2: string, type2: string)
    ensures var w2 := WithRelatedOfType(Some(WithRelatedOfType(w, uuid1, type1)), uuid2, type2);
            w2.relationshipTypeId == Some(type2)
            && LazyLists.Elements(w2.relatedInvoices)
               == LazyLists.Elements(RelatedInvoicesOf(w)) + [InvoiceRelated(Some(uuid1)), InvoiceRelated(Some(uuid2))]
  {
    var w1 := WithRelatedOfType(w, uuid1, type1);
    var w2 := WithRelatedOfType(Some(w1), uuid2, type2);
    var before := LazyLists.Elements(RelatedInvoicesOf(w));
    assert LazyLists.Elements(w1.relatedInvoices) == before + [InvoiceRelated(Some(uuid1))];
    assert LazyLists.Elements(w2.relatedInvoices) == (before + [InvoiceRelated(Some(uuid1))]) + [InvoiceRelated(Some(uuid2))];
  }

  /** An untyped add never changes the relationship type, so a type set by
      an earlier typed add survives a later untyped add. */
  lemma UntypedAddKeepsType(w: Option<InvoiceRelatedWrapper>, uuid: string, typeId: string, related: InvoiceRelated)
    ensures WithRelated(Some(WithRelatedOfType(w, uuid, typeId)), related).relationshipTypeId == Some(typeId)
  {
  }

  /** The recipient built by the field overload of AddRecipient, as the
      source writes it: Tin receives `foreignTin` and `tin` is dropped. */
  function RecipientFromFields(
    tin: string, legalName: string, zipCode: string, taxRegimeId: string, cfdiUseId: string,
    foreignCountryId: Option<string>, foreignTin: Option<string>): (r: InvoiceRecipient)
    ensures r.tin == foreignTin && r.foreignTin == foreignTin
    ensures r.legalName == Some(legalName) && r.zipCode == Some(zipCode)
    ensures r.taxRegimeId == Some(taxRegimeId) && r.cfdiUseId == Some(cfdiUseId)
    ensures r.foreignCountryId == foreignCountryId
  {
    InvoiceRecipient(foreignTin, Some(legalName), Some(zipCode), foreignCountryId, foreignTin, Some(taxRegimeId), Some(cfdiUseId))
  }

  /** The recipient the field overload evidently means to build: Tin is
      the RFC passed as `tin`. */
  function IntendedRecipientFromFields(
    tin: string, legalName: string, zipCode: string, taxRegimeId: string, cfdiUseId: string,
    foreignCountryId: Option<string>, foreignTin: Option<string>): (r: InvoiceRecipient)
    ensures r.tin == Some(tin) && r.foreignTin == foreignTin
    ensures r.legalName == Some(legalName) && r.zipCode == Some(zipCode)
    ensures r.taxRegimeId == Some(taxRegimeId) && r.cfdiUseId == Some(cfdiUseId)
    ensures r.foreignCountryId == foreignCountryId
  {
    InvoiceRecipient(Some(tin), Some(legalName), Some(zipCode), foreignCountryId, foreignTin, Some(taxRegimeId), Some(cfdiUseId))
  }

  /** As written, the recipient's RFC survives exactly when the caller
      passes the same string again as `foreignTin`; in particular a
      domestic recipient (no foreign TIN) ends up with no RFC at all. */
  lemma RecipientKeepsTinOnlyWhenRepeated(
    tin: string, legalName: string, zipCode: string, taxRegimeId: string, cfdiUseId: string,
    foreignCountryId: Option<string>, foreignTin: Option<string>)
    ensures RecipientFromFields(tin, legalName, zipCode, taxRegimeId, cfdiUseId, foreignCountryId, foreignTin).tin == Some(tin)
        <==> foreignTin == Some(tin)
    ensures foreignTin.None? ==> RecipientFromFields(tin, legalName, zipCode, taxRegimeId, cfdiUseId, foreignCountryId, foreignTin).tin.None?
  {
  }

  /** The two builders agree exactly when the foreign TIN repeats the RFC. */
  lemma RecipientBuildersAgreeIff(
    tin: string, legalName: string, zipCode: string, taxRegimeId: string, cfdiUseId: string,
    foreignCountryId: Option<string>, foreignTin: Option<string>)
    ensures RecipientFromFields(tin, legalName, zipCode, taxRegimeId, cfdiUseId, foreignCountryId, foreignTin)
         == IntendedRecipientFromFields(tin, legalName, zipCode, taxRegimeId, cfdiUseId, foreignCountryId, foreignTin)
        <==> foreignTin == Some(tin)
  {
  }

  /** The document the service builds. */
  class Invoice {
    var header: InvoiceHeader
    var schemaLocation: Option<string>
    var globalInformation: Option<InvoiceGlobalInformation>
    var relatedInvoiceWrapper: Option<InvoiceRelatedWrapper>
    var invoiceIssuer: Option<InvoiceIssuer>
    var invoiceRecipient: Option<InvoiceRecipient>
    var invoiceItems: seq<InvoiceItem>
    var headerDecimals: int
    var itemsDecimals: int
    var roundingStrategy: MidpointRounding

    /** A new document: default header, no parties, no related CFDIs, an
        empty (but existing) item list and the default compute settings. */
    constructor ()
      ensures header == DefaultHeader && schemaLocation.None?
      ensures globalInformation.None? && relatedInvoiceWrapper.None?
      ensures invoiceIssuer.None? && invoiceRecipient.None?
      ensures invoiceItems == []
      ensures headerDecimals == DefaultHeaderDecimals && itemsDecimals == DefaultItemsDecimals
      ensures roundingStrategy == DefaultRoundingStrategy
    {
      header, schemaLocation := DefaultHeader, None;
      globalInformation, relatedInvoiceWrapper := None, None;
      invoiceIssuer, invoiceRecipient := None, None;
      invoiceItems := [];
      headerDecimals, itemsDecimals, roundingStrategy := DefaultHeaderDecimals, DefaultItemsDecimals, DefaultRoundingStrategy;
    }

    /** What the serializer sees of this document right now. The decimal and
        rounding settings are not written (XmlIgnore) and are not part of it. */
    function Contents(): InvoiceDocument
      reads this, invoiceItems
    {
      InvoiceDocument(header, schemaLocation, globalInformation, relatedInvoiceWrapper,
                      invoiceIssuer, invoiceRecipient, ItemContents(invoiceItems))
    }
  }

  class InvoiceService {
    /** The document; the reference never changes. */
    const invoice: Invoice
    /** The service's own copy of the header properties, which the getters
        return. */
    var mirror: InvoiceHeader
    var credential: Option<Credential>
    /** How many times Compute has run on this service. */
    ghost var computeRuns: nat

    /** The getters agree with the document's header. */
    ghost predicate InSync()
      reads this, invoice
    {
      mirror == invoice.header
    }

    /** The InvoiceTypeId getter: it reads the service's copy only. */
    function InvoiceTypeId(): (t: InvoiceType)
      reads this
      ensures t == mirror.invoiceTypeId
    {
      mirror.invoiceTypeId
    }

    constructor ()
      ensures fresh(invoice)
      ensures mirror == DefaultHeader && InSync()
      ensures credential.None? && computeRuns == 0
      ensures invoice.schemaLocation.None? && invoice.globalInformation.None? && invoice.relatedInvoiceWrapper.None?
      ensures invoice.invoiceIssuer.None? && invoice.invoiceRecipient.None? && invoice.invoiceItems == []
      ensures invoice.headerDecimals == DefaultHeaderDecimals && invoice.itemsDecimals == DefaultItemsDecimals
      ensures invoice.roundingStrategy == DefaultRoundingStrategy
    {
      invoice := new Invoice();
      mirror := DefaultHeader;
      credential := None;
      computeRuns := 0;
    }

    /** The field overload: exactly one new item is appended and the items
        already there are kept, in order. As written the item's ItemId is
        `satItemId`; the `itemId` argument is not used. Amount is the
        caller's value, not Quantity times UnitCost. */
    method AddInvoiceItemFields(
      satItemId: string, itemId: string, quantity: real, unitOfMeasureId: string, unitOfMeasure: string,
      description: string, unitCost: real, amount: real, discount: real, taxObjectId: string)
      returns (item: InvoiceItem)
      modifies invoice`invoiceItems
      ensures fresh(item)
      ensures invoice.invoiceItems == old(invoice.invoiceItems) + [item]
      ensures item.satItemId == Some(satItemId) && item.itemId == Some(satItemId)
      ensures itemId != satItemId ==> item.itemId != Some(itemId)
      ensures item.quantity == quantity && item.unitOfMeasureId == Some(unitOfMeasureId)
      ensures item.unitOfMeasure == Some(unitOfMeasure) && item.description == Some(description)
      ensures item.unitCost == unitCost && item.amount == amount && item.discount == discount
      ensures item.taxObjectId == Some(taxObjectId) && item.itemTaxex.None?
    {
      item := new InvoiceItem();
      item.satItemId, item.itemId, item.quantity := Some(satItemId), Some(satItemId), quantity;
      item.unitOfMeasureId, item.unitOfMeasure := Some(unitOfMeasureId), Some(unitOfMeasure);
      item.description, item.unitCost, item.amount := Some(description), unitCost, amount;
      item.discount, item.taxObjectId := discount, Some(taxObjectId);
      invoice.invoiceItems := invoice.invoiceItems + [item];
    }

    /** The field overload with the ItemId the parameter list evidently
        intends: NoIdentificacion is the caller's `itemId`. */
    method AddInvoiceItemFieldsIntended(
      satItemId: string, itemId: string, quantity: real, unitOfMeasureId: string, unitOfMeasure: string,
      description: string, unitCost: real, amount: real, discount: real, taxObjectId: string)
      returns (item: InvoiceItem)
      modifies invoice`invoiceItems
      ensures fresh(item)
      ensures invoice.invoiceItems == old(invoice.invoiceItems) + [item]
      ensures item.satItemId == Some(satItemId) && item.itemId == Some(itemId)
      ensures item.quantity == quantity && item.unitOfMeasureId == Some(unitOfMeasureId)
      ensures item.unitOfMeasure == Some(unitOfMeasure) && item.description == Some(description)
      ensures item.unitCost == unitCost && item.amount == amount && item.discount == discount
      ensures item.taxObjectId == Some(taxObjectId) && item.itemTaxex.None?
    {
      item := new InvoiceItem();
      item.satItemId, item.itemId, item.quantity := Some(satItemId), Some(itemId), quantity;
      item.unitOfMeasureId, item.unitOfMeasure := Some(unitOfMeasureId), Some(unitOfMeasure);
      item.description, item.unitCost, item.amount := Some(description), unitCost, amount;
      item.discount, item.taxObjectId := discount, Some(taxObjectId);
      invoice.invoiceItems := invoice.invoiceItems + [item];
    }

    /** Appends the given item object itself. */
    method AddInvoiceItem(invoiceItem: InvoiceItem)
      modifies invoice`invoiceItems
      ensures invoice.invoiceItems == old(invoice.invoiceItems) + [invoiceItem]
    {
      invoice.invoiceItems := invoice.invoiceItems + [invoiceItem];
    }

    /** An empty list is refused with ArgumentNullException("invoiceItems")
        and the items stay as they were; otherwise all the given items are
        appended in order. */
    method AddInvoiceItems(invoiceItems: seq<InvoiceItem>) returns (outcome: Outcome)
      modifies invoice`invoiceItems
      ensures outcome.Fail? <==> invoiceItems == []
      ensures outcome.Fail? ==> (outcome.error == ArgumentNull("invoiceItems")
                                 && invoice.invoiceItems == old(invoice.invoiceItems))
      ensures outcome.Pass? ==> invoice.invoiceItems == old(invoice.invoiceItems) + invoiceItems
    {
      if |invoiceItems| == 0 {
        return Fail(ArgumentNull("invoiceItems"));
      }
      invoice.invoiceItems := invoice.invoiceItems + invoiceItems;
      outcome := Pass;
    }

    /** Replaces the issuer wholesale. */
    method AddIssuer(invoiceIssuer: InvoiceIssuer)
      modifies invoice`invoiceIssuer
      ensures invoice.invoiceIssuer == Some(invoiceIssuer)
    {
      invoice.invoiceIssuer := Some(invoiceIssuer);
    }

    /** Replaces the issuer with one built from the four values; nothing of
        the previous issuer survives. */
    method AddIssuerFields(tin: string, legalName: string, taxRegimeId: string, operationNumber: Option<string> := None)
      modifies invoice`invoiceIssuer
      ensures invoice.invoiceIssuer == Some(InvoiceIssuer(Some(tin), Some(legalName), Some(taxRegimeId), operationNumber))
    {
      invoice.invoiceIssuer := Some(InvoiceIssuer(Some(tin), Some(legalName), Some(taxRegimeId), operationNumber));
    }

    /** Replaces the recipient wholesale. */
    method AddRecipient(invoiceRecipient: InvoiceRecipient)
      modifies invoice`invoiceRecipient
      ensures invoice.invoiceRecipient == Some(invoiceRecipient)
    {
      invoice.invoiceRecipient := Some(invoiceRecipient);
    }

    /** Replaces the recipient with the one the source builds from the
        fields, whose Tin is `foreignTin`. */
    method AddRecipientFields(
      tin: string, legalName: string, zipCode: string, taxRegimeId: string, cfdiUseId: string,
      foreignCountryId: Option<string> := None, foreignTin: Option<string> := None)
      modifies invoice`invoiceRecipient
      ensures invoice.invoiceRecipient
           == Some(RecipientFromFields(tin, legalName, zipCode, taxRegimeId, cfdiUseId, foreignCountryId, foreignTin))
      ensures invoice.invoiceRecipient.value.tin == foreignTin
    {
      invoice.invoiceRecipient := Some(RecipientFromFields(tin, legalName, zipCode, taxRegimeId, cfdiUseId, foreignCountryId, foreignTin));
    }

    /** The field overload as it is evidently meant: the recipient's RFC is
        `tin`, whether or not a foreign TIN is given. */
    method AddRecipientFieldsIntended(
      tin: string, legalName: string, zipCode: string, taxRegimeId: string, cfdiUseId: string,
      foreignCountryId: Option<string> := None, foreignTin: Option<string> := None)
      modifies invoice`invoiceRecipient
      ensures invoice.invoiceRecipient
           == Some(IntendedRecipientFromFields(tin, legalName, zipCode, taxRegimeId, cfdiUseId, foreignCountryId, foreignTin))
      ensures invoice.invoiceRecipient.value.tin == Some(tin)
    {
      invoice.invoiceRecipient := Some(IntendedRecipientFromFields(tin, legalName, zipCode, taxRegimeId, cfdiUseId, foreignCountryId, foreignTin));
    }

    method AddGlobalInformation(globalInformation: InvoiceGlobalInformation)
      modifies invoice`globalInformation
      ensures invoice.globalInformation == Some(globalInformation)
    {
      invoice.globalInformation := Some(globalInformation);
    }

    method AddGlobalInformationFields(periodicity: string, month: string, year: int)
      modifies invoice`globalInformation
      ensures invoice.globalInformation == Some(InvoiceGlobalInformation(Some(periodicity), Some(month), year))
    {
      invoice.globalInformation := Some(InvoiceGlobalInformation(Some(periodicity), Some(month), year));
    }

    /** Appends one related CFDI, creating the node and its list when
        absent; the relationship type is not touched. */
    method AddRelatedCfdi(invoiceRelated: InvoiceRelated)
      modifies invoice`relatedInvoiceWrapper
      ensures invoice.relatedInvoiceWrapper.Some?
      ensures RelatedInvoicesOf(invoice.relatedInvoiceWrapper)
           == LazyLists.Add(RelatedInvoicesOf(old(invoice.relatedInvoiceWrapper)), invoiceRelated)
      ensures RelationshipTypeOf(invoice.relatedInvoiceWrapper) == RelationshipTypeOf(old(invoice.relatedInvoiceWrapper))
    {
      invoice.relatedInvoiceWrapper := Some(WithRelated(invoice.relatedInvoiceWrapper, invoiceRelated));
    }

    /** Appends one related CFDI carrying `invoiceUuid` and sets the node's
        single relationship type, "01" by default, for all its UUIDs. */
    method AddRelatedCfdiUuid(invoiceUuid: string, relationshipTypeId: string := DefaultRelationshipTypeId)
      modifies invoice`relatedInvoiceWrapper
      ensures invoice.relatedInvoiceWrapper.Some?
      ensures RelatedInvoicesOf(invoice.relatedInvoiceWrapper)
           == LazyLists.Add(RelatedInvoicesOf(old(invoice.relatedInvoiceWrapper)), InvoiceRelated(Some(invoiceUuid)))
      ensures RelationshipTypeOf(invoice.relatedInvoiceWrapper) == Some(relationshipTypeId)
    {
      invoice.relatedInvoiceWrapper := Some(WithRelatedOfType(invoice.relatedInvoiceWrapper, invoiceUuid, relationshipTypeId));
    }

    /** Chooses the settings by the InvoiceTypeId getter (the service's own
        copy, not the document's), stores the schema location those settings
        give in the document and returns the cleaned XML of the whole
        document, new schema location included. An unnamed type is refused
        with NotSupportedException and nothing changes. */
    method SerializeToString(writer: XmlWriter) returns (r: Result<string>)
      modifies invoice`schemaLocation
      ensures SettingsFor(InvoiceTypeId()).Err? ==> r == Err(NotSupported) && invoice.schemaLocation == old(invoice.schemaLocation)
      ensures SettingsFor(InvoiceTypeId()).Ok? ==>
                var settings := SettingsFor(InvoiceTypeId()).value;
                invoice.schemaLocation == Some(writer.schemaLocation(settings))
                && r == Ok(writer.render(settings, invoice.Contents()))
    {
      var settings := SettingsFor(InvoiceTypeId());
      if settings.Err? {
        return Err(NotSupported);
      }
      invoice.schemaLocation := Some(writer.schemaLocation(settings.value));
      r := Ok(writer.render(settings.value, invoice.Contents()));
    }

    /** The tax and totals engine of the document. Its computation is not
        part of this model: it may change the document and its items in any
        way, and it never touches the service's own fields. */
    method Compute()
      modifies this`computeRuns, invoice, set i | i in invoice.invoiceItems
      ensures computeRuns == old(computeRuns) + 1
    {
      computeRuns := computeRuns + 1;
    }

    /** A missing credential is refused first (CredentialNotFoundException),
        then an empty XSLT path (CredentialConfigurationException); on those
        paths nothing runs and nothing changes. Otherwise Compute runs
        exactly when `compute` is true (the default) and the original string
        of the serialized document is returned. Without Compute the only
        change is the schema location SerializeToString writes, so the
        string is that of the caller's document. */
    method ComputeOriginalString(compute: bool := true, originalStringPath: Option<string>, writer: XmlWriter)
      returns (r: Result<string>)
      modifies this`computeRuns, invoice, set i | i in invoice.invoiceItems
      ensures credential.None? ==> r == Err(CredentialNotFound)
      ensures credential.Some? && IsNullOrEmpty(originalStringPath) ==> r == Err(CredentialConfiguration)
      ensures credential.None? || IsNullOrEmpty(originalStringPath) ==>
                computeRuns == old(computeRuns) && unchanged(invoice) && unchanged(set i | i in old(invoice.invoiceItems))
      ensures credential.Some? && !IsNullOrEmpty(originalStringPath) ==>
                computeRuns == old(computeRuns) + (if compute then 1 else 0)
                && (SettingsFor(InvoiceTypeId()).Err? ==> r == Err(NotSupported))
                && (SettingsFor(InvoiceTypeId()).Ok? ==>
                      r == Ok(credential.value.originalString(writer.render(SettingsFor(InvoiceTypeId()).value, invoice.Contents()))))
      ensures credential.Some? && !IsNullOrEmpty(originalStringPath) && SettingsFor(InvoiceTypeId()).Ok? ==>
                invoice.schemaLocation == Some(writer.schemaLocation(SettingsFor(InvoiceTypeId()).value))
      ensures !compute ==>
                && unchanged(invoice`header, invoice`globalInformation, invoice`relatedInvoiceWrapper,
                             invoice`invoiceIssuer, invoice`invoiceRecipient, invoice`invoiceItems,
                             invoice`headerDecimals, invoice`itemsDecimals, invoice`roundingStrategy)
                && unchanged(set i | i in old(invoice.invoiceItems))
                && invoice.Contents() == old(invoice.Contents()).(schemaLocation := invoice.schemaLocation)
      ensures !compute && r.Err? ==> invoice.schemaLocation == old(invoice.schemaLocation)
    {
      if credential.None? {
        return Err(CredentialNotFound);
      }
      if IsNullOrEmpty(originalStringPath) {
        return Err(CredentialConfiguration);
      }
      if compute {
        Compute();
      }
      var xml := SerializeToString(writer);
      if xml.Err? {
        return Err(xml.error);
      }
      r := Ok(credential.value.originalString(xml.value));
    }

    /** The same two checks in the same order, then the original string;
        an unsupported type fails with NotSupported before anything is
        signed. On success the document's SignatureValue is the Base64
        signature of the returned original string, and that string is the
        original string of the final document as it read before its
        SignatureValue was written; without Compute that is the caller's
        document with its new schema location. SignInvoice writes the value
        into the document only: the SignatureValue getter keeps returning
        its old value. */
    method SignInvoice(compute: bool := true, originalStringPath: Option<string>, writer: XmlWriter)
      returns (r: Result<string>)
      modifies this`computeRuns, invoice, set i | i in invoice.invoiceItems
      ensures credential.None? ==> r == Err(CredentialNotFound)
      ensures credential.Some? && IsNullOrEmpty(originalStringPath) ==> r == Err(CredentialConfiguration)
      ensures credential.None? || IsNullOrEmpty(originalStringPath) ==>
                computeRuns == old(computeRuns) && unchanged(invoice) && unchanged(set i | i in old(invoice.invoiceItems))
      ensures r.Ok? <==> credential.Some? && !IsNullOrEmpty(originalStringPath) && SettingsFor(InvoiceTypeId()).Ok?
      ensures credential.Some? && !IsNullOrEmpty(originalStringPath) ==>
                computeRuns == old(computeRuns) + (if compute then 1 else 0)
      ensures credential.Some? && !IsNullOrEmpty(originalStringPath) && SettingsFor(InvoiceTypeId()).Err? ==>
                r == Err(NotSupported)
      ensures r.Ok? ==>
                && invoice.header.signatureValue == Some(credential.value.signBase64(r.value))
                && invoice.schemaLocation == Some(writer.schemaLocation(SettingsFor(InvoiceTypeId()).value))
      ensures r.Ok? ==>
                exists unsigned :: r.value == credential.value.originalString(
                  writer.render(SettingsFor(InvoiceTypeId()).value, WithSignature(invoice.Contents(), unsigned)))
      ensures !compute ==>
                && unchanged(invoice`globalInformation, invoice`relatedInvoiceWrapper,
                             invoice`invoiceIssuer, invoice`invoiceRecipient, invoice`invoiceItems,
                             invoice`headerDecimals, invoice`itemsDecimals, invoice`roundingStrategy)
                && unchanged(set i | i in old(invoice.invoiceItems))
      ensures !compute && r.Err? ==> unchanged(invoice`header, invoice`schemaLocation)
      ensures !compute && r.Ok? ==>
                && invoice.header == old(invoice.header).(signatureValue := Some(credential.value.signBase64(r.value)))
                && r.value == credential.value.originalString(
                     writer.render(SettingsFor(InvoiceTypeId()).value,
                                   old(invoice.Contents()).(schemaLocation := invoice.schemaLocation)))
      ensures mirror == old(mirror)
    {
      if credential.None? {
        return Err(CredentialNotFound);
      }
      if IsNullOrEmpty(originalStringPath) {
        return Err(CredentialConfiguration);
      }
      r := ComputeOriginalString(compute, originalStringPath, writer);
      if r.Err? {
        return;
      }
      ghost var unsigned := invoice.Contents();
      invoice.header := invoice.header.(signatureValue := Some(credential.value.signBase64(r.value)));
      assert WithSignature(invoice.Contents(), unsigned.header.signatureValue) == unsigned;
    }

    method SetCredential(value: Option<Credential>)
      modifies this`credential
      ensures credential == value
    {
      credential := value;
    }

    // The header property setters. Each writes the value into the service's
    // copy and into the document, changes no other property, and so keeps
    // the two copies in agreement when they agreed before.

    method SetInvoiceVersion(value: InvoiceVersion)
      modifies this`mirror, invoice`header
      ensures mirror == old(mirror).(invoiceVersion := value)
      ensures invoice.header == old(invoice.header).(invoiceVersion := value)
      ensures old(InSync()) ==> InSync()
    {
      mirror := mirror.(invoiceVersion := value);
      invoice.header := invoice.header.(invoiceVersion := value);
    }

    method SetInvoiceSerie(value: Option<string>)
      modifies this`mirror, invoice`header
      ensures mirror == old(mirror).(invoiceSerie := value)
      ensures invoice.header == old(invoice.header).(invoiceSerie := value)
      ensures old(InSync()) ==> InSync()
    {
      mirror := mirror.(invoiceSerie := value);
      invoice.header := invoice.header.(invoiceSerie := value);
    }

    method SetInvoiceNumber(value: Option<string>)
      modifies this`mirror, invoice`header
      ensures mirror == old(mirror).(invoiceNumber := value)
      ensures invoice.header == old(invoice.header).(invoiceNumber := value)
      ensures old(InSync()) ==> InSync()
    {
      mirror := mirror.(invoiceNumber := value);
      invoice.header := invoice.header.(invoiceNumber := value);
    }

    method SetInvoiceDate(value: Option<string>)
      modifies this`mirror, invoice`header
      ensures mirror == old(mirror).(invoiceDate := value)
      ensures invoice.header == old(invoice.header).(invoiceDate := value)
      ensures old(InSync()) ==> InSync()
    {
      mirror := mirror.(invoiceDate := value);
      invoice.header := invoice.header.(invoiceDate := value);
    }

    method SetSignatureValue(value: Option<string>)
      modifies this`mirror, invoice`header
      ensures mirror == old(mirror).(signatureValue := value)
      ensures invoice.header == old(invoice.header).(signatureValue := value)
      ensures old(InSync()) ==> InSync()
    {
      mirror := mirror.(signatureValue := value);
      invoice.header := invoice.header.(signatureValue := value);
    }

    method SetPaymentForm(value: Option<string>)
      modifies this`mirror, invoice`header
      ensures mirror == old(mirror).(paymentForm := value)
      ensures invoice.header == old(invoice.header).(paymentForm := value)
      ensures old(InSync()) ==> InSync()
    {
      mirror := mirror.(paymentForm := value);
      invoice.header := invoice.header.(paymentForm := value);
    }

    method SetCertificateNumber(value: Option<string>)
      modifies this`mirror, invoice`header
      ensures mirror == old(mirror).(certificateNumber := value)
      ensures invoice.header == old(invoice.header).(certificateNumber := value)
      ensures old(InSync()) ==> InSync()
    {
      mirror := mirror.(certificateNumber := value);
      invoice.header := invoice.header.(certificateNumber := value);
    }

    method SetCertificateB64(value: Option<string>)
      modifies this`mirror, invoice`header
      ensures mirror == old(mirror).(certificateB64 := value)
      ensures invoice.header == old(invoice.header).(certificateB64 := value)
      ensures old(InSync()) ==> InSync()
    {
      mirror := mirror.(certificateB64 := value);
      invoice.header := invoice.header.(certificateB64 := value);
    }

    method SetPaymentConditions(value: Option<string>)
      modifies this`mirror, invoice`header
      ensures mirror == old(mirror).(paymentConditions := value)
      ensures invoice.header == old(invoice.header).(paymentConditions := value)
      ensures old(InSync()) ==> InSync()
    {
      mirror := mirror.(paymentConditions := value);
      invoice.header := invoice.header.(paymentConditions := value);
    }

    method SetSubtotal(value: real)
      modifies this`mirror, invoice`header
      ensures mirror == old(mirror).(subtotal := value)
      ensures invoice.header == old(invoice.header).(subtotal := value)
      ensures old(InSync()) ==> InSync()
    {
      mirror := mirror.(subtotal := value);
      invoice.header := invoice.header.(subtotal := value);
    }

    method SetDiscount(value: real)
      modifies this`mirror, invoice`header
      ensures mirror == old(mirror).(discount := value)
      ensures invoice.header == old(invoice.header).(discount := value)
      ensures old(InSync()) ==> InSync()
    {
      mirror := mirror.(discount := value);
      invoice.header := invoice.header.(discount := value);
    }

    method SetCurrency(value: Option<string>)
      modifies this`mirror, invoice`header
      ensures mirror == old(mirror).(currency := value)
      ensures invoice.header == old(invoice.header).(currency := value)
      ensures old(InSync()) ==> InSync()
    {
      mirror := mirror.(currency := value);
      invoice.header := invoice.header.(currency := value);
    }

    method SetExchangeRate(value: real)
      modifies this`mirror, invoice`header
      ensures mirror == old(mirror).(exchangeRate := value)
      ensures invoice.header == old(invoice.header).(exchangeRate := value)
      ensures old(InSync()) ==> InSync()
    {
      mirror := mirror.(exchangeRate := value);
      invoice.header := invoice.header.(exchangeRate := value);
    }

    method SetTotal(value: real)
      modifies this`mirror, invoice`header
      ensures mirror == old(mirror).(total := value)
      ensures invoice.header == old(invoice.header).(total := value)
      ensures old(InSync()) ==> InSync()
    {
      mirror := mirror.(total := value);
      invoice.header := invoice.header.(total := value);
    }

    method SetInvoiceTypeId(value: InvoiceType)
      modifies this`mirror, invoice`header
      ensures mirror == old(mirror).(invoiceTypeId := value)
      ensures invoice.header == old(invoice.header).(invoiceTypeId := value)
      ensures InvoiceTypeId() == value
      ensures old(InSync()) ==> InSync()
    {
      mirror := mirror.(invoiceTypeId := value);
      invoice.header := invoice.header.(invoiceTypeId := value);
    }

    method SetExportId(value: Option<string>)
      modifies this`mirror, invoice`header
      ensures mirror == old(mirror).(exportId := value)
      ensures invoice.header == old(invoice.header).(exportId := value)
      ensures old(InSync()) ==> InSync()
    {
      mirror := mirror.(exportId := value);
      invoice.header := invoice.header.(exportId := value);
    }

    method SetPaymentMethodId(value: Option<string>)
      modifies this`mirror, invoice`header
      ensures mirror == old(mirror).(paymentMethodId := value)
      ensures invoice.header == old(invoice.header).(paymentMethodId := value)
      ensures old(InSync()) ==> InSync()
    {
      mirror := mirror.(paymentMethodId := value);
      invoice.header := invoice.header.(paymentMethodId := value);
    }

    method SetExpeditionZipCode(value: Option<string>)
      modifies this`mirror, invoice`header
      ensures mirror == old(mirror).(expeditionZipCode := value)
      ensures invoice.header == old(invoice.header).(expeditionZipCode := value)
      ensures old(InSync()) ==> InSync()
    {
      mirror := mirror.(expeditionZipCode := value);
      invoice.header := invoice.header.(expeditionZipCode := value);
    }

    method SetPacConfirmation(value: Option<string>)
      modifies this`mirror, invoice`header
      ensures mirror == old(mirror).(pacConfirmation := value)
      ensures invoice.header == old(invoice.header).(pacConfirmation := value)
      ensures old(InSync()) ==> InSync()
    {
      mirror := mirror.(pacConfirmation := value);
      invoice.header := invoice.header.(pacConfirmation := value);
    }
  }
}
