# CFDI 4.0 invoice and Pagos 2.0 builders, modelled in Dafny

This project models the in-memory builders of the `invoicing` library (C#).
The library assembles Mexican CFDI 4.0 electronic invoices and the "Pagos
2.0" payment complement. The model covers these parts:

- **The invoice service** (`InvoiceService`):
  - it appends line items;
  - it replaces the issuer, the recipient and the global information;
  - it creates the related-CFDI node (CfdiRelacionados) on first use, then appends to it;
  - it keeps its own copy of every header property next to the document's copy;
  - it chooses serializer settings by invoice type;
  - it checks the signing preconditions in a fixed order.
- **The payment service** (`PaymentService`):
  - its constructor seeds the standard payment line item and the Pago header;
  - it creates the payment complement once, on the first `AddPayment*` call, with a snapshot of the document's decimal and rounding settings;
  - it appends payments.
- **The payment, related-document and line-item builders** (`Payment.AddInvoice`,
  `PaymentInvoice.Add*Tax*`, `InvoiceItem.Add*Tax`). Each creates a list
  the first time they need it (`list ??= new List<T>()`) and then append to it.
  The "self-calculating" tax lines take `Base = PaymentAmount` and
  `Amount = PaymentAmount * rate`.
- **The serializer**, meaning:
  - the argument checks in front of the XML library calls;
  - the recursive namespace-stripping transform `RemoveAllNamespaces`;
  - the pass `clenXmlDocument`, which makes un-namespaced descendants inherit their parent's namespace.
- **`EnumValueAttribute`**: the string code attached to each catalogue enum
  member, which is compared by value.

Each source file keeps its own form:

- **Objects whose fields the source updates in place are classes.** These are the document, the two services, the line item, the payment, the related document and the complement. Their methods carry field-granular `modifies` clauses, so "nothing else changes" is part of every contract. The exception is the totals engine Compute: it is not modelled, so it may change the document and its items, and the contracts of its callers say what they know only for the runs without it.
- **Value records are datatypes.** These are the tax lines, the tax wrappers, the parties, the header and the XML tree.
- **The enum codes and the tree transform are functions with lemmas.**
- **`clenXmlDocument` is a loop.** It runs over an array-flattened document and is proved against a specification function.

Modelling choices:

- C# `decimal` is `real`.
- A nullable string or list is an `Option`.
- A lazily created list is `Option<seq<T>>`, driven by `LazyLists.Add` and `LazyLists.AddRange`.
- An exception is the `Err` or `Fail` case of a result, carrying an `Error` value that names the exception type and its arguments.
- A C# enum whose default value (0) or whose unnamed values matter is a newtype over the 32-bit range. The invoice type switch therefore has a real `default:` branch.
- `PaymentService` derives from `InvoiceService` in the source. Here it holds an `InvoiceService` and works on that service's document.
- External code is passed in as function values. This covers:
  - the clock reading (`now`);
  - the XML writer and parser;
  - the file-existence test;
  - the credential's XSLT original string and signature;
  - the static `CredentialSettings.OriginalStringPath`.

The service keeps its own `mirror` header and the document keeps `header`.
The predicate `InvoiceService.InSync()` relates the two copies, and one of
the findings below comes from the two copies drifting apart.

## Model

| member | source | states |
|---|---|---|
| EnumValues.Create | src/Invoicing/Common/Attributes/EnumValueAttribute.cs:25-33 | `Value` of an attribute built from a string is exactly that string |
| EnumValues.CreateEmpty | src/Invoicing/Common/Attributes/EnumValueAttribute.cs:15-19 | the parameterless attribute (and so `Default`) has Value "" |
| EnumValues.EnumValueAttribute.Value | src/Invoicing/Common/Attributes/EnumValueAttribute.cs:33 | the Value is the stored description, and it determines the attribute: the attribute built from its Value is the same attribute |
| EnumValues.EnumValueAttribute.Equals | src/Invoicing/Common/Attributes/EnumValueAttribute.cs:42-43 | true iff the other object is an attribute whose Value equals this one's; null and other types are never equal |
| EnumValues.EnumValueAttribute.GetHashCode | src/Invoicing/Common/Attributes/EnumValueAttribute.cs:45 | the hash is the string hash of the Value and of nothing else |
| EnumValues.EnumValueAttribute.IsDefaultAttribute | src/Invoicing/Common/Attributes/EnumValueAttribute.cs:47 | true iff the Value is "" |
| EnumValues.EqualsReflexive | src/Invoicing/Common/Attributes/EnumValueAttribute.cs:42-43 | every attribute equals itself |
| EnumValues.EqualsSymmetric | src/Invoicing/Common/Attributes/EnumValueAttribute.cs:42-43 | a equals b iff b equals a |
| EnumValues.EqualsTransitive | src/Invoicing/Common/Attributes/EnumValueAttribute.cs:42-43 | equality of attributes is transitive |
| EnumValues.EqualsOnlyAttributes | src/Invoicing/Common/Attributes/EnumValueAttribute.cs:42-43 | null or an object of another type is never equal to an attribute |
| EnumValues.EqualAttributesHashAlike | src/Invoicing/Common/Attributes/EnumValueAttribute.cs:42-45 | equal attributes have equal hash codes, whatever the string hash is |
| EnumValues.EqualsIffSameCode | src/Invoicing/Common/Attributes/EnumValueAttribute.cs:25-43 | two attributes built from codes x and y are equal iff x == y |
| Catalog.InvoiceTypeAttribute | src/Invoicing/Common/Enums/InvoiceType.cs:9-17 | Ingreso, Egreso, Traslado, Nomina and Pago carry the codes "I", "E", "T", "N" and "P", in that order |
| Catalog.InvoiceTypeCodesDistinct | src/Invoicing/Common/Enums/InvoiceType.cs:6-18 | the codes I, E, T, N, P identify the five invoice types: two members' attributes are equal iff the members are the same |
| Catalog.PaymentVersion.ToValue | src/Invoicing/Common/Enums/PaymentVersion.cs:6-10 | V10 gives "1.0" and V20 gives "2.0" |
| LazyLists.AddRange | src/Invoicing/Complements/Payments/PaymentInvoice.cs:103-108 | after `??=` and AddRange the list exists, keeps its old entries as a prefix and ends with the given entries, in order |
| LazyLists.Add | src/Invoicing/Complements/Payments/Payment.cs:129-133 | after `??=` and Add the list exists, is one longer, keeps its old entries and ends with the new one |
| LazyLists.AddEachIsAddRange | src/Invoicing/Complements/Payments/Payment.cs:131-132 | n single Adds equal one AddRange of the same entries, except that zero Adds leave a missing list missing |
| LazyLists.AddEachFromNothing | src/Invoicing/Complements/Payments/Payment.cs:131-132 | n Adds onto a missing list leave exactly those n entries in call order; with none the list stays absent |
| TaxLists.AddTransferred | src/Invoicing/Base/InvoiceItem.cs:86-116 | the transferred list is created if needed and extended; the withholding list is exactly as before |
| TaxLists.AddWithholding | src/Invoicing/Base/InvoiceItem.cs:122-152 | the withholding list is created if needed and extended; the transferred list is exactly as before |
| TaxLists.AddsCommute | src/Invoicing/Complements/Payments/PaymentInvoice.cs:92-231 | a transferred add and a withholding add give the same wrapper in either order |
| InvoiceItems.InvoiceItem.constructor | src/Invoicing/Base/InvoiceItem.cs:12-77 | a new item has every string property and the tax node null and every decimal 0 |
| InvoiceItems.InvoiceItem.AddTransferredTax | src/Invoicing/Base/InvoiceItem.cs:86-91 | the wrapper exists afterwards; the given tax is appended to the transferred list; the withholding list and every other item property are unchanged |
| InvoiceItems.InvoiceItem.AddTransferredTaxManual | src/Invoicing/Base/InvoiceItem.cs:101-116 | appends a transferred tax carrying the five values as given (amount not recomputed); nothing else changes |
| InvoiceItems.InvoiceItem.AddWithholdingTax | src/Invoicing/Base/InvoiceItem.cs:122-127 | appends the given tax to the withholding list; the transferred list and the other properties are unchanged |
| InvoiceItems.InvoiceItem.AddWithholdingTaxManual | src/Invoicing/Base/InvoiceItem.cs:137-152 | appends the five given values to the withholding list, not the transferred one; nothing else changes |
| PaymentInvoices.SelfCalculatedTransferredTax | src/Invoicing/Complements/Payments/PaymentInvoice.cs:148-155 | base is the amount paid and amount is base times rate, unrounded |
| PaymentInvoices.SelfCalculatedWithholdingTax | src/Invoicing/Complements/Payments/PaymentInvoice.cs:221-228 | the same formula, with both "Specified" flags true |
| PaymentInvoices.SelfCalculatedDefaultRateIsZero | src/Invoicing/Complements/Payments/PaymentInvoice.cs:143-158 | with the default rate 0 the self-calculated amount is 0 whatever was paid |
| PaymentInvoices.SelfCalculatedDependsOnlyOnAmountPaid | src/Invoicing/Complements/Payments/PaymentInvoice.cs:143-158 | two self-calculated lines coincide iff their paid amounts do. The balances play no part because AddTransferredTaxSelfCalculated builds its line from PaymentAmount alone |
| PaymentInvoices.PaymentInvoice.constructor | src/Invoicing/Complements/Payments/PaymentInvoice.cs:16-83 | a new related document has every string property and the tax node null, every decimal 0 and partiality number 0 |
| PaymentInvoices.PaymentInvoice.AddTransferredTax | src/Invoicing/Complements/Payments/PaymentInvoice.cs:92-97 | wrapper exists; tax appended to the transferred list; withholding list and all scalar fields unchanged |
| PaymentInvoices.PaymentInvoice.AddTransferredTaxes | src/Invoicing/Complements/Payments/PaymentInvoice.cs:103-108 | the whole list is appended at the end in order; the withholding list is unchanged |
| PaymentInvoices.PaymentInvoice.AddTransferredTaxManual | src/Invoicing/Complements/Payments/PaymentInvoice.cs:119-134 | appends a line carrying the five given values; the withholding list is unchanged |
| PaymentInvoices.PaymentInvoice.AddTransferredTaxSelfCalculated | src/Invoicing/Complements/Payments/PaymentInvoice.cs:143-158 | appends the self-calculated line for the document's PaymentAmount (rate 0 by default); the withholding list is unchanged |
| PaymentInvoices.PaymentInvoice.AddWithholdingTax | src/Invoicing/Complements/Payments/PaymentInvoice.cs:164-169 | tax appended to the withholding list; the transferred list is unchanged |
| PaymentInvoices.PaymentInvoice.AddWithholdingTaxes | src/Invoicing/Complements/Payments/PaymentInvoice.cs:175-180 | the whole list is appended at the end in order; the transferred list is unchanged |
| PaymentInvoices.PaymentInvoice.AddWithholdingTaxManual | src/Invoicing/Complements/Payments/PaymentInvoice.cs:191-207 | appends the five given values with both flags true; the transferred list is unchanged |
| PaymentInvoices.PaymentInvoice.AddWithholdingTaxSelfCalculated | src/Invoicing/Complements/Payments/PaymentInvoice.cs:216-231 | appends the self-calculated withholding line for PaymentAmount; the transferred list is unchanged |
| Payments.Payment.constructor | src/Invoicing/Complements/Payments/Payment.cs:12-121 | a new payment has every string property, the related-document list and the tax node null and every decimal 0 |
| Payments.Payment.Fields | src/Invoicing/Servicies/PaymentService.cs:141-158 | a payment carrying exactly the fifteen given values, with no related documents and no tax node |
| Payments.Payment.AddInvoice | src/Invoicing/Complements/Payments/Payment.cs:129-133 | the related-document list exists, grows by the given object and keeps its earlier entries; no scalar field and not the tax node changes |
| Payments.Payment.AddInvoiceFields | src/Invoicing/Complements/Payments/Payment.cs:149-179 | a new related document carrying the ten values verbatim and no tax node is appended; earlier entries and all other payment fields are unchanged |
| Invoices.SettingsFor | src/Invoicing/Servicies/InvoiceService.cs:123-142 | Ingreso and Egreso select the invoice settings, Traslado the waybill settings, Nomina the payroll settings and Pago the payment settings; each as an iff. Any other value is refused with NotSupported |
| Invoices.WithRelated | src/Invoicing/Servicies/InvoiceService.cs:267-272 | the list gains the given entry at the end and the relationship type is left as it was |
| Invoices.WithRelatedOfType | src/Invoicing/Servicies/InvoiceService.cs:286-297 | the list gains an entry carrying the uuid and the node's single type becomes the given one |
| Invoices.LastRelationshipTypeWins | src/Invoicing/Servicies/InvoiceService.cs:293-296 | after two typed adds both uuids are present in call order under the second type only |
| Invoices.UntypedAddKeepsType | src/Invoicing/Servicies/InvoiceService.cs:267-297 | a later untyped add keeps the type set by an earlier typed add |
| Invoices.RecipientFromFields | src/Invoicing/Servicies/InvoiceService.cs:216-235 | the field overload's recipient as written: Tin is `foreignTin` and the other six fields are the arguments |
| Invoices.IntendedRecipientFromFields | src/Invoicing/Servicies/InvoiceService.cs:216-235 | the recipient with Tin = `tin` and the same other fields |
| Invoices.RecipientKeepsTinOnlyWhenRepeated | src/Invoicing/Servicies/InvoiceService.cs:226 | as written the RFC survives iff `foreignTin` repeats it; a domestic recipient gets no RFC |
| Invoices.RecipientBuildersAgreeIff | src/Invoicing/Servicies/InvoiceService.cs:224-233 | the as-written and intended recipients coincide iff `foreignTin == tin` |
| Invoices.Invoice.constructor | src/Invoicing/Common/Extensions/ComputeSettings.cs:10-22 | a new document has the default header, no schema location, parties, global information or related CFDIs, an empty item list, 2 header decimals, 6 item decimals and AwayFromZero rounding |
| Invoices.InvoiceService.constructor | src/Invoicing/Servicies/InvoiceService.cs:19-22 | a fresh document whose header is all defaults (type Ingreso), whose item list is empty and which has no parties; both header copies agree |
| Invoices.InvoiceService.InvoiceTypeId | src/Invoicing/Servicies/InvoiceService.cs:522-524 | the getter returns the type held in the service's own header copy, not the document's |
| Invoices.InvoiceService.AddInvoiceItemFields | src/Invoicing/Servicies/InvoiceService.cs:38-66 | exactly one fresh item is appended and earlier items are kept in order. ItemId is `satItemId`, and differs from the `itemId` argument whenever the two differ. Amount is the caller's value |
| Invoices.InvoiceService.AddInvoiceItemFieldsIntended | src/Invoicing/Servicies/InvoiceService.cs:38-66 | the same with ItemId = `itemId` |
| Invoices.InvoiceService.AddInvoiceItem | src/Invoicing/Servicies/InvoiceService.cs:72-76 | the given item object is appended after the existing ones |
| Invoices.InvoiceService.AddInvoiceItems | src/Invoicing/Servicies/InvoiceService.cs:83-90 | fails iff the list is empty, with ArgumentNull("invoiceItems"), and the items are then unchanged; otherwise all are appended in order |
| Invoices.InvoiceService.AddIssuer | src/Invoicing/Servicies/InvoiceService.cs:176-179 | the issuer is replaced wholesale; no other part of the document changes |
| Invoices.InvoiceService.AddIssuerFields | src/Invoicing/Servicies/InvoiceService.cs:188-199 | the issuer becomes one built from the four values, operation number absent by default; nothing of the old issuer survives |
| Invoices.InvoiceService.AddRecipient | src/Invoicing/Servicies/InvoiceService.cs:201-204 | the recipient is replaced wholesale |
| Invoices.InvoiceService.AddRecipientFields | src/Invoicing/Servicies/InvoiceService.cs:216-235 | the recipient becomes the as-written builder's, whose Tin is `foreignTin` |
| Invoices.InvoiceService.AddRecipientFieldsIntended | src/Invoicing/Servicies/InvoiceService.cs:216-235 | the recipient becomes the intended builder's, whose Tin is `tin` |
| Invoices.InvoiceService.AddGlobalInformation | src/Invoicing/Servicies/InvoiceService.cs:241-244 | the global information is replaced wholesale |
| Invoices.InvoiceService.AddGlobalInformationFields | src/Invoicing/Servicies/InvoiceService.cs:252-261 | the global information becomes the three given values |
| Invoices.InvoiceService.AddRelatedCfdi | src/Invoicing/Servicies/InvoiceService.cs:267-272 | node and list exist afterwards; one entry appended; relationship type unchanged |
| Invoices.InvoiceService.AddRelatedCfdiUuid | src/Invoicing/Servicies/InvoiceService.cs:286-297 | node and list exist; an entry with the uuid is appended; the type becomes the given one, "01" by default |
| Invoices.InvoiceService.SerializeToString | src/Invoicing/Servicies/InvoiceService.cs:121-155 | settings are chosen from the service's own InvoiceTypeId. The document's schema location becomes theirs, and the result is the rendering under those settings of the whole document (header, schema location, parties, global information, related CFDIs and every item) as it then stands. An unnamed type gives NotSupported and changes nothing |
| Invoices.InvoiceService.Compute | src/Invoicing/Servicies/InvoiceService.cs:167-170 | runs the document's engine once; only the document and its items may change |
| Invoices.InvoiceService.ComputeOriginalString | src/Invoicing/Servicies/InvoiceService.cs:333-351 | a missing credential is refused first. A missing XSLT path is refused second. On both refusals nothing runs or changes. Otherwise Compute runs iff `compute` is true (its default). The schema location becomes that of the chosen settings, and the result is the original string of the rendering of the whole document as it then stands. Without Compute nothing but the schema location changes, so the string is that of the caller's document with its new schema location |
| Invoices.InvoiceService.SignInvoice | src/Invoicing/Servicies/InvoiceService.cs:307-323 | the same checks in the same order, with nothing changed on refusal; Compute runs iff `compute` is true, which it is by default. It succeeds iff both checks pass and the type is supported; an unsupported type fails with NotSupported. On success the schema location is that of the chosen settings, SignatureValue is the Base64 signature of the returned string, and that string is the original string of the rendering of the final document with some earlier SignatureValue. Without Compute that earlier value is the caller's: the signed text renders the caller's document with its new schema location, the header differs from the caller's only in SignatureValue, nothing else changes, and a failure changes nothing. The service's own header copy is untouched |
| Invoices.InvoiceService.SetCredential | src/Invoicing/Servicies/InvoiceService.cs:579 | the credential property holds the given value |
| Invoices.InvoiceService.SetInvoiceVersion | src/Invoicing/Servicies/InvoiceService.cs:381-385 | the value goes into both copies, no other property changes, agreement of the copies is kept |
| Invoices.InvoiceService.SetInvoiceSerie | src/Invoicing/Servicies/InvoiceService.cs:392-396 | as SetInvoiceVersion, for Serie |
| Invoices.InvoiceService.SetInvoiceNumber | src/Invoicing/Servicies/InvoiceService.cs:402-406 | as SetInvoiceVersion, for Folio |
| Invoices.InvoiceService.SetInvoiceDate | src/Invoicing/Servicies/InvoiceService.cs:413-417 | as SetInvoiceVersion, for Fecha |
| Invoices.InvoiceService.SetSignatureValue | src/Invoicing/Servicies/InvoiceService.cs:423-427 | as SetInvoiceVersion, for Sello |
| Invoices.InvoiceService.SetPaymentForm | src/Invoicing/Servicies/InvoiceService.cs:434-438 | as SetInvoiceVersion, for FormaPago |
| Invoices.InvoiceService.SetCertificateNumber | src/Invoicing/Servicies/InvoiceService.cs:444-448 | as SetInvoiceVersion, for NoCertificado |
| Invoices.InvoiceService.SetCertificateB64 | src/Invoicing/Servicies/InvoiceService.cs:453-457 | as SetInvoiceVersion, for Certificado |
| Invoices.InvoiceService.SetPaymentConditions | src/Invoicing/Servicies/InvoiceService.cs:463-467 | as SetInvoiceVersion, for CondicionesDePago |
| Invoices.InvoiceService.SetSubtotal | src/Invoicing/Servicies/InvoiceService.cs:473-477 | as SetInvoiceVersion, for SubTotal |
| Invoices.InvoiceService.SetDiscount | src/Invoicing/Servicies/InvoiceService.cs:482-486 | as SetInvoiceVersion, for Descuento |
| Invoices.InvoiceService.SetCurrency | src/Invoicing/Servicies/InvoiceService.cs:492-496 | as SetInvoiceVersion, for Moneda |
| Invoices.InvoiceService.SetExchangeRate | src/Invoicing/Servicies/InvoiceService.cs:502-506 | as SetInvoiceVersion, for TipoCambio |
| Invoices.InvoiceService.SetTotal | src/Invoicing/Servicies/InvoiceService.cs:512-516 | as SetInvoiceVersion, for Total |
| Invoices.InvoiceService.SetInvoiceTypeId | src/Invoicing/Servicies/InvoiceService.cs:522-526 | as SetInvoiceVersion, for TipoDeComprobante; afterwards the getter returns the value set |
| Invoices.InvoiceService.SetExportId | src/Invoicing/Servicies/InvoiceService.cs:533-537 | as SetInvoiceVersion, for Exportacion |
| Invoices.InvoiceService.SetPaymentMethodId | src/Invoicing/Servicies/InvoiceService.cs:544-548 | as SetInvoiceVersion, for MetodoPago |
| Invoices.InvoiceService.SetExpeditionZipCode | src/Invoicing/Servicies/InvoiceService.cs:555-559 | as SetInvoiceVersion, for LugarExpedicion |
| Invoices.InvoiceService.SetPacConfirmation | src/Invoicing/Servicies/InvoiceService.cs:566-570 | as SetInvoiceVersion, for Confirmacion |
| PaymentServices.PaymentComplement.constructor | src/Invoicing/Servicies/PaymentService.cs:69-77 | a complement with the given decimal and rounding settings, a new zero summary, version "2.0" and no payment list |
| PaymentServices.StandardPaymentHeader | src/Invoicing/Servicies/PaymentService.cs:55-59 | type Pago, version 4.0, the given date and export "01"; every other header property as before |
| PaymentServices.StandardFieldsLeaveMirrorBehind | src/Invoicing/Servicies/PaymentService.cs:55-59 | the standard header differs from the default header, which still says Ingreso and selects the invoice settings, while the standard header selects the payment settings |
| PaymentServices.NewPaymentDocument | src/Invoicing/Servicies/PaymentService.cs:20-60 | the document of a new payment receipt is typed Pago, holds exactly the standard item and has no parties |
| PaymentServices.PaymentService.constructor | src/Invoicing/Servicies/PaymentService.cs:20-60 | exactly one item, the standard payment item (quantity 1, all amounts 0, no ItemId, Unidad or taxes), and no parties, global information, related CFDIs or schema location. The document header is the standard one, while the service copy keeps its defaults, so the copies disagree and the InvoiceTypeId getter returns Ingreso |
| PaymentServices.PaymentService.Intended | src/Invoicing/Servicies/PaymentService.cs:20-60 | the same document, with the header written through the setters: the copies agree and the getter returns Pago |
| PaymentServices.PaymentService.SetStandardFields | src/Invoicing/Servicies/PaymentService.cs:55-59 | version, date, type and export code written through the setters give both header copies the standard payment header |
| PaymentServices.PaymentService.AddStandardItem | src/Invoicing/Servicies/PaymentService.cs:38-52 | one fresh standard payment item is appended after the existing items |
| PaymentServices.PaymentService.ConfigureStandardFields | src/Invoicing/Servicies/PaymentService.cs:32-60 | one more standard item. The four header values are written into the document only; the service copy is not in the frame |
| PaymentServices.PaymentService.EnsureComplement | src/Invoicing/Servicies/PaymentService.cs:69-77 | the first call creates the complement from the document's settings at that moment; later calls keep the existing one |
| PaymentServices.PaymentService.AddPayment | src/Invoicing/Servicies/PaymentService.cs:66-80 | the complement exists and was created only if absent. Its settings snapshot is never refreshed. The payment list gains exactly this payment at the end, and the payment object is not changed |
| PaymentServices.PaymentService.AddPayments | src/Invoicing/Servicies/PaymentService.cs:86-100 | the same creation rules. All given payments are appended in order, with no empty-list check: an empty list still creates the complement and its list |
| PaymentServices.PaymentService.AddPaymentFields | src/Invoicing/Servicies/PaymentService.cs:121-162 | the same creation rules. A fresh payment carrying the fifteen arguments, with no related documents and no tax node, is appended |
| PaymentServices.SerializeNewPaymentService | src/Invoicing/Servicies/PaymentService.cs:20-60 | a new payment service serialized at once is typed Pago in the document, yet its whole document (standard header, standard item, invoice schema location) is rendered with the invoice settings |
| PaymentServices.SerializeNewPaymentServiceIntended | src/Invoicing/Servicies/PaymentService.cs:34 | built through the setters, the same document is rendered with the payment settings and their schema location |
| Serializing.Deserialize | src/Invoicing/Common/Serializing/Serializer.cs:23-33 | null or empty XML fails with ArgumentException("xml"); any other text gives the parser's result, its failure included, so it succeeds iff the text is non-empty and parses |
| Serializing.DeserializeFromFile | src/Invoicing/Common/Serializing/Serializer.cs:42-54 | as written: an empty name throws ArgumentException with its two strings swapped, then a missing file throws FileNotFound(name); an existing file gives the reader's result, its failure included |
| Serializing.DeserializeFromFileIntended | src/Invoicing/Common/Serializing/Serializer.cs:42-54 | the same checks, with the parameter name "filename"; an existing file gives the reader's result |
| Serializing.DeserializeFromFileNamesWrongParameter | src/Invoicing/Common/Serializing/Serializer.cs:45 | as written the exception for an empty name does not name `filename`; on every other input both versions agree |
| Serializing.Serialize | src/Invoicing/Common/Serializing/Serializer.cs:64-81 | a null source fails with ArgumentNull("source"); any other source gives the writer's result, its failure included, so it succeeds iff the source is present and the writer succeeds |
| Serializing.RemoveAllNamespaces | src/Invoicing/Common/Serializing/Serializer.cs:111-126 | the result is named by the local name alone and has as many children as the input. A leaf keeps its text and attributes; a non-leaf drops both |
| Serializing.RemoveAllNamespacesClearsNamespaces | src/Invoicing/Common/Serializing/Serializer.cs:111-126 | no element of the result has a namespace |
| Serializing.RemoveAllNamespacesKeepsOutline | src/Invoicing/Common/Serializing/Serializer.cs:111-126 | at every position of the tree the result keeps the local name and the child count |
| Serializing.SameOutlineSameSize | src/Invoicing/Common/Serializing/Serializer.cs:124-125 | trees with the same outline have the same number of elements |
| Serializing.SameOutlineSameSizeAll | src/Invoicing/Common/Serializing/Serializer.cs:124-125 | the same for sequences of children |
| Serializing.RemoveAllNamespacesKeepsSize | src/Invoicing/Common/Serializing/Serializer.cs:111-126 | the result has as many elements as the input |
| Serializing.RemoveAllNamespacesIdempotent | src/Invoicing/Common/Serializing/Serializer.cs:111-126 | applying the transform twice equals applying it once |
| Serializing.RemoveXmlns | src/Invoicing/Common/Serializing/Serializer.cs:140 | exactly the attributes not named `xmlns` remain, and a list without one is returned unchanged |
| Serializing.RemoveXmlnsAppend | src/Invoicing/Common/Serializing/Serializer.cs:140 | removal acts on each part of a list separately, so the remaining attributes keep their relative order |
| Serializing.RemoveXmlnsIdempotent | src/Invoicing/Common/Serializing/Serializer.cs:140 | removing `xmlns` twice equals removing it once |
| Serializing.CleanedNames | src/Invoicing/Common/Serializing/Serializer.cs:132-143 | the root and every element that had a namespace keep their names; local names never change |
| Serializing.CleanedAttributes | src/Invoicing/Common/Serializing/Serializer.cs:132-143 | only descendants without a namespace lose attributes |
| Serializing.RootNamespaceReachesAll | src/Invoicing/Common/Serializing/Serializer.cs:142 | when no descendant has a namespace, every element ends with the root's namespace |
| Serializing.CleanedNamespaceIdempotent | src/Invoicing/Common/Serializing/Serializer.cs:142 | a node's inherited namespace is the same when computed on the cleaned names |
| Serializing.CleaningIsIdempotent | src/Invoicing/Common/Serializing/Serializer.cs:129-146 | running the pass on its own output changes no name or attribute |
| Serializing.CleanXmlDocument | src/Invoicing/Common/Serializing/Serializer.cs:129-146 | without a root it fails with NullReference. It visits parents before children. Afterwards the names and attribute lists are exactly the cleaned ones of the original document |

## Left out

- Invoices.InvoiceService.Compute: the tax and totals engine (`Invoice.Compute`) and its rounding are not among the source files, so Compute only records that it ran and may change the document and its items arbitrarily.
- The XML library: the bodies of XmlSerializer, XmlReader and XmlWriter are function parameters (`XmlWriter.render`, `parse`, `read`, `write`). So is the text cleaning `xml.Clean()`. `parse`, `read` and `write` return a result, so their exceptions reach the caller, but which exceptions they throw is not enumerated.
- Invoices.InvoiceService.SerializeToString: `XmlWriter.render` always returns text, so an exception thrown while the library writes the document is not modelled. The rendered document value holds everything this model keeps of the document, which leaves out the tax summary and the complements (see below).
- Invoices.InvoiceService.ComputeOriginalString and Invoices.InvoiceService.SignInvoice: the same two gaps, through SerializeToString.
- PaymentServices.SerializeNewPaymentService and PaymentServices.SerializeNewPaymentServiceIntended: the same two gaps, through SerializeToString.
- SerializerHelper's namespace and schema-location tables and its process-wide static state, including the `ConfigureSettingsFor*` methods: the model has only a settings tag and an abstract schema location per tag.
- `SerializeToFile` (both the service's and the serializer's), `SerializeElement` and `DeserializeFromXmlElement` are I/O wrappers around the library and are not modelled.
- The string overload of `RemoveAllNamespaces` is parsing plus `ToString`, which is library code. Only the tree overload is modelled.
- Mixed content: an element's text is one string, and the text of a non-leaf is not modelled beyond being dropped.
- Credential internals: `SignData`, `ToBase64String` and `GetOriginalStringByXmlString` are abstract functions inside `Credential`, and `CredentialSettings.OriginalStringPath` is a parameter.
- The clock and its formatting (`DateTime.Now.ToSatFormat()`) are the `now` parameter.
- Encoding, XmlReaderSettings and XmlWriterSettings arguments have no effect on the guards and are not modelled.
- A `null` list argument (`AddInvoiceItems(null)`, `AddPayments(null)`, `AddTransferredTaxes(null)` and so on) throws NullReferenceException or ArgumentNullException in .NET. Sequences here are never null, so that case is absent.
- The tax records, tax wrappers, parties and related-CFDI entries are values, not objects: aliasing between them (one record added to two lists and later mutated) is not captured.
- `decimal` is an exact real: its 28-digit precision and overflow are not modelled, so the self-calculated amount is the exact product.
- Invoices.InvoiceService.AddGlobalInformationFields: `year` and `PaymentInvoice.partialityNumber` are unbounded integers; the 32-bit range of C# `int` is not enforced.
- The values of `SatPaymentItemId`, `SatPaymentUnitOfMeasureId`, `SatPaymentItemDescriptionId` and `SatPaymentObjectId` are declared in a constants file that is not part of this model, so they are left unspecified.
- The document's tax summary (InvoiceTaxes) and its complement list are not modelled. The payment complement is kept by the payment service, as in the source, which never attaches it to the document in the shown code.
- The `Invoice` document class (with its Compute) is not part of this model. Its defaults are taken from ComputeSettings (2 header decimals, 6 item decimals, AwayFromZero) and from the C# defaults of its properties.
- The service getters other than `InvoiceTypeId` are the `mirror` field itself. In the as-written code SignInvoice writes `SignatureValue` into the document only, and the model states that the service copy stays as it was.
- EnumValues.EnumValueAttribute.GetHashCode: a null Value (hash 0) cannot arise here because strings are never null; the .NET string hash is a parameter.
- Naming mismatches between files (`TransferredTaxes` against `InvoiceTransferredTaxes`, `Amount` against `Ammount`, decimal-setting fields missing from `PaymentComplement`) are resolved to one field each.
- Payments.Payment.AddInvoiceFields and PaymentServices.PaymentService.AddPaymentFields: these methods return the object they create so that the contract can name it. In the source they return nothing.
- Concurrency: none in the source.

## Findings

| source | as written | input that shows it | evidently intended | confidence | as-written member | corrected member |
|---|---|---|---|---|---|---|
| src/Invoicing/Servicies/InvoiceService.cs:226 | the recipient field overload stores `foreignTin` in Tin | `AddRecipient("XAXX010101000", "Name", "06600", "601", "G03")`: the recipient has no RFC | Tin = `tin` | high, not executed | Invoices.RecipientKeepsTinOnlyWhenRepeated | Invoices.InvoiceService.AddRecipientFieldsIntended |
| src/Invoicing/Servicies/InvoiceService.cs:53 | the item field overload stores `satItemId` in ItemId and ignores `itemId` | `AddInvoiceItem("01010101", "SKU-1", ...)`: NoIdentificacion is "01010101" | ItemId = `itemId` | high, not executed | Invoices.InvoiceService.AddInvoiceItemFields | Invoices.InvoiceService.AddInvoiceItemFieldsIntended |
| src/Invoicing/Servicies/PaymentService.cs:56-59 | the payment receipt's header is written into the document, not through the service's setters. The InvoiceTypeId getter still returns Ingreso, so SerializeToString picks the invoice settings | `new PaymentService().SerializeToString()`: a document of type Pago gets the invoice settings | the payment settings (the constructor itself configures them at line 34) | medium, not executed | PaymentServices.SerializeNewPaymentService | PaymentServices.SerializeNewPaymentServiceIntended |
| src/Invoicing/Common/Serializing/Serializer.cs:45 | `new ArgumentException("filename", "XML filename cannot be null or empty")` passes the message as the parameter name and the reverse | `DeserializeFromFile("")`: ParamName is the sentence | parameter name "filename", as in Deserialize at line 26 | high, not executed | Serializing.DeserializeFromFileNamesWrongParameter | Serializing.DeserializeFromFileIntended |
