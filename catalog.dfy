/** The catalogue enums the modelled code reads or writes, their EnumValue
    codes, and the invoice constants. A C# enum is an integer underneath:
    a field of enum type starts at 0 (its first member) and a cast can give it
    a value no member names, so the enums whose default or whose unnamed
    values matter are newtypes over the 32-bit range. */
module Catalog {
  import opened EnumValues

  newtype InvoiceType = x: int | -0x8000_0000 <= x < 0x8000_0000

  const Ingreso: InvoiceType := 0
  const Egreso: InvoiceType := 1
  const Traslado: InvoiceType := 2
  const Nomina: InvoiceType := 3
  const Pago: InvoiceType := 4

  /** The value a field of type InvoiceType holds before it is assigned. */
  const DefaultInvoiceType: InvoiceType := 0

  /** The EnumValue code of a named InvoiceType member. */
  function InvoiceTypeAttribute(t: InvoiceType): (a: EnumValueAttribute)
    requires Ingreso <= t <= Pago
    ensures a.Value() == ["I", "E", "T", "N", "P"][t as int]
  {
    if t == Ingreso then Create("I")
    else if t == Egreso then Create("E")
    else if t == Traslado then Create("T")
    else if t == Nomina then Create("N")
    else Create("P")
  }

  /** Distinct InvoiceType members carry attributes that are not Equal, so
      the code identifies the member. */
  lemma {:induction false} InvoiceTypeCodesDistinct(s: InvoiceType, t: InvoiceType)
    requires Ingreso <= s <= Pago && Ingreso <= t <= Pago
    ensures InvoiceTypeAttribute(s).Equals(AttributeObject(InvoiceTypeAttribute(t))) <==> s == t
  {
  }

  newtype InvoiceVersion = x: int | -0x8000_0000 <= x < 0x8000_0000

  const V40: InvoiceVersion := 0
  const V33: InvoiceVersion := 1

  datatype PaymentVersion = V10 | V20
  {
    /** `ToValue()`: the EnumValue code of the member. */
    function ToValue(): (code: string)
      ensures code == (if this == V10 then "1.0" else "2.0")
    {
      match this
      case V10 => Create("1.0").Value()
      case V20 => Create("2.0").Value()
    }
  }

  /** .NET's MidpointRounding. */
  datatype MidpointRounding = ToEven | AwayFromZero | ToZero | ToNegativeInfinity | ToPositiveInfinity

  /** The defaults of ComputeSettings. */
  const DefaultHeaderDecimals: int := 2
  const DefaultItemsDecimals: int := 6
  const DefaultRoundingStrategy: MidpointRounding := AwayFromZero

  /** The standard payment item's codes. Their values are declared in a
      constants file that is not part of this model, so they are left
      unspecified here. */
  const SatPaymentItemId: string
  const SatPaymentUnitOfMeasureId: string
  const SatPaymentItemDescriptionId: string
  const SatPaymentObjectId: string

  /** The export code "01" ("no aplica") written by the payment service. */
  const ExportNotApplicable: string := "01"

  /** The relationship type AddRelatedCfdi uses when none is given. */
  const DefaultRelationshipTypeId: string := "01"
}
