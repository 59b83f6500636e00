/** EnumValueAttribute: the string code attached to each catalogue enum member
    (for instance "P" on InvoiceType.Pago). Two attributes are equal when
    their codes are equal. */
module EnumValues {

  /** What `Equals(object? obj)` may be handed: null, an EnumValueAttribute,
      or any other object. */
  datatype AnyObject = NullObject | AttributeObject(attribute: EnumValueAttribute) | OtherObject

  datatype EnumValueAttribute = EnumValueAttribute(descriptionValue: string)
  {
    /** The code stored in the attribute; it determines the attribute. */
    function Value(): (v: string)
      ensures EnumValueAttribute(v) == this
    {
      descriptionValue
    }

    /** True iff `obj` is an EnumValueAttribute whose Value equals this one's. */
    function Equals(obj: AnyObject): (r: bool)
      ensures r <==> obj.AttributeObject? && obj.attribute.Value() == Value()
    {
      match obj
      case AttributeObject(other) => other.Value() == Value()
      case _ => false
    }

    /** The hash of the Value; `stringHash` is .NET's string hash, which this
        model does not fix. */
    function GetHashCode(stringHash: string -> int): (h: int)
      ensures h == stringHash(Value())
    {
      stringHash(Value())
    }

    /** True iff this attribute equals Default, that is, its Value is "". */
    function IsDefaultAttribute(): (r: bool)
      ensures r <==> Value() == ""
    {
      Equals(AttributeObject(Default))
    }
  }

  /** `new EnumValueAttribute(value)`. */
  function Create(value: string): (a: EnumValueAttribute)
    ensures a.Value() == value
  {
    EnumValueAttribute(value)
  }

  /** `new EnumValueAttribute()`, which chains to the constructor with "". */
  function CreateEmpty(): (a: EnumValueAttribute)
    ensures a.Value() == ""
  {
    Create("")
  }

  /** The static `Default` field. */
  const Default: EnumValueAttribute := CreateEmpty()

  lemma EqualsReflexive(a: EnumValueAttribute)
    ensures a.Equals(AttributeObject(a))
  {
  }

  lemma EqualsSymmetric(a: EnumValueAttribute, b: EnumValueAttribute)
    ensures a.Equals(AttributeObject(b)) <==> b.Equals(AttributeObject(a))
  {
  }

  lemma EqualsTransitive(a: EnumValueAttribute, b: EnumValueAttribute, c: EnumValueAttribute)
    requires a.Equals(AttributeObject(b)) && b.Equals(AttributeObject(c))
    ensures a.Equals(AttributeObject(c))
  {
  }

  /** Null and objects of other types are never equal to an attribute. */
  lemma EqualsOnlyAttributes(a: EnumValueAttribute, obj: AnyObject)
    requires !obj.AttributeObject?
    ensures !a.Equals(obj)
  {
  }

  /** Equal attributes have equal hash codes, whatever the string hash. */
  lemma EqualAttributesHashAlike(a: EnumValueAttribute, b: EnumValueAttribute, stringHash: string -> int)
    requires a.Equals(AttributeObject(b))
    ensures a.GetHashCode(stringHash) == b.GetHashCode(stringHash)
  {
  }

  /** Equality by value: attributes are equal iff built from the same code. */
  lemma EqualsIffSameCode(x: string, y: string)
    ensures Create(x).Equals(AttributeObject(Create(y))) <==> x == y
  {
  }
}
