/** The generic XML serializer: the argument checks in front of the library
    calls, the recursive namespace-stripping transform, and the pass that
    makes descendants without a namespace inherit their parent's. */
module Serializing {
  import opened Wrappers

  /** An expanded XML name: namespace URI ("" for none) and local name. */
  datatype XName = XName(namespaceName: string, localName: string)

  datatype XAttribute = XAttribute(name: XName, value: string)

  /** An element: name, attributes, own text and child elements. The text of
      a leaf is its whole Value. */
  datatype XElement = XElement(name: XName, attributes: seq<XAttribute>, text: string, elements: seq<XElement>)

  // ----- Argument checks -----

  /** Deserialize: null or empty XML is refused with
      ArgumentException(paramName "xml"). Otherwise the library parses it,
      and its result, a value or the exception it throws on malformed XML,
      is passed through unchanged. */
  function Deserialize<T>(xml: Option<string>, parse: string -> Result<T>): (r: Result<T>)
    ensures IsNullOrEmpty(xml) ==> r == Err(Argument("xml", "XML cannot be null or empty"))
    ensures !IsNullOrEmpty(xml) ==> r == parse(xml.value)
    ensures r.Ok? <==> !IsNullOrEmpty(xml) && parse(xml.value).Ok?
  {
    if IsNullOrEmpty(xml) then Err(Argument("xml", "XML cannot be null or empty"))
    else parse(xml.value)
  }

  /** DeserializeFromFile as written: the ArgumentException receives its
      two strings in the wrong order, so its parameter name is the sentence
      and its message is "filename". A missing file is refused next, with
      FileNotFoundException naming the file. An existing file is handed to
      the reader and serializer, whose result or failure is passed through. */
  function DeserializeFromFile<T>(filename: Option<string>, fileExists: string -> bool, read: string -> Result<T>)
    : (r: Result<T>)
    ensures IsNullOrEmpty(filename) ==> r == Err(Argument("XML filename cannot be null or empty", "filename"))
    ensures !IsNullOrEmpty(filename) && !fileExists(filename.value) ==> r == Err(FileNotFound(filename.value))
    ensures !IsNullOrEmpty(filename) && fileExists(filename.value) ==> r == read(filename.value)
    ensures r.Ok? <==> !IsNullOrEmpty(filename) && fileExists(filename.value) && read(filename.value).Ok?
  {
    if IsNullOrEmpty(filename) then Err(Argument("XML filename cannot be null or empty", "filename"))
    else if !fileExists(filename.value) then Err(FileNotFound(filename.value))
    else read(filename.value)
  }

  /** DeserializeFromFile with the exception built as Deserialize builds
      its own: parameter name "filename", the sentence as message. */
  function DeserializeFromFileIntended<T>(filename: Option<string>, fileExists: string -> bool, read: string -> Result<T>)
    : (r: Result<T>)
    ensures IsNullOrEmpty(filename) ==> r.Err? && r.error.Argument? && r.error.paramName == "filename"
    ensures IsNullOrEmpty(filename) ==> r == Err(Argument("filename", "XML filename cannot be null or empty"))
    ensures !IsNullOrEmpty(filename) && !fileExists(filename.value) ==> r == Err(FileNotFound(filename.value))
    ensures !IsNullOrEmpty(filename) && fileExists(filename.value) ==> r == read(filename.value)
    ensures r.Ok? <==> !IsNullOrEmpty(filename) && fileExists(filename.value) && read(filename.value).Ok?
  {
    if IsNullOrEmpty(filename) then Err(Argument("filename", "XML filename cannot be null or empty"))
    else if !fileExists(filename.value) then Err(FileNotFound(filename.value))
    else read(filename.value)
  }

  /** As written, the exception for a missing file name does not name the
      parameter `filename`, while the two versions agree on every other
      input. */
  lemma DeserializeFromFileNamesWrongParameter<T>(filename: Option<string>, fileExists: string -> bool, read: string -> Result<T>)
    ensures IsNullOrEmpty(filename) ==> DeserializeFromFile(filename, fileExists, read).error.paramName != "filename"
    ensures !IsNullOrEmpty(filename) ==>
              DeserializeFromFile(filename, fileExists, read) == DeserializeFromFileIntended(filename, fileExists, read)
  {
  }

  /** Serialize: a null source is refused with ArgumentNullException("source").
      Otherwise the library writes it, and the text or the exception the
      writer throws is passed through. */
  function Serialize<T>(source: Option<T>, write: T -> Result<string>): (r: Result<string>)
    ensures source.None? ==> r == Err(ArgumentNull("source"))
    ensures source.Some? ==> r == write(source.value)
    ensures r.Ok? <==> source.Some? && write(source.value).Ok?
  {
    if source.None? then Err(ArgumentNull("source")) else write(source.value)
  }

  // ----- RemoveAllNamespaces -----

  /** The recursive core of RemoveAllNamespaces. A leaf becomes an element
      named by its local name alone, with its text and all its attributes;
      any other element becomes an element named by its local name whose
      children are its own children transformed, and nothing else. */
  function RemoveAllNamespaces(e: XElement): (r: XElement)
    ensures r.name == XName("", e.name.localName)
    ensures |r.elements| == |e.elements|
    ensures e.elements == [] ==> r.attributes == e.attributes && r.text == e.text
    ensures e.elements != [] ==> r.attributes == [] && r.text == ""
    decreases e
  {
    if e.elements == [] then
      XElement(XName("", e.name.localName), e.attributes, e.text, [])
    else
      XElement(XName("", e.name.localName), [], "",
               seq(|e.elements|, i requires 0 <= i < |e.elements| => RemoveAllNamespaces(e.elements[i])))
  }

  /** No element of the tree has a namespace. */
  ghost predicate NoNamespaces(e: XElement)
    decreases e
  {
    e.name.namespaceName == "" && forall i :: 0 <= i < |e.elements| ==> NoNamespaces(e.elements[i])
  }

  /** `output` has the outline of `input`: at every position the element of `out`
      has the local name of the element of `in` and the same number of
      children. */
  ghost predicate SameOutline(input: XElement, output: XElement)
    decreases input
  {
    && output.name.localName == input.name.localName
    && |output.elements| == |input.elements|
    && forall i :: 0 <= i < |input.elements| ==> SameOutline(input.elements[i], output.elements[i])
  }

  /** The number of elements in a tree. */
  function Size(e: XElement): nat
    decreases e, 1
  {
    1 + SizeOfAll(e.elements)
  }

  function SizeOfAll(es: seq<XElement>): nat
    decreases es, 0
  {
    if es == [] then 0 else SizeOfAll(es[..|es| - 1]) + Size(es[|es| - 1])
  }

  /** Every element of the result has an empty namespace. */
  lemma {:induction false} RemoveAllNamespacesClearsNamespaces(e: XElement)
    ensures NoNamespaces(RemoveAllNamespaces(e))
    decreases e
  {
    var r := RemoveAllNamespaces(e);
    forall i | 0 <= i < |r.elements|
      ensures NoNamespaces(r.elements[i])
    {
      RemoveAllNamespacesClearsNamespaces(e.elements[i]);
    }
  }

  /** The result keeps the outline of the input, element for element. */
  lemma {:induction false} RemoveAllNamespacesKeepsOutline(e: XElement)
    ensures SameOutline(e, RemoveAllNamespaces(e))
    decreases e
  {
    var r := RemoveAllNamespaces(e);
    forall i | 0 <= i < |e.elements|
      ensures SameOutline(e.elements[i], r.elements[i])
    {
      RemoveAllNamespacesKeepsOutline(e.elements[i]);
    }
  }

  /** Trees with the same outline have the same number of elements. */
  lemma {:induction false} SameOutlineSameSize(a: XElement, b: XElement)
    requires SameOutline(a, b)
    ensures Size(a) == Size(b)
    decreases a, 1
  {
    SameOutlineSameSizeAll(a.elements, b.elements);
  }

  lemma {:induction false} SameOutlineSameSizeAll(xs: seq<XElement>, ys: seq<XElement>)
    requires |xs| == |ys|
    requires forall i :: 0 <= i < |xs| ==> SameOutline(xs[i], ys[i])
    ensures SizeOfAll(xs) == SizeOfAll(ys)
    decreases xs, 0
  {
    if xs != [] {
      var n := |xs| - 1;
      SameOutlineSameSizeAll(xs[..n], ys[..n]);
      SameOutlineSameSize(xs[n], ys[n]);
    }
  }

  /** The transform neither adds nor removes elements. */
  lemma RemoveAllNamespacesKeepsSize(e: XElement)
    ensures Size(RemoveAllNamespaces(e)) == Size(e)
  {
    RemoveAllNamespacesKeepsOutline(e);
    SameOutlineSameSize(e, RemoveAllNamespaces(e));
  }

  /** Stripping namespaces twice is the same as stripping them once. */
  lemma {:induction false} RemoveAllNamespacesIdempotent(e: XElement)
    ensures RemoveAllNamespaces(RemoveAllNamespaces(e)) == RemoveAllNamespaces(e)
    decreases e
  {
    var r := RemoveAllNamespaces(e);
    if e.elements != [] {
      forall i | 0 <= i < |r.elements|
        ensures RemoveAllNamespaces(r.elements[i]) == r.elements[i]
      {
        RemoveAllNamespacesIdempotent(e.elements[i]);
      }
      assert RemoveAllNamespaces(r).elements == r.elements;
    }
  }

  // ----- clenXmlDocument -----

  /** The name of the `xmlns` attribute (a default namespace declaration). */
  const XmlnsName := XName("", "xmlns")

  /** `node.Attributes("xmlns").Remove()`: every attribute named `xmlns`
      goes, the others stay in order. */
  function RemoveXmlns(attributes: seq<XAttribute>): (r: seq<XAttribute>)
    ensures |r| <= |attributes|
    ensures forall a :: a in r <==> a in attributes && a.name != XmlnsName
    ensures (forall k :: 0 <= k < |attributes| ==> attributes[k].name != XmlnsName) ==> r == attributes
  {
    if attributes == [] then []
    else if attributes[0].name == XmlnsName then RemoveXmlns(attributes[1..])
    else [attributes[0]] + RemoveXmlns(attributes[1..])
  }

  /** Removal works piecewise, so the attributes that stay keep their
      relative order: a list split anywhere loses its `xmlns` attributes
      from each part separately. */
  lemma {:induction false} RemoveXmlnsAppend(front: seq<XAttribute>, back: seq<XAttribute>)
    ensures RemoveXmlns(front + back) == RemoveXmlns(front) + RemoveXmlns(back)
  {
    if front == [] {
      assert front + back == back;
    } else {
      var joined := front + back;
      assert joined[0] == front[0];
      assert joined[1..] == front[1..] + back;
      RemoveXmlnsAppend(front[1..], back);
    }
  }

  lemma {:induction false} RemoveXmlnsIdempotent(attributes: seq<XAttribute>)
    ensures RemoveXmlns(RemoveXmlns(attributes)) == RemoveXmlns(attributes)
  {
    if attributes != [] {
      RemoveXmlnsIdempotent(attributes[1..]);
    }
  }

  /** A document flattened in document order: node 0 is the root, and every
      other node's parent comes before it. */
  ghost predicate ParentsBefore(parent: seq<int>)
  {
    forall i :: 1 <= i < |parent| ==> 0 <= parent[i] < i
  }

  /** The namespace node `i` has after the pass: the root keeps its own; a
      descendant with a namespace keeps it; one without takes its parent's
      namespace after the pass, so it inherits from its nearest ancestor
      that has one (or from the root). */
  function CleanedNamespace(names: seq<XName>, parent: seq<int>, i: int): string
    requires |names| == |parent| && ParentsBefore(parent) && 0 <= i < |names|
    decreases i
  {
    if i == 0 || names[i].namespaceName != "" then names[i].namespaceName
    else CleanedNamespace(names, parent, parent[i])
  }

  /** All names after the pass; local names never change. */
  function CleanedNames(names: seq<XName>, parent: seq<int>): (r: seq<XName>)
    requires |names| == |parent| && ParentsBefore(parent)
    ensures |r| == |names|
    ensures forall i :: 0 <= i < |names| && (i == 0 || names[i].namespaceName != "") ==> r[i] == names[i]
    ensures forall i :: 0 <= i < |names| ==> r[i].localName == names[i].localName
  {
    seq(|names|, i requires 0 <= i < |names| => XName(CleanedNamespace(names, parent, i), names[i].localName))
  }

  /** All attribute lists after the pass: only descendants that had no
      namespace lose their `xmlns` attributes. */
  function CleanedAttributes(names: seq<XName>, attributes: seq<seq<XAttribute>>): (r: seq<seq<XAttribute>>)
    requires |names| == |attributes|
    ensures |r| == |attributes|
    ensures forall i :: 0 <= i < |r| && (i == 0 || names[i].namespaceName != "") ==> r[i] == attributes[i]
  {
    seq(|names|, i requires 0 <= i < |names| =>
      if i > 0 && names[i].namespaceName == "" then RemoveXmlns(attributes[i]) else attributes[i])
  }

  /** When no descendant has a namespace of its own, the root's namespace
      reaches every node. */
  lemma {:induction false} RootNamespaceReachesAll(names: seq<XName>, parent: seq<int>, i: int)
    requires |names| == |parent| && ParentsBefore(parent) && 0 <= i < |names|
    requires forall k :: 1 <= k < |names| ==> names[k].namespaceName == ""
    ensures CleanedNamespace(names, parent, i) == names[0].namespaceName
    decreases i
  {
    if i != 0 {
      RootNamespaceReachesAll(names, parent, parent[i]);
    }
  }

  /** Running the pass on its own output changes no name. */
  lemma {:induction false} CleanedNamespaceIdempotent(names: seq<XName>, parent: seq<int>, i: int)
    requires |names| == |parent| && ParentsBefore(parent) && 0 <= i < |names|
    ensures CleanedNamespace(CleanedNames(names, parent), parent, i) == CleanedNamespace(names, parent, i)
    decreases i
  {
    var cleaned := CleanedNames(names, parent);
    if i != 0 && cleaned[i].namespaceName == "" {
      CleanedNamespaceIdempotent(names, parent, parent[i]);
    }
  }

  lemma CleaningIsIdempotent(names: seq<XName>, attributes: seq<seq<XAttribute>>, parent: seq<int>)
    requires |names| == |parent| == |attributes| && ParentsBefore(parent)
    ensures CleanedNames(CleanedNames(names, parent), parent) == CleanedNames(names, parent)
    ensures CleanedAttributes(CleanedNames(names, parent), CleanedAttributes(names, attributes))
         == CleanedAttributes(names, attributes)
  {
    var cleaned := CleanedNames(names, parent);
    forall i | 0 <= i < |names|
      ensures CleanedNames(cleaned, parent)[i] == cleaned[i]
    {
      CleanedNamespaceIdempotent(names, parent, i);
    }
    forall i | 0 <= i < |names|
      ensures CleanedAttributes(cleaned, CleanedAttributes(names, attributes))[i] == CleanedAttributes(names, attributes)[i]
    {
      if i > 0 && cleaned[i].namespaceName == "" {
        RemoveXmlnsIdempotent(attributes[i]);
      }
    }
  }

  /** clenXmlDocument on the flattened document. Without a root the call
      fails as `doc.Root.Descendants()` does, with NullReferenceException,
      and nothing changes. Otherwise every descendant, parents first, that
      has no namespace loses its `xmlns` attributes and takes its parent's
      current namespace; the root and every element that had a namespace
      are left as they were. */
  method CleanXmlDocument(names: array<XName>, attributes: array<seq<XAttribute>>, parent: seq<int>)
    returns (outcome: Outcome)
    requires names.Length == attributes.Length == |parent| && ParentsBefore(parent)
    modifies names, attributes
    ensures outcome.Fail? <==> names.Length == 0
    ensures outcome.Fail? ==> outcome.error == NullReference
    ensures names[..] == CleanedNames(old(names[..]), parent)
    ensures attributes[..] == CleanedAttributes(old(names[..]), old(attributes[..]))
  {
    if names.Length == 0 {
      return Fail(NullReference);
    }
    ghost var names0 := names[..];
    ghost var cleaned := CleanedNames(names0, parent);
    ghost var cleanedAttributes := CleanedAttributes(names0, attributes[..]);
    var i := 1;
    while i < names.Length
      invariant 1 <= i <= names.Length
      invariant names[..i] == cleaned[..i] && names[i..] == names0[i..]
      invariant attributes[..i] == cleanedAttributes[..i] && attributes[i..] == old(attributes[..])[i..]
    {
      var p := parent[i];
      assert names[p] == cleaned[p] by { assert names[..i][p] == cleaned[..i][p]; }
      assert names[i] == names0[i] by { assert names[i..][0] == names0[i..][0]; }
      assert attributes[i] == old(attributes[i]) by { assert attributes[i..][0] == old(attributes[..])[i..][0]; }
      if names[i].namespaceName == "" {
        attributes[i] := RemoveXmlns(attributes[i]);
        names[i] := XName(names[p].namespaceName, names[i].localName);
      }
      assert names[i] == cleaned[i];
      assert attributes[i] == cleanedAttributes[i];
      assert names[..i + 1] == cleaned[..i + 1];
      assert attributes[..i + 1] == cleanedAttributes[..i + 1];
      i := i + 1;
    }
    assert names[..] == names[..i];
    assert attributes[..] == attributes[..i];
    outcome := Pass;
  }
}
