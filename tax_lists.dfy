/** The taxes node shared by line items, related documents of a payment and
    payments: a wrapper holding a transferred-tax list and a withholding-tax
    list. The wrapper and each list are created on first use. */
module TaxLists {
  import opened Wrappers
  import LazyLists

  datatype TaxesWrapper<T, W> = TaxesWrapper(transferredTaxes: Option<seq<T>>, withholdingTaxes: Option<seq<W>>)

  /** The transferred list of a wrapper that may not exist yet. */
  function Transferred<T, W>(w: Option<TaxesWrapper<T, W>>): Option<seq<T>>
  {
    if w.None? then None else w.value.transferredTaxes
  }

  /** The withholding list of a wrapper that may not exist yet. */
  function Withholding<T, W>(w: Option<TaxesWrapper<T, W>>): Option<seq<W>>
  {
    if w.None? then None else w.value.withholdingTaxes
  }

  /** `Wrapper ??= new(); Wrapper.TransferredTaxes ??= new(); Wrapper.TransferredTaxes.AddRange(ts);`
      The transferred list now exists and ends with `ts`; the withholding
      list is exactly as before. */
  function AddTransferred<T, W>(w: Option<TaxesWrapper<T, W>>, ts: seq<T>): (r: TaxesWrapper<T, W>)
    ensures r.transferredTaxes == LazyLists.AddRange(Transferred(w), ts)
    ensures r.withholdingTaxes == Withholding(w)
  {
    var current := if w.None? then TaxesWrapper(None, None) else w.value;
    current.(transferredTaxes := LazyLists.AddRange(current.transferredTaxes, ts))
  }

  /** The same for the withholding list; the transferred list is untouched. */
  function AddWithholding<T, W>(w: Option<TaxesWrapper<T, W>>, ws: seq<W>): (r: TaxesWrapper<T, W>)
    ensures r.withholdingTaxes == LazyLists.AddRange(Withholding(w), ws)
    ensures r.transferredTaxes == Transferred(w)
  {
    var current := if w.None? then TaxesWrapper(None, None) else w.value;
    current.(withholdingTaxes := LazyLists.AddRange(current.withholdingTaxes, ws))
  }

  /** The two lists are updated independently: the order of a transferred
      add and a withholding add does not matter. */
  lemma AddsCommute<T, W>(w: Option<TaxesWrapper<T, W>>, ts: seq<T>, ws: seq<W>)
    ensures AddWithholding(Some(AddTransferred(w, ts)), ws) == AddTransferred(Some(AddWithholding(w, ws)), ts)
  {
  }
}
