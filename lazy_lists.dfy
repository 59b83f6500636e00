/** The source's pattern for optional lists: `list ??= new List<T>()` followed
    by `list.Add(x)` or `list.AddRange(xs)`. A list that was never created is
    `None`; once created it is `Some(entries)`. */
module LazyLists {
  import opened Wrappers

  /** The entries of a list that may not have been created yet. */
  function Elements<T>(l: Option<seq<T>>): seq<T>
  {
    if l.None? then [] else l.value
  }

  /** `list ??= new List<T>(); list.AddRange(xs);` */
  function AddRange<T>(l: Option<seq<T>>, xs: seq<T>): (r: Option<seq<T>>)
    ensures r.Some?
    ensures |r.value| == |Elements(l)| + |xs|
    ensures r.value[..|Elements(l)|] == Elements(l)
    ensures r.value[|Elements(l)|..] == xs
  {
    Some(Elements(l) + xs)
  }

  /** `list ??= new List<T>(); list.Add(x);` */
  function Add<T>(l: Option<seq<T>>, x: T): (r: Option<seq<T>>)
    ensures r.Some?
    ensures |r.value| == |Elements(l)| + 1
    ensures r.value[..|Elements(l)|] == Elements(l)
    ensures r.value[|Elements(l)|] == x
  {
    AddRange(l, [x])
  }

  /** One `Add` per element of `xs`, in order. */
  function AddEach<T>(l: Option<seq<T>>, xs: seq<T>): Option<seq<T>>
    decreases |xs|
  {
    if xs == [] then l else AddEach(Add(l, xs[0]), xs[1..])
  }

  /** Adding the elements one by one is the same as one `AddRange`, except
      that an `AddRange` of nothing still creates the list. */
  lemma {:induction false} AddEachIsAddRange<T>(l: Option<seq<T>>, xs: seq<T>)
    ensures xs != [] ==> AddEach(l, xs) == AddRange(l, xs)
    ensures xs == [] ==> AddEach(l, xs) == l
    decreases |xs|
  {
    if xs != [] {
      var l' := Add(l, xs[0]);
      if xs[1..] == [] {
        assert xs == [xs[0]];
      } else {
        AddEachIsAddRange(l', xs[1..]);
        assert Elements(l') + xs[1..] == Elements(l) + xs by {
          assert Elements(l') == Elements(l) + [xs[0]];
          assert xs == [xs[0]] + xs[1..];
        }
      }
    }
  }

  /** n `Add` calls on a list that does not exist yet leave exactly those n
      entries, in call order; with no call the list is still absent. */
  lemma {:induction false} AddEachFromNothing<T>(xs: seq<T>)
    ensures AddEach(None, xs) == if xs == [] then None else Some(xs)
  {
    AddEachIsAddRange(None, xs);
  }
}
