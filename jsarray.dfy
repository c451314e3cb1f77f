/** The JavaScript array searches and maps the parsers and the compositor
    use. A callback that throws aborts the whole call: such callbacks return
    a `Result`. */
module JsArray {
  import opened Wrappers

  /** `a.findIndex(p)`: the index of the first element satisfying `p`. */
  function FindIndex<T>(a: seq<T>, p: T -> bool): (r: Option<nat>)
    ensures r.Some? ==> r.value < |a| && p(a[r.value])
    ensures r.Some? ==> forall j :: 0 <= j < r.value ==> !p(a[j])
    ensures r.None? ==> forall j :: 0 <= j < |a| ==> !p(a[j])
  {
    if |a| == 0 then None
    else if p(a[0]) then Some(0)
    else match FindIndex(a[1..], p)
      case None => None
      case Some(i) => Some(i + 1)
  }

  /** Searching one more element finds the same index, or that element
      when nothing before it matched. */
  lemma FindIndexSnoc<T>(a: seq<T>, x: T, p: T -> bool)
    ensures FindIndex(a, p).Some? ==> FindIndex(a + [x], p) == FindIndex(a, p)
    ensures FindIndex(a, p).None? && p(x) ==> FindIndex(a + [x], p) == Some(|a|)
    ensures FindIndex(a, p).None? && !p(x) ==> FindIndex(a + [x], p) == None
  {
    var b := a + [x];
    assert forall j :: 0 <= j < |a| ==> b[j] == a[j];
    assert b[|a|] == x;
  }

  /** `a.find(p)`: the first element satisfying `p`, or undefined. */
  function Find<T>(a: seq<T>, p: T -> bool): (r: Option<T>)
    ensures r.None? <==> forall j :: 0 <= j < |a| ==> !p(a[j])
    ensures r.Some? ==> exists i :: 0 <= i < |a| && a[i] == r.value && p(a[i]) && forall j :: 0 <= j < i ==> !p(a[j])
  {
    match FindIndex(a, p)
    case None => None
    case Some(i) => Some(a[i])
  }

  /** `a.find(p)` where evaluating `p` may throw: elements are tested in
      order and the first throw aborts the search. */
  function FindOrThrow<T, E>(a: seq<T>, p: T -> Result<bool, E>): (r: Result<Option<T>, E>)
    ensures r == Ok(None) <==> forall j :: 0 <= j < |a| ==> p(a[j]) == Ok(false)
    ensures r.Ok? && r.value.Some? ==>
      exists i :: 0 <= i < |a| && a[i] == r.value.value && p(a[i]) == Ok(true)
        && forall j :: 0 <= j < i ==> p(a[j]) == Ok(false)
    ensures r.Err? ==>
      exists i :: 0 <= i < |a| && p(a[i]) == Err(r.error)
        && forall j :: 0 <= j < i ==> p(a[j]) == Ok(false)
  {
    if |a| == 0 then Ok(None)
    else match p(a[0])
      case Err(e) => Err(e)
      case Ok(true) => Ok(Some(a[0]))
      case Ok(false) =>
        var r := FindOrThrow(a[1..], p);
        assert forall j :: 1 <= j < |a| ==> a[j] == a[1..][j - 1];
        r
  }

  /** `a.map(f)` where `f` may throw: the first throw aborts the map. */
  function MapOrThrow<A, B, E>(a: seq<A>, f: A -> Result<B, E>): (r: Result<seq<B>, E>)
    ensures r.Ok? ==> |r.value| == |a| && forall i :: 0 <= i < |a| ==> f(a[i]) == Ok(r.value[i])
    ensures r.Err? ==>
      exists i :: 0 <= i < |a| && f(a[i]) == Err(r.error) && forall j :: 0 <= j < i ==> f(a[j]).Ok?
  {
    if |a| == 0 then Ok([])
    else match f(a[0])
      case Err(e) => Err(e)
      case Ok(b) =>
        match MapOrThrow(a[1..], f)
        case Err(e) =>
          assert forall j :: 1 <= j < |a| ==> a[j] == a[1..][j - 1];
          Err(e)
        case Ok(bs) => Ok([b] + bs)
  }

  /** Mapping a concatenation maps the first part, then the second; a throw
      in the first part means the second is never visited. */
  lemma {:induction false} MapAppend<A, B, E>(a: seq<A>, b: seq<A>, f: A -> Result<B, E>)
    ensures MapOrThrow(a + b, f) ==
      match MapOrThrow(a, f)
      case Err(e) => Err(e)
      case Ok(ra) =>
        match MapOrThrow(b, f)
        case Err(e) => Err(e)
        case Ok(rb) => Ok(ra + rb)
    decreases |a|
  {
    if |a| == 0 {
      assert a + b == b;
      match MapOrThrow(b, f)
      case Err(e) =>
      case Ok(rb) => assert [] + rb == rb;
    } else {
      assert (a + b)[0] == a[0] && (a + b)[1..] == a[1..] + b;
      MapAppend(a[1..], b, f);
      match f(a[0])
      case Err(e) =>
      case Ok(x) =>
        match MapOrThrow(a[1..], f)
        case Err(e) =>
        case Ok(ra) =>
          match MapOrThrow(b, f)
          case Err(e) =>
          case Ok(rb) =>
            assert [x] + (ra + rb) == ([x] + ra) + rb;
    }
  }

  /** A map throws iff some element's callback throws. */
  lemma MapFails<A, B, E>(a: seq<A>, f: A -> Result<B, E>)
    ensures MapOrThrow(a, f).Err? <==> exists i :: 0 <= i < |a| && f(a[i]).Err?
  {
    if exists i :: 0 <= i < |a| && f(a[i]).Err? {
      var i :| 0 <= i < |a| && f(a[i]).Err?;
      assert !(MapOrThrow(a, f).Ok?);
    }
  }

  /** A map with a throwing element throws. */
  lemma MapFailsAt<A, B, E>(a: seq<A>, f: A -> Result<B, E>, i: nat)
    requires i < |a| && f(a[i]).Err?
    ensures MapOrThrow(a, f).Err?
  {
    MapFails(a, f);
  }

  /** Once a prefix throws, mapping any extension throws the same error. */
  lemma MapStops<A, B, E>(a: seq<A>, b: seq<A>, f: A -> Result<B, E>)
    requires MapOrThrow(a, f).Err? && a <= b
    ensures MapOrThrow(b, f) == MapOrThrow(a, f)
  {
    assert b == a + b[|a|..];
    MapAppend(a, b[|a|..], f);
  }

  /** Mapping one element calls the callback once. */
  lemma MapSingle<A, B, E>(x: A, f: A -> Result<B, E>)
    ensures MapOrThrow([x], f) == match f(x) case Err(e) => Err(e) case Ok(y) => Ok([y])
  {
    assert [x][1..] == [];
    match f(x)
    case Err(e) =>
    case Ok(y) => assert [y] + [] == [y];
  }

  /** Mapping one more element of `a` extends the map of the prefix by
      that element's image. */
  lemma MapNext<A, B, E>(a: seq<A>, i: nat, f: A -> Result<B, E>, rs: seq<B>)
    requires i < |a| && MapOrThrow(a[..i], f) == Ok(rs)
    ensures a[..i + 1] <= a
    ensures MapOrThrow(a[..i + 1], f) == match f(a[i]) case Err(e) => Err(e) case Ok(y) => Ok(rs + [y])
  {
    assert a[..i + 1] == a[..i] + [a[i]];
    MapAppend(a[..i], [a[i]], f);
    MapSingle(a[i], f);
  }

  /** A non-empty sequence is its front followed by its last element. */
  lemma Snoc<T>(s: seq<T>)
    requires |s| > 0
    ensures s == s[..|s| - 1] + [s[|s| - 1]]
  {
  }

  /** The front of `a + [y]` is `a`. */
  lemma Front<T>(a: seq<T>, y: T)
    ensures (a + [y])[..|a|] == a && (a + [y])[|a|] == y
  {
  }

  /** `xs.map(tag)` for a callback that cannot throw. */
  function Tagged<T, U>(xs: seq<T>, tag: T -> U): (r: seq<U>)
    ensures |r| == |xs| && forall i :: 0 <= i < |xs| ==> r[i] == tag(xs[i])
  {
    if |xs| == 0 then [] else Tagged(xs[..|xs| - 1], tag) + [tag(xs[|xs| - 1])]
  }

  lemma TaggedSnoc<T, U>(xs: seq<T>, x: T, tag: T -> U)
    ensures Tagged(xs + [x], tag) == Tagged(xs, tag) + [tag(x)]
  {
    Front(xs, x);
  }

  /** The parts glued together in order, as `contents += part` does. */
  function Flatten<T>(parts: seq<seq<T>>): seq<T> {
    if |parts| == 0 then [] else Flatten(parts[..|parts| - 1]) + parts[|parts| - 1]
  }

  /** An element is in the glued sequence iff it is in one of the parts. */
  lemma {:induction false} FlattenMember<T>(parts: seq<seq<T>>, x: T)
    ensures x in Flatten(parts) <==> exists i :: 0 <= i < |parts| && x in parts[i]
  {
    if |parts| > 0 {
      var n := |parts| - 1;
      FlattenMember(parts[..n], x);
      if x in Flatten(parts[..n]) {
        var i :| 0 <= i < n && x in parts[..n][i];
        assert x in parts[i];
      }
      if exists i :: 0 <= i < |parts| && x in parts[i] {
        var i :| 0 <= i < |parts| && x in parts[i];
        if i < n {
          assert x in parts[..n][i];
        }
      }
    }
  }

  /** Parts of at most one element glue into no more elements than parts. */
  lemma {:induction false} FlattenBound<T>(parts: seq<seq<T>>)
    requires forall i :: 0 <= i < |parts| ==> |parts[i]| <= 1
    ensures |Flatten(parts)| <= |parts|
  {
    if |parts| > 0 {
      FlattenBound(parts[..|parts| - 1]);
    }
  }
}
