/** `URLSearchParams` as the browser scripts use it: an ordered list of
    name-value pairs changed in place by `set` and `delete` (section 6.2 of
    the WHATWG URL Standard) and written out by the
    application/x-www-form-urlencoded serializer. */
module SearchParams {
  import opened Query
  import opened Percent
  import opened Wrappers

  // ---------------------------------------------------------------------------
  // Specification functions over the pair list

  predicate HasName(ps: seq<Param>, name: string)
  {
    exists i :: 0 <= i < |ps| && ps[i].name == name
  }

  /** The pairs with the given name, in order. */
  function Named(ps: seq<Param>, name: string): seq<Param>
  {
    if ps == [] then []
    else Named(ps[..|ps| - 1], name) + (if ps[|ps| - 1].name == name then [ps[|ps| - 1]] else [])
  }

  /** The pairs without the given name, in order: what `delete(name)`
      leaves. */
  function Without(ps: seq<Param>, name: string): seq<Param>
  {
    if ps == [] then []
    else Without(ps[..|ps| - 1], name) + (if ps[|ps| - 1].name != name then [ps[|ps| - 1]] else [])
  }

  /** The list `set(name, value)` makes of a list that holds the name: the
      first such pair takes the value and the later ones go. */
  function Replaced(ps: seq<Param>, name: string, value: string): seq<Param>
  {
    if ps == [] then []
    else
      var init, last := ps[..|ps| - 1], ps[|ps| - 1];
      Replaced(init, name, value)
      + (if last.name != name then [last] else if HasName(init, name) then [] else [Param(name, value)])
  }

  /** `set(name, value)`: replace the first pair with the name and drop the
      others, or append a new pair when there is none. */
  function SetSpec(ps: seq<Param>, name: string, value: string): seq<Param>
  {
    if HasName(ps, name) then Replaced(ps, name, value) else ps + [Param(name, value)]
  }

  // ---------------------------------------------------------------------------
  // The object

  class SearchParams {
    var list: seq<Param>

    /** `new URLSearchParams()`, or the parameters of a parsed URL. */
    constructor (pairs: seq<Param>)
      ensures list == pairs
    {
      list := pairs;
    }

    /** `params.set(name, value)`, walking the list once. */
    method Set(name: string, value: string)
      modifies this
      ensures list == SetSpec(old(list), name, value)
    {
      var ps := list;
      var out: seq<Param> := [];
      var found := false;
      var i := 0;
      while i < |ps|
        invariant 0 <= i <= |ps|
        invariant found == HasName(ps[..i], name)
        invariant out == Replaced(ps[..i], name, value)
        invariant !found ==> out == ps[..i]
      {
        assert ps[..i + 1][..i] == ps[..i];
        HasNameSnoc(ps[..i + 1], name);
        if ps[i].name == name {
          if !found {
            out := out + [Param(name, value)];
            found := true;
          }
        } else {
          out := out + [ps[i]];
        }
        i := i + 1;
      }
      assert ps[..i] == ps;
      if !found {
        out := out + [Param(name, value)];
      }
      list := out;
    }

    /** `params.delete(name)`. */
    method Delete(name: string)
      modifies this
      ensures list == Without(old(list), name)
    {
      var ps := list;
      var out: seq<Param> := [];
      var i := 0;
      while i < |ps|
        invariant 0 <= i <= |ps|
        invariant out == Without(ps[..i], name)
      {
        assert ps[..i + 1][..i] == ps[..i];
        if ps[i].name != name {
          out := out + [ps[i]];
        }
        i := i + 1;
      }
      assert ps[..i] == ps;
      list := out;
    }

    /** `params.toString()`. */
    function ToString(): (s: string)
      reads this
      ensures s == Serialize(list)
    {
      QueryString(Encoded(list))
    }
  }

  // ---------------------------------------------------------------------------
  // Serializing and reading back

  /** Each name and value form-encoded. */
  function Encoded(ps: seq<Param>): (r: seq<Param>)
    ensures |r| == |ps|
    ensures forall i :: 0 <= i < |ps| ==> r[i] == Param(FormEncode(ps[i].name), FormEncode(ps[i].value))
  {
    if ps == [] then [] else [Param(FormEncode(ps[0].name), FormEncode(ps[0].value))] + Encoded(ps[1..])
  }

  /** The application/x-www-form-urlencoded serializer: the encoded pairs
      joined by `&`. */
  function Serialize(ps: seq<Param>): string
  {
    QueryString(Encoded(ps))
  }

  /** Each name and value percent-decoded, `+` read as a space. */
  function Decoded(ps: seq<Param>): (r: Option<seq<Param>>)
  {
    if ps == [] then Some([])
    else
      match (PercentDecode(ps[0].name, true), PercentDecode(ps[0].value, true), Decoded(ps[1..]))
      case (Some(n), Some(v), Some(rest)) => Some([Param(n, v)] + rest)
      case _ => None
  }

  /** Reading a serialized list back (cut at `&`, then at `=`, then
      decode) gives the list itself. */
  lemma {:induction false} SerializeReadsBack(ps: seq<Param>)
    ensures Decoded(ParseQuery(Serialize(ps))) == Some(ps)
  {
    var enc := Encoded(ps);
    forall i | 0 <= i < |enc|
      ensures Plain(enc[i].name) && Plain(enc[i].value)
    {
      EncodedPlain(ps[i].name);
      EncodedPlain(ps[i].value);
    }
    ParseQueryString(enc);
    DecodedEncoded(ps);
  }

  lemma {:induction false} EncodedPlain(s: string)
    ensures Plain(FormEncode(s))
  {
    var r := FormEncode(s);
    forall k | 0 <= k < |r|
      ensures r[k] != '&' && r[k] != '='
    {
    }
  }

  lemma {:induction false} DecodedEncoded(ps: seq<Param>)
    ensures Decoded(Encoded(ps)) == Some(ps)
    decreases |ps|
  {
    if ps != [] {
      DecodeFormEncode(ps[0].name);
      DecodeFormEncode(ps[0].value);
      assert Encoded(ps)[1..] == Encoded(ps[1..]);
      DecodedEncoded(ps[1..]);
      assert [ps[0]] + ps[1..] == ps;
    }
  }

  // ---------------------------------------------------------------------------
  // What set and delete promise

  lemma {:induction false} NamedAppend(ps: seq<Param>, q: seq<Param>, name: string)
    ensures Named(ps + q, name) == Named(ps, name) + Named(q, name)
    ensures Without(ps + q, name) == Without(ps, name) + Without(q, name)
    decreases |q|
  {
    if q == [] {
      assert ps + q == ps;
    } else {
      var init := q[..|q| - 1];
      assert (ps + q)[..|ps + q| - 1] == ps + init;
      NamedAppend(ps, init, name);
      assert q[..|q| - 1] == init;
    }
  }

  lemma {:induction false} NamedSingle(p: Param, name: string)
    ensures Named([p], name) == if p.name == name then [p] else []
    ensures Without([p], name) == if p.name != name then [p] else []
  {
    assert [p][..0] == [];
  }

  /** Without a pair of the name, `Named` is empty and `Without` is the
      whole list. */
  lemma {:induction false} NoName(ps: seq<Param>, name: string)
    requires !HasName(ps, name)
    ensures Named(ps, name) == [] && Without(ps, name) == ps
    decreases |ps|
  {
    if ps != [] {
      var init := ps[..|ps| - 1];
      assert !HasName(init, name) by {
        forall i | 0 <= i < |init|
          ensures init[i].name != name
        {
          assert init[i] == ps[i];
        }
      }
      NoName(init, name);
      assert init + [ps[|ps| - 1]] == ps;
    }
  }

  /** A list has the name when its front does or its last pair has it. */
  lemma {:induction false} HasNameSnoc(ps: seq<Param>, name: string)
    requires ps != []
    ensures HasName(ps, name) <==> HasName(ps[..|ps| - 1], name) || ps[|ps| - 1].name == name
  {
    var init := ps[..|ps| - 1];
    if HasName(init, name) {
      var i :| 0 <= i < |init| && init[i].name == name;
      assert ps[i] == init[i];
    }
    if HasName(ps, name) && ps[|ps| - 1].name != name {
      var i :| 0 <= i < |ps| && ps[i].name == name;
      assert init[i] == ps[i];
    }
  }

  /** The replaced list keeps every pair of another name, in order. */
  lemma {:induction false} ReplacedKeepsOthers(ps: seq<Param>, name: string, value: string)
    ensures Without(Replaced(ps, name, value), name) == Without(ps, name)
    decreases |ps|
  {
    if ps != [] {
      var init, last := ps[..|ps| - 1], ps[|ps| - 1];
      var tail := if last.name != name then [last] else if HasName(init, name) then [] else [Param(name, value)];
      ReplacedKeepsOthers(init, name, value);
      NamedAppend(Replaced(init, name, value), tail, name);
      NamedSingle(last, name);
      if tail != [] {
        NamedSingle(tail[0], name);
        assert tail == [tail[0]];
      }
    }
  }

  /** The replaced list holds one pair of the name, with the new value,
      once the list had the name. */
  lemma {:induction false} ReplacedNamed(ps: seq<Param>, name: string, value: string)
    ensures Named(Replaced(ps, name, value), name) == if HasName(ps, name) then [Param(name, value)] else []
    decreases |ps|
  {
    if ps != [] {
      var init, last := ps[..|ps| - 1], ps[|ps| - 1];
      var tail := if last.name != name then [last] else if HasName(init, name) then [] else [Param(name, value)];
      ReplacedNamed(init, name, value);
      NamedAppend(Replaced(init, name, value), tail, name);
      HasNameSnoc(ps, name);
      if tail != [] {
        NamedSingle(tail[0], name);
        assert tail == [tail[0]];
      }
    }
  }

  /** After `set(name, value)` the list holds exactly one pair of the name,
      with the value, and the pairs of every other name are those it held
      before, in the same order. */
  lemma {:induction false} SetEffect(ps: seq<Param>, name: string, value: string)
    ensures Named(SetSpec(ps, name, value), name) == [Param(name, value)]
    ensures Without(SetSpec(ps, name, value), name) == Without(ps, name)
  {
    if HasName(ps, name) {
      ReplacedKeepsOthers(ps, name, value);
      ReplacedNamed(ps, name, value);
    } else {
      NoName(ps, name);
      NamedAppend(ps, [Param(name, value)], name);
      NamedSingle(Param(name, value), name);
    }
  }

  /** After `delete(name)` no pair of the name is left. */
  lemma {:induction false} DeleteRemoves(ps: seq<Param>, name: string)
    ensures Named(Without(ps, name), name) == []
    decreases |ps|
  {
    if ps != [] {
      var init, last := ps[..|ps| - 1], ps[|ps| - 1];
      DeleteRemoves(init, name);
      var tail := if last.name != name then [last] else [];
      NamedAppend(Without(init, name), tail, name);
      if tail != [] {
        NamedSingle(last, name);
      }
    }
  }

  /** `delete(name)` keeps the pairs of every other name, in order. */
  lemma {:induction false} DeleteKeepsOthers(ps: seq<Param>, name: string, other: string)
    requires other != name
    ensures Named(Without(ps, name), other) == Named(ps, other)
    decreases |ps|
  {
    if ps != [] {
      var init, last := ps[..|ps| - 1], ps[|ps| - 1];
      DeleteKeepsOthers(init, name, other);
      var tail := if last.name != name then [last] else [];
      NamedAppend(Without(init, name), tail, other);
      NamedSingle(last, other);
    }
  }

  /** Setting two different names on an empty list gives the two pairs in
      the order they were set. */
  lemma {:induction false} SetTwoOnEmpty(n1: string, v1: string, n2: string, v2: string)
    requires n1 != n2
    ensures SetSpec([], n1, v1) == [Param(n1, v1)]
    ensures SetSpec([Param(n1, v1)], n2, v2) == [Param(n1, v1), Param(n2, v2)]
  {
    assert !HasName([Param(n1, v1)], n2);
  }
}
