/** Query strings: the `name=value` pairs joined by `&` that the link builders
    write by hand and that `URLSearchParams` serializes, with a reader that
    takes a query string back apart. */
module Query {
  import opened Text
  import opened Wrappers

  datatype Param = Param(name: string, value: string)

  function PairText(p: Param): (s: string)
    ensures |s| >= 1
  {
    p.name + "=" + p.value
  }

  function Pieces(ps: seq<Param>): (r: seq<string>)
    ensures |r| == |ps|
    ensures forall i :: 0 <= i < |ps| ==> r[i] == PairText(ps[i])
  {
    if ps == [] then [] else [PairText(ps[0])] + Pieces(ps[1..])
  }

  /** The pairs written out in order, separated by `&`. */
  function QueryString(ps: seq<Param>): string
  {
    Join(Pieces(ps), "&")
  }

  /** Reads a query back: cut at every `&`, then each piece at its first `=`. */
  function ParseQuery(q: string): seq<Param>
  {
    if q == "" then [] else ParsePieces(Split(q, "&"))
  }

  function ParsePieces(pieces: seq<string>): (ps: seq<Param>)
    ensures |ps| == |pieces|
    ensures forall i :: 0 <= i < |pieces| ==> ps[i] == ParsePiece(pieces[i])
  {
    if pieces == [] then [] else [ParsePiece(pieces[0])] + ParsePieces(pieces[1..])
  }

  function ParsePiece(piece: string): Param
  {
    var parts := Split(piece, "=");
    Param(parts[0], Join(parts[1..], "="))
  }

  /** Text that can stand as a name or a value without quoting. */
  predicate Plain(s: string)
  {
    Free(s, '&') && Free(s, '=')
  }

  predicate PlainParams(ps: seq<Param>)
  {
    forall i :: 0 <= i < |ps| ==> Plain(ps[i].name) && Plain(ps[i].value)
  }

  /** The value of the first pair with the given name: `URLSearchParams.get`. */
  function Get(ps: seq<Param>, name: string): (r: Option<string>)
    ensures r.None? <==> forall i :: 0 <= i < |ps| ==> ps[i].name != name
    ensures r.Some? ==> exists i :: 0 <= i < |ps| && ps[i] == Param(name, r.value)
  {
    if ps == [] then None
    else if ps[0].name == name then Some(ps[0].value)
    else
      var r := Get(ps[1..], name);
      assert r.Some? ==> ps[1..][IndexOf(ps[1..], name, r.value)] == Param(name, r.value);
      r
  }

  function IndexOf(ps: seq<Param>, name: string, value: string): (i: nat)
    requires exists i :: 0 <= i < |ps| && ps[i] == Param(name, value)
    ensures i < |ps| && ps[i] == Param(name, value)
  {
    if ps[0] == Param(name, value) then 0
    else
      assert exists i :: 0 <= i < |ps[1..]| && ps[1..][i] == Param(name, value) by {
        var i :| 0 <= i < |ps| && ps[i] == Param(name, value);
        assert ps[1..][i - 1] == ps[i];
      }
      1 + IndexOf(ps[1..], name, value)
  }

  /** The names in order. */
  function Names(ps: seq<Param>): (r: seq<string>)
    ensures |r| == |ps| && forall i :: 0 <= i < |ps| ==> r[i] == ps[i].name
  {
    if ps == [] then [] else [ps[0].name] + Names(ps[1..])
  }

  /** Reading a written query gives back its pairs, when no name or value
      holds `&` or `=`. */
  lemma {:induction false} ParseQueryString(ps: seq<Param>)
    requires PlainParams(ps)
    ensures ParseQuery(QueryString(ps)) == ps
  {
    if ps != [] {
      var pieces := Pieces(ps);
      assert pieces[0] != "" by { assert |PairText(ps[0])| >= 1; }
      assert QueryString(ps) != "" by { JoinStartsWithFirst(pieces, "&"); }
      forall i | 0 <= i < |pieces|
        ensures Free(pieces[i], '&')
      {
        PairTextFree(ps[i], '&');
      }
      assert FirstAt("&", 0, '&');
      SplitJoin(pieces, "&", 0, '&');
      forall i | 0 <= i < |ps|
        ensures ParsePiece(pieces[i]) == ps[i]
      {
        ParsePairText(ps[i]);
      }
    }
  }

  lemma {:induction false} PairTextFree(p: Param, c: char)
    requires Free(p.name, c) && Free(p.value, c) && c != '='
    ensures Free(PairText(p), c)
  {
  }

  lemma {:induction false} ParsePairText(p: Param)
    requires Plain(p.name) && Plain(p.value)
    ensures ParsePiece(PairText(p)) == p
  {
    assert Join([p.name, p.value], "=") == PairText(p) by {
      assert [p.name, p.value][1..] == [p.value];
    }
    assert FirstAt("=", 0, '=');
    SplitJoin([p.name, p.value], "=", 0, '=');
    assert [p.name, p.value][1..] == [p.value];
  }

  lemma {:induction false} JoinStartsWithFirst(parts: seq<string>, sep: string)
    requires |parts| >= 1
    ensures |Join(parts, sep)| >= |parts[0]|
  {
  }

  /** Adding a pair at the end writes `&name=value` after the query. */
  lemma {:induction false} QueryStringSnoc(ps: seq<Param>, p: Param)
    requires ps != []
    ensures QueryString(ps + [p]) == QueryString(ps) + "&" + PairText(p)
    decreases |ps|
  {
    assert Pieces(ps + [p]) == Pieces(ps) + [PairText(p)];
    JoinSnoc(Pieces(ps), "&", PairText(p));
  }

  lemma {:induction false} JoinSnoc(parts: seq<string>, sep: string, last: string)
    requires parts != []
    ensures Join(parts + [last], sep) == Join(parts, sep) + sep + last
    decreases |parts|
  {
    if |parts| == 1 {
      assert (parts + [last])[1..] == [last];
    } else {
      assert (parts + [last])[1..] == parts[1..] + [last];
      JoinSnoc(parts[1..], sep, last);
    }
  }
}
