/**
 * The `key=value&key=value` form of a URL query, as a list of parameters. The URL builders
 * of the command client concatenate strings; this module is the structured reading of what
 * they produce, so that the parameters a server sees can be stated and proved.
 */
module QueryString {
  import opened Wrappers
  import opened Text

  datatype Param = Param(key: string, value: string)

  function RenderParam(p: Param): string
  {
    p.key + "=" + p.value
  }

  function RenderAll(ps: seq<Param>): (parts: seq<string>)
    ensures |parts| == |ps|
    ensures forall i :: 0 <= i < |ps| ==> parts[i] == RenderParam(ps[i])
  {
    seq(|ps|, i requires 0 <= i < |ps| => RenderParam(ps[i]))
  }

  function Query(ps: seq<Param>): string
  {
    Join(RenderAll(ps), '&')
  }

  /** One `key=value` chunk, split at its first `=`; a chunk without `=` is a key with an empty value. */
  function ParseParam(chunk: string): Param
  {
    if '=' in chunk then
      var i := IndexOf(chunk, '=');
      Param(chunk[..i], chunk[i + 1..])
    else Param(chunk, "")
  }

  /** The parameters a server reads from a query string. */
  function ParseQuery(q: string): (ps: seq<Param>)
    ensures |ps| > 0
  {
    var chunks := Split(q, '&');
    seq(|chunks|, i requires 0 <= i < |chunks| => ParseParam(chunks[i]))
  }

  /** A parameter that survives rendering and reading back: no `=` or `&` in its key, no `&` in its value. */
  predicate Safe(p: Param)
  {
    '=' !in p.key && '&' !in p.key && '&' !in p.value
  }

  /** The value of the first parameter called `key`. */
  function Lookup(ps: seq<Param>, key: string): (r: Option<string>)
    ensures r.None? <==> forall i :: 0 <= i < |ps| ==> ps[i].key != key
    ensures r.Some? ==> exists i :: 0 <= i < |ps| && ps[i] == Param(key, r.value)
                                    && forall j :: 0 <= j < i ==> ps[j].key != key
  {
    if |ps| == 0 then None
    else if ps[0].key == key then Some(ps[0].value)
    else
      var r := Lookup(ps[1..], key);
      assert forall i :: 1 <= i < |ps| ==> ps[i] == ps[1..][i - 1];
      r
  }

  /** Appending one parameter appends `&key=value` to the query. */
  lemma {:induction false} QuerySnoc(ps: seq<Param>, p: Param)
    requires |ps| > 0
    ensures Query(ps + [p]) == Query(ps) + "&" + RenderParam(p)
  {
    var parts := RenderAll(ps);
    var all := RenderAll(ps + [p]);
    assert all == parts + [RenderParam(p)];
    JoinSnoc(parts, RenderParam(p), '&');
  }

  lemma QueryOfThree(p0: Param, p1: Param, p2: Param)
    ensures Query([p0, p1, p2]) == RenderParam(p0) + "&" + RenderParam(p1) + "&" + RenderParam(p2)
  {
    assert RenderAll([p0]) == [RenderParam(p0)];
    QuerySnoc([p0], p1);
    assert [p0] + [p1] == [p0, p1];
    QuerySnoc([p0, p1], p2);
    assert [p0, p1] + [p2] == [p0, p1, p2];
  }

  lemma QueryOfFour(p0: Param, p1: Param, p2: Param, p3: Param)
    ensures Query([p0, p1, p2, p3])
            == RenderParam(p0) + "&" + RenderParam(p1) + "&" + RenderParam(p2) + "&" + RenderParam(p3)
  {
    QueryOfThree(p0, p1, p2);
    QuerySnoc([p0, p1, p2], p3);
    assert [p0, p1, p2] + [p3] == [p0, p1, p2, p3];
  }

  lemma LookupCons(p: Param, ps: seq<Param>, key: string)
    ensures Lookup([p] + ps, key) == if p.key == key then Some(p.value) else Lookup(ps, key)
  {
    assert ([p] + ps)[1..] == ps;
  }

  lemma LookupAfterThree(p0: Param, p1: Param, p2: Param, rest: seq<Param>, key: string)
    ensures Lookup([p0, p1, p2] + rest, key) ==
            if p0.key == key then Some(p0.value)
            else if p1.key == key then Some(p1.value)
            else if p2.key == key then Some(p2.value)
            else Lookup(rest, key)
  {
    var r2 := [p2] + rest;
    var r1 := [p1] + r2;
    assert [p0, p1, p2] + rest == [p0] + r1;
    LookupCons(p0, r1, key);
    LookupCons(p1, r2, key);
    LookupCons(p2, rest, key);
  }

  lemma ParseRenderParam(p: Param)
    requires '=' !in p.key
    ensures ParseParam(RenderParam(p)) == p
  {
    var s := p.key + "=" + p.value;
    assert s == p.key + ['='] + p.value;
    IndexOfAfter(p.key, '=', p.value);
    assert s[..|p.key|] == p.key;
    assert s[|p.key| + 1..] == p.value;
  }

  /** Reading a rendered query gives back exactly the parameters it was rendered from. */
  lemma QueryRoundTrip(ps: seq<Param>)
    requires |ps| > 0
    requires forall i :: 0 <= i < |ps| ==> Safe(ps[i])
    ensures ParseQuery(Query(ps)) == ps
  {
    var parts := RenderAll(ps);
    forall i | 0 <= i < |parts|
      ensures '&' !in parts[i]
    {
      assert parts[i] == ps[i].key + "=" + ps[i].value;
    }
    SplitJoin(parts, '&');
    forall i | 0 <= i < |ps|
      ensures ParseParam(parts[i]) == ps[i]
    {
      ParseRenderParam(ps[i]);
    }
  }
}
