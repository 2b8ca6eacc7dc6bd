/** The few rules of the host language that the tools depend on: which values a
    test treats as false, how `d.get(k)` and `d[k]` differ, how a list
    comprehension stops at the first exception, and how `str.join` glues strings. */
module Python {
  import opened Wrappers

  /** Exceptions raised by the tools themselves or by the client library, other than
      the API's own exception (which carries a status and is modelled in `Remote`). */
  datatype Exception =
    | KeyError(key: string)   // `d[k]` on a dictionary without `k`
    | TypeError               // indexing a value that is not a dictionary, or an unexpected keyword argument
    | ConnectionError         // a client failure that is not an API exception
    | RuntimeError            // raised by the tools' own code to report a setup failure

  /** `if x:` on an optional list or string: absent and empty are both false. */
  predicate Truthy<T>(o: Option<seq<T>>) {
    o.Some? && |o.value| > 0
  }

  /** `if d:` on an optional dictionary. */
  predicate TruthyMap<K, V>(o: Option<map<K, V>>) {
    o.Some? && |o.value| > 0
  }

  /** `d.get(k)`: the value under `k`, or None. */
  function Get<K, V>(d: map<K, V>, k: K): (r: Option<V>)
    ensures r.Some? <==> k in d
    ensures r.Some? ==> r.value == d[k]
  {
    if k in d then Some(d[k]) else None
  }

  /** The decimal digits of a natural number, most significant first. */
  function Digits(n: nat): (r: string)
    ensures |r| >= 1
    ensures forall i :: 0 <= i < |r| ==> '0' <= r[i] <= '9'
    decreases n
  {
    var d := ['0' + (n % 10) as char];
    if n < 10 then d else Digits(n / 10) + d
  }

  /** `str(n)` for an integer. */
  function Str(n: int): string {
    if n < 0 then "-" + Digits(-n) else Digits(n)
  }

  /** `str(x)` for an optional string: the string itself, or "None". */
  function StrOpt(o: Option<string>): string {
    if o.Some? then o.value else "None"
  }

  /** `str(x)` for an optional integer. */
  function StrOptInt(o: Option<int>): string {
    if o.Some? then Str(o.value) else "None"
  }

  /** `sep.join(parts)`. */
  function Join(parts: seq<string>, sep: string): string
    decreases |parts|
  {
    if |parts| == 0 then ""
    else if |parts| == 1 then parts[0]
    else parts[0] + sep + Join(parts[1..], sep)
  }

  lemma JoinCons(first: string, rest: seq<string>, sep: string)
    requires |rest| >= 1
    ensures Join([first] + rest, sep) == first + sep + Join(rest, sep)
  {
    assert ([first] + rest)[1..] == rest;
  }

  /** `sep.join` of four parts. */
  lemma JoinFour(a: string, b: string, c: string, d: string, sep: string)
    ensures Join([a, b, c, d], sep) == a + sep + b + sep + c + sep + d
  {
    JoinCons(c, [d], sep);
    assert [c] + [d] == [c, d];
    JoinCons(b, [c, d], sep);
    assert [b] + [c, d] == [b, c, d];
    JoinCons(a, [b, c, d], sep);
    assert [a] + [b, c, d] == [a, b, c, d];
  }

  /** `sep.join` of five parts. */
  lemma JoinFive(a: string, b: string, c: string, d: string, e: string, sep: string)
    ensures Join([a, b, c, d, e], sep) == a + sep + b + sep + c + sep + d + sep + e
  {
    JoinFour(b, c, d, e, sep);
    JoinCons(a, [b, c, d, e], sep);
    assert [a] + [b, c, d, e] == [a, b, c, d, e];
  }

  /** `[f(x) for x in xs]` where `f` may raise: elements are produced in order and
      the first exception stops the comprehension. */
  function Traverse<A, B>(xs: seq<A>, f: A -> Result<B, Exception>): (r: Result<seq<B>, Exception>)
    ensures r.Ok? <==> forall i :: 0 <= i < |xs| ==> f(xs[i]).Ok?
    ensures r.Ok? ==> |r.value| == |xs|
    ensures r.Ok? ==> forall i :: 0 <= i < |xs| ==> r.value[i] == f(xs[i]).value
    ensures r.Err? ==> exists i :: 0 <= i < |xs| && f(xs[i]) == Err(r.error) && forall j :: 0 <= j < i ==> f(xs[j]).Ok?
    decreases |xs|
  {
    if |xs| == 0 then Ok([])
    else
      match f(xs[0])
      case Err(e) => Err(e)
      case Ok(y) =>
        match Traverse(xs[1..], f)
        case Err(e) =>
          var i :| 0 <= i < |xs[1..]| && f(xs[1..][i]) == Err(e) && forall j :: 0 <= j < i ==> f(xs[1..][j]).Ok?;
          assert f(xs[i + 1]) == Err(e) && forall j :: 0 <= j < i + 1 ==> f(xs[j]).Ok?;
          Err(e)
        case Ok(ys) => Ok([y] + ys)
  }

  /** When every element before position `j` succeeds and the one at `j` fails, the
      comprehension fails with exactly that element's exception. */
  lemma TraverseFirstError<A, B>(xs: seq<A>, f: A -> Result<B, Exception>, j: nat)
    requires j < |xs| && f(xs[j]).Err?
    requires forall i :: 0 <= i < j ==> f(xs[i]).Ok?
    ensures Traverse(xs, f) == Err(f(xs[j]).error)
  {
    var r := Traverse(xs, f);
    var i :| 0 <= i < |xs| && f(xs[i]) == Err(r.error) && forall k :: 0 <= k < i ==> f(xs[k]).Ok?;
  }

  /** Extending a successful comprehension by one successful element appends its value. */
  lemma TraverseSnoc<A, B>(xs: seq<A>, x: A, f: A -> Result<B, Exception>)
    requires Traverse(xs, f).Ok? && f(x).Ok?
    ensures Traverse(xs + [x], f) == Ok(Traverse(xs, f).value + [f(x).value])
  {
    var ys := xs + [x];
    assert forall i :: 0 <= i < |ys| ==> f(ys[i]).Ok? by {
      forall i | 0 <= i < |ys| ensures f(ys[i]).Ok? {
        if i < |xs| { assert ys[i] == xs[i]; }
      }
    }
    var r := Traverse(ys, f).value;
    var expected := Traverse(xs, f).value + [f(x).value];
    assert |r| == |expected|;
    forall i | 0 <= i < |r| ensures r[i] == expected[i] {
      if i < |xs| { assert ys[i] == xs[i]; }
    }
    assert r == expected;
  }
}
