/**
 * The request path ListFiles builds from its optional parameters
 * (client.go:471-487): "/v1/files", then, when parameters are given, "?" and
 * one "key=value&" per parameter that is set, in a fixed order. Values are
 * written as they are, without URL escaping.
 */
module FilesQuery {
  import opened Wrappers

  /** ListFilesParams (files.go:40-56); a nil pointer is `None`. */
  datatype ListFilesParams = ListFilesParams(page: int, pageSize: int, purpose: string, search: string)

  /** One `key=value` pair of a query string. */
  datatype Param = Param(key: string, value: string)

  const FilesPathBase: string := "/v1/files"

  predicate IsDigit(c: char) {
    '0' <= c <= '9'
  }

  function DigitChar(d: nat): (c: char)
    requires d < 10
    ensures IsDigit(c) && c as int - '0' as int == d
  {
    ('0' as int + d) as char
  }

  /** fmt.Sprintf("%d", n) for a non-negative n: decimal digits, no leading zero. */
  function NatToDecimal(n: nat): (s: string)
    ensures |s| >= 1
    ensures forall i :: 0 <= i < |s| ==> IsDigit(s[i])
    ensures n > 0 ==> s[0] != '0'
    decreases n
  {
    if n < 10 then [DigitChar(n)] else NatToDecimal(n / 10) + [DigitChar(n % 10)]
  }

  function DigitValue(c: char): nat
    requires IsDigit(c)
  {
    c as int - '0' as int
  }

  /** The number a string of decimal digits denotes. */
  function DecimalValue(s: string): nat
    requires forall i :: 0 <= i < |s| ==> IsDigit(s[i])
    decreases |s|
  {
    if |s| == 0 then 0 else DecimalValue(s[..|s| - 1]) * 10 + DigitValue(s[|s| - 1])
  }

  /** The decimal rendering loses nothing: reading it back gives the number. */
  lemma {:induction false} DecimalRoundTrip(n: nat)
    ensures DecimalValue(NatToDecimal(n)) == n
    decreases n
  {
    if n >= 10 {
      DecimalRoundTrip(n / 10);
      var s := NatToDecimal(n);
      assert s[..|s| - 1] == NatToDecimal(n / 10);
    }
  }

  /** The pair for a positive count, or nothing. */
  function CountParam(key: string, n: int): seq<Param> {
    if n > 0 then [Param(key, NatToDecimal(n))] else []
  }

  /** The pair for a non-empty text, or nothing. */
  function TextParam(key: string, v: string): seq<Param> {
    if v != "" then [Param(key, v)] else []
  }

  /** The query parameters ListFiles sets, in the order it writes them (client.go:475-486). */
  function QueryParams(p: ListFilesParams): seq<Param> {
    CountParam("page", p.page) + CountParam("page_size", p.pageSize)
    + TextParam("purpose", p.purpose) + TextParam("search", p.search)
  }

  /** One parameter as ListFiles formats it, "key=value&". */
  function Field(x: Param): string {
    x.key + "=" + x.value + "&"
  }

  /** The parameters written one after another. */
  function Render(ps: seq<Param>): string
    decreases |ps|
  {
    if |ps| == 0 then "" else Field(ps[0]) + Render(ps[1..])
  }

  /** The path ListFiles requests. */
  function FilesPath(params: Option<ListFilesParams>): string {
    match params
    case None => FilesPathBase
    case Some(p) => FilesPathBase + "?" + Render(QueryParams(p))
  }

  /**
   * ListFiles' path building (client.go:472-487), growing the path one
   * formatted field at a time the way the source does.
   */
  method ListFilesPath(params: Option<ListFilesParams>) returns (path: string)
    ensures path == FilesPath(params)
  {
    path := FilesPathBase;
    if params.Some? {
      var p := params.value;
      path := path + "?";
      ghost var ps: seq<Param> := [];
      if p.page > 0 {
        var x := Param("page", NatToDecimal(p.page));
        Extend(path, ps, x);
        path, ps := path + Field(x), ps + [x];
      }
      assert ps == CountParam("page", p.page);
      ghost var ps1 := ps;
      if p.pageSize > 0 {
        var x := Param("page_size", NatToDecimal(p.pageSize));
        Extend(path, ps, x);
        path, ps := path + Field(x), ps + [x];
      }
      assert ps == ps1 + CountParam("page_size", p.pageSize);
      ghost var ps2 := ps;
      if p.purpose != "" {
        var x := Param("purpose", p.purpose);
        Extend(path, ps, x);
        path, ps := path + Field(x), ps + [x];
      }
      assert ps == ps2 + TextParam("purpose", p.purpose);
      ghost var ps3 := ps;
      if p.search != "" {
        var x := Param("search", p.search);
        Extend(path, ps, x);
        path, ps := path + Field(x), ps + [x];
      }
      assert ps == ps3 + TextParam("search", p.search);
    }
  }

  /** One more formatted field extends the rendered query by one pair. */
  lemma Extend(path: string, ps: seq<Param>, x: Param)
    requires path == FilesPathBase + "?" + Render(ps)
    ensures path + Field(x) == FilesPathBase + "?" + Render(ps + [x])
  {
    RenderSnoc(ps, x);
  }

  lemma {:induction false} RenderSnoc(ps: seq<Param>, x: Param)
    ensures Render(ps + [x]) == Render(ps) + Field(x)
    decreases |ps|
  {
    if |ps| == 0 {
      assert ps + [x] == [x];
      assert [x][1..] == [];
    } else {
      assert (ps + [x])[0] == ps[0];
      assert (ps + [x])[1..] == ps[1..] + [x];
      RenderSnoc(ps[1..], x);
    }
  }

  /** The first index of `c` in `s`, or |s| when it does not occur. */
  function IndexOf(s: string, c: char): (k: nat)
    ensures k <= |s|
    ensures k < |s| ==> s[k] == c
    ensures forall i :: 0 <= i < k ==> s[i] != c
    decreases |s|
  {
    if |s| == 0 then 0 else if s[0] == c then 0 else 1 + IndexOf(s[1..], c)
  }

  /** Splitting a query string back into its pairs: fields end at '&', a key ends at its first '='. */
  function ParseQuery(q: string): (ps: seq<Param>)
    decreases |q|
  {
    if |q| == 0 then []
    else
      var amp := IndexOf(q, '&');
      var field := q[..amp];
      var eq := IndexOf(field, '=');
      var param := Param(field[..eq], if eq < |field| then field[eq + 1..] else "");
      if amp < |q| then [param] + ParseQuery(q[amp + 1..]) else [param]
  }

  /** A pair that survives rendering and parsing: no '&' anywhere, no '=' in the key. */
  predicate Unambiguous(x: Param) {
    '&' !in x.key && '=' !in x.key && '&' !in x.value
  }

  lemma IndexOfIs(s: string, c: char, k: nat)
    requires k < |s| && s[k] == c
    requires forall i :: 0 <= i < k ==> s[i] != c
    ensures IndexOf(s, c) == k
  {
  }

  /** The field of one unambiguous pair splits off the front of a query as that pair. */
  lemma ParseField(x: Param, rest: string)
    requires Unambiguous(x)
    ensures ParseQuery(Field(x) + rest) == [x] + ParseQuery(rest)
  {
    var head := x.key + "=" + x.value;
    var q := Field(x) + rest;
    assert q == head + "&" + rest;
    forall i | 0 <= i < |head|
      ensures head[i] != '&'
    {
      if i < |x.key| {
        assert head[i] == x.key[i];
      } else if i > |x.key| {
        assert head[i] == x.value[i - |x.key| - 1];
      }
    }
    IndexOfIs(q, '&', |head|);
    assert q[..|head|] == head;
    assert q[|head| + 1..] == rest;
    forall i | 0 <= i < |x.key|
      ensures head[i] != '='
    {
      assert head[i] == x.key[i];
    }
    IndexOfIs(head, '=', |x.key|);
    assert head[..|x.key|] == x.key;
    assert head[|x.key| + 1..] == x.value;
  }

  /** Rendering then parsing gives the pairs back, as long as no value needs escaping. */
  lemma {:induction false} ParseRenderRoundTrip(ps: seq<Param>)
    requires forall i :: 0 <= i < |ps| ==> Unambiguous(ps[i])
    ensures ParseQuery(Render(ps)) == ps
    decreases |ps|
  {
    if |ps| > 0 {
      ParseField(ps[0], Render(ps[1..]));
      ParseRenderRoundTrip(ps[1..]);
    }
  }

  /** Every pair of a list survives rendering and parsing. */
  predicate AllUnambiguous(ps: seq<Param>) {
    forall i :: 0 <= i < |ps| ==> Unambiguous(ps[i])
  }

  lemma AllUnambiguousAppend(a: seq<Param>, b: seq<Param>)
    requires AllUnambiguous(a) && AllUnambiguous(b)
    ensures AllUnambiguous(a + b)
  {
    forall i | 0 <= i < |a + b|
      ensures Unambiguous((a + b)[i])
    {
      if i < |a| {
        assert (a + b)[i] == a[i];
      } else {
        assert (a + b)[i] == b[i - |a|];
      }
    }
  }

  lemma CountParamUnambiguous(key: string, n: int)
    requires '&' !in key && '=' !in key
    ensures AllUnambiguous(CountParam(key, n))
  {
    if n > 0 {
      var v := NatToDecimal(n);
      assert forall i :: 0 <= i < |v| ==> v[i] != '&';
      assert Unambiguous(Param(key, v));
    }
  }

  lemma TextParamUnambiguous(key: string, v: string)
    requires '&' !in key && '=' !in key && '&' !in v
    ensures AllUnambiguous(TextParam(key, v))
  {
  }

  /**
   * Reading the query of a ListFiles path gives back exactly the parameters
   * that were set, in the fixed order, provided purpose and search hold no '&'.
   */
  lemma FilesPathRoundTrip(p: ListFilesParams)
    requires '&' !in p.purpose && '&' !in p.search
    ensures var path := FilesPath(Some(p));
            && path[..|FilesPathBase| + 1] == FilesPathBase + "?"
            && ParseQuery(path[|FilesPathBase| + 1..]) == QueryParams(p)
  {
    var a, b, c, d := CountParam("page", p.page), CountParam("page_size", p.pageSize),
                      TextParam("purpose", p.purpose), TextParam("search", p.search);
    CountParamUnambiguous("page", p.page);
    CountParamUnambiguous("page_size", p.pageSize);
    TextParamUnambiguous("purpose", p.purpose);
    TextParamUnambiguous("search", p.search);
    AllUnambiguousAppend(a, b);
    AllUnambiguousAppend(a + b, c);
    AllUnambiguousAppend(a + b + c, d);
    var ps := QueryParams(p);
    ParseRenderRoundTrip(ps);
    var path := FilesPath(Some(p));
    assert path[|FilesPathBase| + 1..] == Render(ps);
  }

  /** The keys of a parameter list, in order. */
  function Keys(ps: seq<Param>): (ks: seq<string>)
    ensures |ks| == |ps|
    ensures forall i :: 0 <= i < |ps| ==> ks[i] == ps[i].key
    decreases |ps|
  {
    if |ps| == 0 then [] else [ps[0].key] + Keys(ps[1..])
  }

  lemma KeysAppend(a: seq<Param>, b: seq<Param>)
    ensures Keys(a + b) == Keys(a) + Keys(b)
  {
    var l, r := Keys(a + b), Keys(a) + Keys(b);
    forall i | 0 <= i < |l|
      ensures l[i] == r[i]
    {
      if i < |a| {
        assert (a + b)[i] == a[i];
      } else {
        assert (a + b)[i] == b[i - |a|];
      }
    }
  }

  lemma KeysOfCount(key: string, n: int)
    ensures Keys(CountParam(key, n)) == if n > 0 then [key] else []
  {
  }

  lemma KeysOfText(key: string, v: string)
    ensures Keys(TextParam(key, v)) == if v != "" then [key] else []
  {
  }

  /**
   * ListFiles writes its keys in a fixed order, each exactly when its
   * parameter is set: a positive page or page size, a non-empty purpose or
   * search (client.go:475-486).
   */
  lemma QueryKeys(p: ListFilesParams)
    ensures Keys(QueryParams(p))
            == (if p.page > 0 then ["page"] else [])
               + (if p.pageSize > 0 then ["page_size"] else [])
               + (if p.purpose != "" then ["purpose"] else [])
               + (if p.search != "" then ["search"] else [])
  {
    var a, b, c, d := CountParam("page", p.page), CountParam("page_size", p.pageSize),
                      TextParam("purpose", p.purpose), TextParam("search", p.search);
    KeysOfCount("page", p.page);
    KeysOfCount("page_size", p.pageSize);
    KeysOfText("purpose", p.purpose);
    KeysOfText("search", p.search);
    KeysAppend(a + b + c, d);
    KeysAppend(a + b, c);
    KeysAppend(a, b);
  }

  lemma SmallDecimals()
    ensures NatToDecimal(2) == "2" && NatToDecimal(10) == "10"
  {
    assert NatToDecimal(10) == NatToDecimal(1) + [DigitChar(0)];
  }

  lemma RenderThree(x: Param, y: Param, z: Param)
    ensures Render([x] + [y] + [z]) == Field(x) + Field(y) + Field(z)
  {
    RenderSnoc([], x);
    assert [] + [x] == [x];
    RenderSnoc([x], y);
    RenderSnoc([x] + [y], z);
  }

  lemma ExampleParams()
    ensures QueryParams(ListFilesParams(2, 10, "fine-tune", ""))
            == [Param("page", "2")] + [Param("page_size", "10")] + [Param("purpose", "fine-tune")]
  {
    SmallDecimals();
  }

  /**
   * The paged example of client_test.go:335-357: page 2, page size 10 and
   * purpose "fine-tune" give all three pairs in order, each ended by '&'.
   */
  lemma PagedListExample(p: ListFilesParams)
    requires p == ListFilesParams(2, 10, "fine-tune", "")
    ensures FilesPath(Some(p)) == "/v1/files" + "?" + "page=2&" + "page_size=10&" + "purpose=fine-tune&"
  {
    ExampleParams();
    RenderThree(Param("page", "2"), Param("page_size", "10"), Param("purpose", "fine-tune"));
    assert Field(Param("page", "2")) == "page=2&";
    assert Field(Param("page_size", "10")) == "page_size=10&";
    assert Field(Param("purpose", "fine-tune")) == "purpose=fine-tune&";
  }

  /**
   * Without parameters the path is the bare collection (client_test.go:294-333);
   * parameters that are all unset still add the '?'.
   */
  lemma UnpagedListExamples()
    ensures FilesPath(None) == "/v1/files"
    ensures FilesPath(Some(ListFilesParams(0, 0, "", ""))) == "/v1/files?"
  {
    assert QueryParams(ListFilesParams(0, 0, "", "")) == [];
  }

  /**
   * Values are not escaped, so different parameters can give the same path:
   * a purpose holding "&search=" reads as a purpose and a search.
   */
  lemma UnescapedValuesCollide(p: ListFilesParams, q: ListFilesParams)
    requires p == ListFilesParams(0, 0, "batch&search=x", "")
    requires q == ListFilesParams(0, 0, "batch", "x")
    ensures p != q
    ensures FilesPath(Some(p)) == FilesPath(Some(q))
  {
    var one := Param("purpose", "batch&search=x");
    var x, y := Param("purpose", "batch"), Param("search", "x");
    CollidingParams(p, q);
    RenderSnoc([], one);
    assert [] + [one] == [one];
    RenderSnoc([], x);
    assert [] + [x] == [x];
    RenderSnoc([x], y);
    SplitField();
  }

  lemma CollidingParams(p: ListFilesParams, q: ListFilesParams)
    requires p == ListFilesParams(0, 0, "batch&search=x", "")
    requires q == ListFilesParams(0, 0, "batch", "x")
    ensures QueryParams(p) == [Param("purpose", "batch&search=x")]
    ensures QueryParams(q) == [Param("purpose", "batch")] + [Param("search", "x")]
  {
  }

  lemma SplitField()
    ensures Field(Param("purpose", "batch&search=x")) == Field(Param("purpose", "batch")) + Field(Param("search", "x"))
  {
  }
}
