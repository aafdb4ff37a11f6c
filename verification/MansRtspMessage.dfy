/** The message classes of MANSRTSP/B.1Message.cpp with their loops. */
module MansRtspMessage {
  import opened Bytes
  import opened R = MansRtsp

  // ----- the loops that push characters -----

  method TakeUntil(d: string, c: char) returns (taken: string, i: nat)
    ensures i == Until(d, c) && taken == d[..i]
  {
    i, taken := 0, "";
    while i < |d| && d[i] != c
      invariant i <= |d| && taken == d[..i] && Until(d, c) == i + Until(d[i..], c)
    {
      assert d[i..][1..] == d[i + 1..];
      taken := taken + [d[i]];
      i := i + 1;
    }
  }

  method TakeUntilBlank(d: string) returns (taken: string, i: nat)
    ensures i == UntilBlank(d) && taken == d[..i]
  {
    i, taken := 0, "";
    while i < |d| && !IsBlank(d[i])
      invariant i <= |d| && taken == d[..i] && UntilBlank(d) == i + UntilBlank(d[i..])
    {
      assert d[i..][1..] == d[i + 1..];
      taken := taken + [d[i]];
      i := i + 1;
    }
  }

  method TakeUntilBreak(d: string, stop: Stop) returns (taken: string, i: nat)
    ensures i == Break(d, stop) && taken == d[..i]
  {
    i, taken := 0, "";
    while i < |d| && !stop.At(d[i]) && i + 1 < |d| && !(d[i] == '\r' && d[i + 1] == '\n')
      invariant i <= |d| && taken == d[..i] && Break(d, stop) == i + Break(d[i..], stop)
    {
      assert d[i..][1..] == d[i + 1..] && d[i..][0] == d[i];
      taken := taken + [d[i]];
      i := i + 1;
    }
    assert |d[i..]| == |d| - i && (i < |d| ==> d[i..][0] == d[i]) && (i + 1 < |d| ==> d[i..][1] == d[i + 1]);
  }

  class StartLineObject {
    var method_: string
    var version: string
    var code: int
    var reason: string

    constructor ()
      ensures method_ == "" && version == ""
    {
      method_, version, code, reason := "", "", 0, "";
    }

    constructor Reply(code: int, version: string)
      ensures this.version == version && this.code == code && reason == if code == 200 then "OK" else ""
    {
      method_, this.version, this.code := "", version, code;
      reason := if code == 200 then "OK" else "";
    }

    method Parse(d: string) returns (n: nat)
      requires method_ == "" && version == ""
      modifies this
      ensures (StartLine(method_, version), n) == ParseStart(d)
    {
      var taken, e := TakeUntilBlank(d);
      method_ := Strip(taken);
      var i := Min(e + 1, |d|);
      var v;
      taken, v := TakeUntilBreak(d[i..], Line);
      version := Strip(taken);
      n := i + Min(v + 2, |d| - i);
    }

    method Encode(data: string) returns (r: string)
      ensures r == data + StartText(version, code, reason)
    {
      r := data + version;
      r := r + " ";
      r := r + Decimal(code);
      r := r + " ";
      r := r + reason;
      r := r + CRLF;
      assert r == data + StartText(version, code, reason);
    }
  }

  class ParameterObject {
    var name: string
    var value: string

    ghost function Model(): Param
      reads this
    {
      Param(name, value)
    }

    constructor ()
      ensures name == "" && value == ""
    {
      name, value := "", "";
    }

    constructor Of(p: Param)
      ensures Model() == p
    {
      name, value := p.name, p.value;
    }

    method Parse(d: string) returns (n: nat)
      requires name == "" && value == ""
      modifies this
      ensures (Model(), n) == ParseParam(d)
    {
      var taken, e := TakeUntil(d, '=');
      name := Strip(taken);
      var i := Min(e + 1, |d|);
      var rest, v := d[i..], 0;
      taken, v := TakeUntilBreak(rest, Semicolon);
      value := Strip(taken);
      n := i + (if v < |rest| && rest[v] == ';' then v + 1 else v);
    }

    method Encode(data: string) returns (r: string)
      ensures r == data + ParamText(Model())
    {
      r := data + name;
      r := r + "=";
      r := r + value;
      assert r == data + ParamText(Model());
    }
  }

  class HeaderObject {
    var name: string
    var value: string
    var params: seq<Param>

    ghost function Model(): Header
      reads this
    {
      Header(name, value, params)
    }

    constructor ()
      ensures Model() == Header("", "", [])
    {
      name, value, params := "", "", [];
    }

    constructor Of(h: Header)
      ensures Model() == h
    {
      name, value, params := h.name, h.value, h.params;
    }

    method ParseParameters(d: string) returns (n: nat)
      modifies this`params
      ensures params == old(params) + ParseParams(d).0 && n == ParseParams(d).1
    {
      hide ParseParam;
      var i, rest := 0, d;
      ghost var all := old(params) + ParseParams(d).0;
      while |rest| >= 2 && !(rest[0] == '\r' && rest[1] == '\n')
        invariant i + |rest| == |d| && i + ParseParams(rest).1 == ParseParams(d).1
        invariant params + ParseParams(rest).0 == all
        decreases |rest|
      {
        var p := new ParameterObject();
        var k := p.Parse(rest);
        Assoc(params, [p.Model()], ParseParams(rest[k..]).0);
        params := params + [Param(p.name, p.value)];
        i, rest := i + k, rest[k..];
      }
      NilRight(params);
      n := Min(i + 2, |d|);
    }

    method ParseHeaderValue(d: string) returns (n: nat)
      requires value == "" && params == []
      modifies this`value, this`params
      ensures (value, params, n) == ParseValue(d)
    {
      hide Strip, Break, ParseParams;
      var taken, v := TakeUntilBreak(d, SemicolonOrEquals);
      value := Strip(taken);
      if v < |d| && d[v] == ';' {
        var k := ParseParameters(d[v + 1..]);
        NilLeft(ParseParams(d[v + 1..]).0);
        n := Min(v + 1 + k + 1, |d|);
      } else if v < |d| && d[v] == '=' {
        value := "";
        n := ParseParameters(d);
        NilLeft(ParseParams(d).0);
      } else {
        n := Min(v + 2, |d|);
      }
    }

    method Parse(d: string) returns (n: nat)
      requires Model() == Header("", "", [])
      modifies this
      ensures (Model(), n) == ParseHeader(d)
    {
      hide ParseValue, Until, Strip;
      var taken, e := TakeUntil(d, ':');
      name := Strip(taken);
      var i := Min(e + 1, |d|);
      var k := ParseHeaderValue(d[i..]);
      n := i + k;
    }

    /** The separator test reads the last characters of everything printed so far. */
    method Encode(data: string) returns (r: string)
      ensures r == data + HeaderText(Model())
    {
      hide ParamsText, ParamText, Separated;
      r := data + name;
      r := r + ": ";
      r := r + value;
      var size, before := |r|, r;
      LineStart(data, name, value);
      SeparatedSeen(data, Model());
      var separated := size > 2 && r[size - 2] != ':' && r[size - 1] != ' ';
      r := EncodeParams(r, separated);
      r := r + CRLF;
      LineParts(data, name + ": " + value, ParamsText(params, separated));
    }

    method EncodeParams(data: string, separated: bool) returns (r: string)
      ensures r == data + ParamsText(params, separated)
    {
      hide ParamsText, ParamText;
      r := data;
      NoParamsText(data, separated);
      for i := 0 to |params|
        invariant r == data + ParamsText(params[..i], separated)
      {
        ParamsMore(params, i, separated);
        SeparatorFirst(data, ParamsText(params[..i], separated), ParamText(params[i]));
        if separated { r := r + "; "; }
        var p := new ParameterObject.Of(params[i]);
        r := p.Encode(r);
      }
      assert params[..|params|] == params;
    }
  }

  lemma NoParamsText(data: string, separated: bool)
    ensures data + ParamsText([], separated) == data
  {}

  lemma SeparatorFirst(a: string, b: string, p: string)
    ensures a + b + "; " + p == a + (b + "; " + p) && a + b + p == a + (b + "" + p)
  {}

  lemma LineStart(data: string, name: string, value: string)
    ensures data + name + ": " + value == data + (name + ": " + value)
  {}

  lemma LineParts(data: string, t: string, ps: string)
    ensures data + t + ps + CRLF == data + (t + ps + CRLF)
  {}

  lemma SeparatedSeen(data: string, h: Header)
    ensures var r := data + (h.name + ": " + h.value);
            |r| >= 2 && ((|r| > 2 && r[|r| - 2] != ':' && r[|r| - 1] != ' ') == Separated(h))
  {
    var t := h.name + ": " + h.value;
    var r := data + t;
    assert r[|r| - 2] == t[|t| - 2] && r[|r| - 1] == t[|t| - 1];
    if |r| == 2 { assert t == ": "; }
  }

  lemma {:induction false} ParamsConcat(a: seq<Param>, b: seq<Param>, separated: bool)
    ensures ParamsText(a + b, separated) == ParamsText(a, separated) + ParamsText(b, separated)
  {
    if a == [] {
      assert a + b == b;
      assert "" + ParamsText(b, separated) == ParamsText(b, separated);
    } else {
      ParamsConcat(a[1..], b, separated);
      assert (a + b)[1..] == a[1..] + b && (a + b)[0] == a[0];
      FirstText(if separated then "; " else "", ParamText(a[0]), ParamsText(a[1..], separated), ParamsText(b, separated));
    }
  }

  lemma FirstText(s: string, p: string, t: string, u: string)
    ensures s + p + (t + u) == s + p + t + u
  {}

  lemma ParamsMore(ps: seq<Param>, i: nat, separated: bool)
    requires i < |ps|
    ensures ParamsText(ps[..i + 1], separated)
         == ParamsText(ps[..i], separated) + (if separated then "; " else "") + ParamText(ps[i])
  {
    assert ps[..i + 1] == ps[..i] + [ps[i]];
    ParamsConcat(ps[..i], [ps[i]], separated);
    OneText(ps[i], separated);
    FirstText(ParamsText(ps[..i], separated), if separated then "; " else "", ParamText(ps[i]), "");
  }

  lemma OneText(p: Param, separated: bool)
    ensures ParamsText([p], separated) == (if separated then "; " else "") + ParamText(p)
  {
    assert ParamsText([], separated) == "";
  }

  lemma Further(d: string, i: nat, k: nat)
    requires i + k <= |d|
    ensures d[i..][k..] == d[i + k..]
  {}

  lemma BodyIs(d: string, i: nat)
    requires i <= |d|
    ensures Body(d[i..]) == if i + 2 < |d| then d[i + 2..][..Until(d[i + 2..], 0 as char)] else ""
  {
    if i + 2 < |d| { Further(d, i, 2); }
  }

  lemma ParseIs(d: string)
    ensures var s := ParseStart(d);
            var h := ParseHeaders(d[s.1..]);
            R.Parse(d) == Message(s.0, h.0, Body(d[s.1..][h.1..]))
  {
    hide ParseStart, ParseHeaders, Body;
    Further(d, ParseStart(d).1, ParseHeaders(d[ParseStart(d).1..]).1);
  }

  lemma OneHeader(rest: string)
    requires |rest| >= 2 && !(rest[0] == '\r' && rest[1] == '\n')
    ensures var h := ParseHeader(rest);
            && 0 < h.1 <= |rest|
            && ParseHeaders(rest) == ([h.0] + ParseHeaders(rest[h.1..]).0, h.1 + ParseHeaders(rest[h.1..]).1)
  {
    hide ParseHeader;
  }

  lemma NoHeader(rest: string)
    requires |rest| < 2 || (rest[0] == '\r' && rest[1] == '\n')
    ensures ParseHeaders(rest) == ([], 0)
  {}

  class MessageObject {
    const start: StartLineObject
    var headers: seq<Header>
    var body: string

    constructor ()
      ensures fresh(start) && start.method_ == "" && start.version == "" && headers == [] && body == ""
    {
      start := new StartLineObject();
      headers, body := [], "";
    }

    /** Parses the whole text, and always reports all of it consumed. */
    method Parse(d: string) returns (n: nat)
      requires start.method_ == "" && start.version == "" && headers == [] && body == ""
      modifies this, start
      ensures Message(StartLine(start.method_, start.version), headers, body) == R.Parse(d)
      ensures n == |d|
    {
      hide ParseHeader, ParseHeaders, ParseStart, Body, Until, R.Parse;
      var i := start.Parse(d);
      var rest := d[i..];
      ghost var first, after := i, rest;
      while |rest| >= 2 && !(rest[0] == '\r' && rest[1] == '\n')
        invariant i + |rest| == |d| && i + ParseHeaders(rest).1 == first + ParseHeaders(after).1
        invariant start.method_ == ParseStart(d).0.method_ && start.version == ParseStart(d).0.version
        invariant headers + ParseHeaders(rest).0 == ParseHeaders(after).0
        invariant rest == d[i..] && body == ""
        decreases |rest|
      {
        OneHeader(rest);
        var h := new HeaderObject();
        var k := h.Parse(rest);
        Assoc(headers, [h.Model()], ParseHeaders(rest[k..]).0);
        Further(d, i, k);
        headers := headers + [Header(h.name, h.value, h.params)];
        i, rest := i + k, rest[k..];
      }
      NoHeader(rest);
      NilRight(headers);
      if i + 2 < |d| {
        var e;
        body, e := TakeUntil(d[i + 2..], 0 as char);
      }
      BodyIs(d, i);
      Further(d, first, ParseHeaders(after).1);
      ParseIs(d);
      n := |d|;
    }

    method Encode(data: string) returns (r: string)
      ensures r == data + Text(start.version, start.code, start.reason, headers, body)
    {
      hide HeaderText, StartText, HeadersText;
      r := start.Encode(data);
      ghost var before := r;
      NoText(before);
      for i := 0 to |headers|
        invariant r == before + HeadersText(headers[..i])
      {
        HeadersOneMore(headers, i);
        Assoc(before, HeadersText(headers[..i]), HeaderText(headers[i]));
        var h := new HeaderObject.Of(headers[i]);
        r := h.Encode(r);
      }
      assert headers[..|headers|] == headers;
      r := r + CRLF;
      if |body| != 0 { r := r + body; } else { NilRight(r); }
      TextParts(data, StartText(start.version, start.code, start.reason), HeadersText(headers), body);
    }
  }

  lemma NoText(before: string)
    ensures before + HeadersText([]) == before
  {}

  lemma TextParts(data: string, s: string, hs: string, body: string)
    ensures data + s + hs + CRLF + body == data + (s + hs + CRLF + body)
  {}

  lemma {:induction false} HeadersConcat(a: seq<Header>, b: seq<Header>)
    ensures HeadersText(a + b) == HeadersText(a) + HeadersText(b)
  {
    hide HeaderText;
    if a == [] {
      assert a + b == b;
      assert "" + HeadersText(b) == HeadersText(b);
    } else {
      HeadersConcat(a[1..], b);
      assert (a + b)[1..] == a[1..] + b && (a + b)[0] == a[0];
      assert HeaderText(a[0]) + (HeadersText(a[1..]) + HeadersText(b)) == HeaderText(a[0]) + HeadersText(a[1..]) + HeadersText(b);
    }
  }

  lemma HeadersOneMore(hs: seq<Header>, i: nat)
    requires i < |hs|
    ensures HeadersText(hs[..i + 1]) == HeadersText(hs[..i]) + HeaderText(hs[i])
  {
    hide HeaderText;
    assert hs[..i + 1] == hs[..i] + [hs[i]];
    HeadersConcat(hs[..i], [hs[i]]);
    assert HeadersText([hs[i]]) == HeaderText(hs[i]) + "";
    assert HeaderText(hs[i]) + "" == HeaderText(hs[i]);
  }
}
