/** Exactly which messages come back from their printed text. */
module MansRtspProofs {
  import opened Bytes
  import opened MansRtsp

  // ----- what the printer can be given -----

  predicate Plain(s: string) {
    forall i :: 0 <= i < |s| ==> !IsSpace(s[i])
  }

  predicate Lacks(s: string, c: char) {
    forall i :: 0 <= i < |s| ==> s[i] != c
  }

  predicate ParamOk(p: Param) {
    Plain(p.name) && Plain(p.value) && Lacks(p.name, '=') && Lacks(p.name, ';') && Lacks(p.value, ';')
  }

  predicate ParamsOk(ps: seq<Param>) {
    forall i :: 0 <= i < |ps| ==> ParamOk(ps[i])
  }

  lemma ParamsParts(ps: seq<Param>)
    requires ps != [] && ParamsOk(ps)
    ensures ParamOk(ps[0]) && ParamsOk(ps[1..]) && ps == [ps[0]] + ps[1..]
    ensures ps[1..] == [] ==> ps == [ps[0]]
  {}

  predicate HeaderOk(h: Header) {
    && h.name != "" && Plain(h.name) && Lacks(h.name, ':')
    && Plain(h.value) && Lacks(h.value, ';') && Lacks(h.value, '=')
    && ParamsOk(h.params)
  }

  /** A value, or a single parameter in place of one. */
  predicate Simple(h: Header) {
    h.params == [] || (h.value == "" && |h.params| == 1)
  }

  // ----- scanning printed text -----

  lemma {:induction false} UntilIn(a: string, c: char, rest: string)
    requires Lacks(a, c)
    ensures Until(a + [c] + rest, c) == |a|
  {
    if a == "" {
      assert (a + [c] + rest)[0] == c;
    } else {
      UntilIn(a[1..], c, rest);
      assert (a + [c] + rest)[1..] == a[1..] + [c] + rest;
    }
  }

  predicate Free(a: string, stop: Stop) {
    forall i :: 0 <= i < |a| ==> !stop.At(a[i]) && a[i] != '\r'
  }

  lemma {:induction false} BreakIn(a: string, stop: Stop, rest: string)
    requires Free(a, stop) && rest != ""
    requires stop.At(rest[0]) || AtLineEnd(rest)
    ensures Break(a + rest, stop) == |a|
  {
    if a == "" {
      assert a + rest == rest;
    } else {
      BreakIn(a[1..], stop, rest);
      assert (a + rest)[1..] == a[1..] + rest;
    }
  }

  lemma {:induction false} StripPlain(s: string)
    requires Plain(s)
    ensures Strip(s) == s
  {
    if s != "" {
      StripPlain(s[1..]);
      assert [s[0]] + s[1..] == s;
    }
  }

  lemma StripLead(s: string)
    requires Plain(s)
    ensures Strip(" " + s) == s
  {
    StripPlain(s);
    assert (" " + s)[1..] == s;
  }

  lemma Drop(a: string, b: string)
    ensures (a + b)[|a|..] == b && (a + b)[..|a|] == a
  {}

  // ----- parameters -----

  lemma ParamSplits(name: string, value: string, rest: string)
    requires Lacks(name, '=') && Free(value, Semicolon) && rest != ""
    requires AtLineEnd(rest) || (rest != "" && rest[0] == ';')
    ensures ParseParam(name + ['='] + (value + rest))
         == (Param(Strip(name), Strip(value)), |name| + 1 + |value| + if rest[0] == ';' then 1 else 0)
  {
    hide Break, Strip, AtLineEnd, Free, Lacks, ParseParam;
    ValueScan(value, rest);
    ParamScan(name, value, value + rest);
  }

  lemma ValueScan(value: string, rest: string)
    requires Free(value, Semicolon) && rest != ""
    requires AtLineEnd(rest) || rest[0] == ';'
    ensures var tail := value + rest;
            Break(tail, Semicolon) == |value| < |tail| && tail[..|value|] == value && tail[|value|] == rest[0]
  {
    hide Break, AtLineEnd, Free;
    BreakIn(value, Semicolon, rest);
    ValueEnds(value, rest);
  }

  lemma ParamScan(name: string, value: string, tail: string)
    requires Lacks(name, '=') && Break(tail, Semicolon) == |value| < |tail| && tail[..|value|] == value
    ensures ParseParam(name + ['='] + tail)
         == (Param(Strip(name), Strip(value)), |name| + 1 + |value| + if tail[|value|] == ';' then 1 else 0)
  {
    hide Until, Break, Strip, Lacks, ParseParam;
    NameEnds(name, tail);
    ParamAt(name + ['='] + tail, |name|, tail, |value|);
  }

  lemma ParamAt(d: string, e: nat, tail: string, v: nat)
    requires Until(d, '=') == e < |d| && d[e + 1..] == tail && Break(tail, Semicolon) == v < |tail|
    ensures ParseParam(d)
         == (Param(Strip(d[..e]), Strip(tail[..v])), e + 1 + v + if tail[v] == ';' then 1 else 0)
  {
    hide Until, Break, Strip;
  }

  lemma NameEnds(name: string, rest: string)
    requires Lacks(name, '=')
    ensures var d := name + ['='] + rest;
            Until(d, '=') == |name| && d[..|name|] == name && d[|name| + 1..] == rest
  {
    UntilIn(name, '=', rest);
    Drop(name + ['='], rest);
    Front(name, ['='], rest);
  }

  lemma ValueEnds(value: string, rest: string)
    requires rest != ""
    ensures (value + rest)[..|value|] == value && (value + rest)[|value|] == rest[0]
  {}

  lemma Front(a: string, b: string, c: string)
    ensures (a + b + c)[..|a|] == a
  {}

  /** `lead` is the space the printer puts before a parameter. */
  lemma ParamReads(lead: string, p: Param, rest: string)
    requires ParamOk(p) && (lead == " " || lead == "")
    requires AtLineEnd(rest) || (rest != "" && rest[0] == ';')
    ensures ParseParam(lead + ParamText(p) + rest)
         == (p, |lead| + |ParamText(p)| + if rest[0] == ';' then 1 else 0)
  {
    hide ParseParam, Strip, Plain, Free, Lacks, ParamOk, ParamText, AtLineEnd;
    NotEmpty(rest);
    ParamClean(lead, p);
    ParamGroups(lead, p, rest);
    ParamSplits(lead + p.name, p.value, rest);
  }

  lemma NotEmpty(rest: string)
    requires AtLineEnd(rest) || (rest != "" && rest[0] == ';')
    ensures rest != ""
  {}

  lemma ParamClean(lead: string, p: Param)
    requires ParamOk(p) && (lead == " " || lead == "")
    ensures Strip(lead + p.name) == p.name && Strip(p.value) == p.value
    ensures Lacks(lead + p.name, '=') && Free(p.value, Semicolon)
  {
    PlainFree(p.value, Semicolon);
    StripPlain(p.value);
    LeadingSpace(lead, p.name);
  }

  lemma ParamGroups(lead: string, p: Param, rest: string)
    ensures lead + ParamText(p) + rest == lead + p.name + ['='] + (p.value + rest)
    ensures |ParamText(p)| == |p.name| + 1 + |p.value|
  {}

  lemma LeadingSpace(lead: string, name: string)
    requires Plain(name) && (lead == " " || lead == "") && Lacks(name, '=')
    ensures Strip(lead + name) == name && Lacks(lead + name, '=')
  {
    StripLead(name);
    StripPlain(name);
    assert "" + name == name;
  }

  lemma PlainFree(a: string, stop: Stop)
    requires Plain(a) && Lacks(a, ';') && (stop != Semicolon ==> Lacks(a, '='))
    ensures Free(a, stop)
  {}

  lemma ParamsStep(p: Param, text: string, next: string)
    requires More(text + next) && ParseParam(text + next) == (p, |text|)
    ensures ParseParams(text + next) == ([p] + ParseParams(next).0, |text| + ParseParams(next).1)
  {
    Drop(text, next);
  }

  lemma LineOver(end: string)
    requires AtLineEnd(end)
    ensures ParseParams(end) == ([], 2)
  {}

  lemma NotOver(text: string, next: string)
    requires |text| >= 2 && text[0] != '\r'
    ensures More(text + next)
  {}

  /** The last parameter of a line. */
  lemma LastParam(p: Param, end: string)
    requires ParamOk(p) && AtLineEnd(end)
    ensures ParseParams(" " + ParamText(p) + end) == ([p], 1 + |ParamText(p)| + 2)
  {
    ParamReads(" ", p, end);
    NotOver(" " + ParamText(p), end);
    LineOver(end);
    NilRight([p]);
    hide ParseParams, ParseParam, ParamText, ParamOk, More, AtLineEnd;
    ParamsStep(p, " " + ParamText(p), end);
  }

  lemma ParamReadsMore(p: Param, next: string)
    requires ParamOk(p)
    ensures ParseParam(" " + ParamText(p) + ";" + next) == (p, |ParamText(p)| + 2)
  {
    hide ParseParam, ParamText, ParamOk, AtLineEnd;
    BeforeSemicolon(" " + ParamText(p), next);
    ParamReads(" ", p, ";" + next);
  }

  /** A parameter with more after its semicolon. */
  lemma OtherParam(p: Param, next: string)
    requires ParamOk(p)
    ensures ParseParams(" " + ParamText(p) + ";" + next)
         == ([p] + ParseParams(next).0, |ParamText(p)| + 2 + ParseParams(next).1)
  {
    ParamReadsMore(p, next);
    NotOver(" " + ParamText(p) + ";", next);
    hide ParseParams, ParseParam, ParamText, ParamOk, More;
    ParamsStep(p, " " + ParamText(p) + ";", next);
  }

  lemma BeforeSemicolon(text: string, next: string)
    ensures text + ";" + next == text + (";" + next) && (";" + next)[0] == ';'
  {}

  /** The parameters after the first separator's semicolon, to the end of the line. */
  function Listed(ps: seq<Param>, end: string): string
    requires ps != []
  {
    ParamsText(ps, true)[1..] + end
  }

  lemma ListedOne(p: Param, end: string)
    ensures Listed([p], end) == " " + ParamText(p) + end
    ensures |ParamsText([p], true)| == 2 + |ParamText(p)|
  {
    assert ParamsText([p], true)[1..] == " " + ParamText(p);
  }

  lemma ListedMore(ps: seq<Param>, end: string)
    requires |ps| > 1
    ensures Listed(ps, end) == " " + ParamText(ps[0]) + ";" + Listed(ps[1..], end)
    ensures |ParamsText(ps, true)| == 2 + |ParamText(ps[0])| + |ParamsText(ps[1..], true)|
  {
    hide ParamText;
    var t := ParamsText(ps[1..], true);
    assert t[0] == ';' && t == ";" + t[1..];
    assert ParamsText(ps, true) == "; " + ParamText(ps[0]) + t;
  }

  lemma {:induction false} ParamsRead(ps: seq<Param>, end: string)
    requires ps != [] && ParamsOk(ps) && AtLineEnd(end)
    ensures ParseParams(Listed(ps, end)) == (ps, |ParamsText(ps, true)| - 1 + 2)
    decreases |ps|
  {
    ParamsParts(ps);
    hide ParseParams, ParamText, ParamOk, ParamsOk, ParamsText, AtLineEnd, Listed;
    if |ps| == 1 {
      OneRead(ps, end);
    } else {
      ParamsRead(ps[1..], end);
      OneMoreRead(ps, end);
    }
  }

  lemma OneRead(ps: seq<Param>, end: string)
    requires |ps| == 1 && ParamOk(ps[0]) && AtLineEnd(end)
    ensures ParseParams(Listed(ps, end)) == (ps, |ParamsText(ps, true)| - 1 + 2)
  {
    hide ParseParams, ParamText, ParamOk, ParamsText, AtLineEnd, Listed;
    ListedOne(ps[0], end);
    LastParam(ps[0], end);
    assert [ps[0]] == ps;
  }

  lemma OneMoreRead(ps: seq<Param>, end: string)
    requires |ps| > 1 && ParamOk(ps[0])
    requires ParseParams(Listed(ps[1..], end)) == (ps[1..], |ParamsText(ps[1..], true)| - 1 + 2)
    ensures ParseParams(Listed(ps, end)) == (ps, |ParamsText(ps, true)| - 1 + 2)
  {
    hide ParseParams, ParamText, ParamOk, ParamsText, Listed;
    ListedMore(ps, end);
    OtherParam(ps[0], Listed(ps[1..], end));
    assert [ps[0]] + ps[1..] == ps;
  }

  /** Without separators the parameters read as one. */
  lemma ParamsMerge(ps: seq<Param>, end: string)
    requires ps != [] && ParamsOk(ps) && AtLineEnd(end)
    ensures var r := ParseParams(" " + ParamsText(ps, false) + end);
            |r.0| == 1 && r.1 == 1 + |ParamsText(ps, false)| + 2 && (|ps| == 1 ==> r.0 == ps)
  {
    var p, more := ps[0], ParamsText(ps[1..], false);
    var q := Param(p.name, p.value + more);
    ParamsParts(ps);
    MoreText(ps[1..]);
    Merged(p, ps);
    OkMerged(p, more);
    hide ParseParams, ParamText, ParamsText, ParamOk, ParamsOk, AtLineEnd;
    LastParam(q, end);
  }

  lemma Merged(p: Param, ps: seq<Param>)
    requires ps != [] && p == ps[0]
    ensures ParamsText(ps, false) == ParamText(Param(p.name, p.value + ParamsText(ps[1..], false)))
    ensures ps[1..] == [] ==> Param(p.name, p.value + ParamsText(ps[1..], false)) == p
  {}

  lemma OkMerged(p: Param, more: string)
    requires ParamOk(p) && Plain(more) && Lacks(more, ';')
    ensures ParamOk(Param(p.name, p.value + more))
  {}

  lemma {:induction false} MoreText(ps: seq<Param>)
    requires ParamsOk(ps)
    ensures Plain(ParamsText(ps, false)) && Lacks(ParamsText(ps, false), ';')
  {
    if ps != [] {
      MoreText(ps[1..]);
      OkMerged(ps[0], ParamsText(ps[1..], false));
      Merged(ps[0], ps);
    }
  }

  // ----- values -----

  lemma ValueOnly(value: string, end: string)
    requires Plain(value) && Lacks(value, ';') && Lacks(value, '=') && AtLineEnd(end)
    ensures ParseValue(" " + value + end) == (value, [], 1 + |value| + 2)
  {
    SpaceFree(value, SemicolonOrEquals);
    StripLead(value);
    NotStop(end);
    hide Lacks, Free, Strip, Break, AtLineEnd;
    BreakIn(" " + value, SemicolonOrEquals, end);
    ValueEnds(" " + value, end);
  }

  lemma NotStop(end: string)
    requires AtLineEnd(end)
    ensures |end| >= 2 && end[0] != ';' && end[0] != '='
  {}

  lemma SpaceFree(a: string, stop: Stop)
    requires Plain(a) && Lacks(a, ';') && Lacks(a, '=')
    ensures Free(" " + a, stop)
  {}

  /** The scan for a value that finds the parameter's equals sign first. */
  lemma ValueLost(before: string, after: string)
    requires Plain(before) && Lacks(before, ';') && Lacks(before, '=')
    ensures var d := " " + before + (['='] + after);
            ParseValue(d) == ("", ParseParams(d).0, ParseParams(d).1)
  {
    SpaceFree(before, SemicolonOrEquals);
    hide Lacks, Free, Strip, Break, ParseParams;
    BreakIn(" " + before, SemicolonOrEquals, ['='] + after);
    ValueEnds(" " + before, ['='] + after);
  }

  /** The scan for a value that finds a semicolon first. */
  lemma ValueSplits(value: string, t: string)
    requires Plain(value) && Lacks(value, ';') && Lacks(value, '=') && t != "" && t[0] == ';'
    ensures var r := ParseParams(t[1..]);
            ParseValue(" " + value + t) == (value, r.0, Min(1 + |value| + 1 + r.1 + 1, 1 + |value| + |t|))
  {
    hide Lacks, Free, Strip, Break, ParseParams, Plain, ParseValue;
    SpaceFree(value, SemicolonOrEquals);
    StripLead(value);
    var d := " " + value + t;
    BreakIn(" " + value, SemicolonOrEquals, t);
    ValueEnds(" " + value, t);
    AfterOne(" " + value, t);
    ValueAt(d, 1 + |value|);
  }

  lemma ValueAt(d: string, v: nat)
    requires Break(d, SemicolonOrEquals) == v < |d| && d[v] == ';'
    ensures var r := ParseParams(d[v + 1..]);
            ParseValue(d) == (Strip(d[..v]), r.0, Min(v + 1 + r.1 + 1, |d|))
  {
    hide Strip, Break, ParseParams;
  }

  lemma ListedParts(ps: seq<Param>, end: string)
    requires ps != []
    ensures var t := ParamsText(ps, true) + end;
            t != "" && t[0] == ';' && t[1..] == Listed(ps, end) && |t| == |ParamsText(ps, true)| + |end|
  {}

  lemma ValueAndParams(value: string, ps: seq<Param>, end: string)
    requires Plain(value) && Lacks(value, ';') && Lacks(value, '=') && AtLineEnd(end)
    requires ps != [] && ParamsOk(ps)
    ensures var t := ParamsText(ps, true);
            ParseValue(" " + value + (t + end)) == (value, ps, Min(1 + |value| + |t| + 3, 1 + |value| + |t| + |end|))
  {
    hide ParseValue, ParseParams, ParamsText, Listed, AtLineEnd, ParamsOk, Plain;
    ListedParts(ps, end);
    ValueSplits(value, ParamsText(ps, true) + end);
    ParamsRead(ps, end);
  }

  lemma AfterOne(a: string, t: string)
    requires t != ""
    ensures (a + t)[|a| + 1..] == t[1..]
  {}

  // ----- headers -----

  /** The printed header after its colon, and then `end`. */
  function LineText(h: Header, end: string): string {
    " " + h.value + (ParamsText(h.params, Separated(h)) + end)
  }

  lemma HeaderGroups(h: Header, rest: string)
    ensures HeaderText(h) + rest == h.name + [':'] + LineText(h, CRLF + rest)
    ensures |HeaderText(h)| == |h.name| + 1 + |LineText(h, CRLF + rest)| - |rest|
    ensures |LineText(h, CRLF + rest)| == 1 + |h.value| + |ParamsText(h.params, Separated(h))| + 2 + |rest|
  {
    hide ParamsText, Separated;
  }

  lemma HeaderSplits(name: string, t: string)
    requires Lacks(name, ':') && Plain(name)
    ensures var v := ParseValue(t);
            ParseHeader(name + [':'] + t) == (Header(name, v.0, v.1), |name| + 1 + v.2)
  {
    hide Until, Strip, ParseValue, Plain;
    UntilIn(name, ':', t);
    Drop(name + [':'], t);
    Front(name, [':'], t);
    StripPlain(name);
  }

  lemma SeparatedIs(h: Header)
    requires Plain(h.value)
    ensures Separated(h) <==> h.value != "" && (|h.value| == 1 || h.value[|h.value| - 2] != ':')
  {
    var t := h.name + ": " + h.value;
    if h.value == "" {
      assert t == h.name + ": ";
    } else {
      assert t[|t| - 1] == h.value[|h.value| - 1];
      if |h.value| > 1 { assert t[|t| - 2] == h.value[|h.value| - 2]; }
    }
  }

  lemma HeaderParts(h: Header)
    requires HeaderOk(h)
    ensures Plain(h.name) && Lacks(h.name, ':')
    ensures Plain(h.value) && Lacks(h.value, ';') && Lacks(h.value, '=') && ParamsOk(h.params)
  {}

  /** A header whose line reads back as its value and parameters. */
  lemma HeaderIs(h: Header, rest: string, n: nat)
    requires HeaderOk(h) && ParseValue(LineText(h, CRLF + rest)) == (h.value, h.params, n)
    ensures ParseHeader(HeaderText(h) + rest) == (h, |h.name| + 1 + n)
  {
    hide ParseHeader, ParseValue, LineText, HeaderText, HeaderOk, Plain, Lacks;
    HeaderParts(h);
    HeaderGroups(h, rest);
    HeaderSplits(h.name, LineText(h, CRLF + rest));
  }

  /** A header in one of the two simple forms reads back whole. */
  lemma SimpleReads(h: Header, rest: string)
    requires HeaderOk(h) && Simple(h)
    ensures ParseHeader(HeaderText(h) + rest) == (h, |HeaderText(h)|)
  {
    hide ParseHeader, ParseValue, LineText, HeaderText, HeaderOk, Simple;
    var line := LineText(h, CRLF + rest);
    SimpleLine(h, CRLF + rest);
    HeaderGroups(h, rest);
    HeaderIs(h, rest, |line| - |CRLF + rest| + 2);
  }

  lemma SimpleLine(h: Header, end: string)
    requires HeaderOk(h) && Simple(h) && AtLineEnd(end)
    ensures |LineText(h, end)| >= |end|
    ensures ParseValue(LineText(h, end)) == (h.value, h.params, |LineText(h, end)| - |end| + 2)
  {
    if h.params == [] { ValueLine(h, end); } else { ParamLine(h, end); }
  }

  lemma ValueLine(h: Header, end: string)
    requires HeaderOk(h) && h.params == [] && AtLineEnd(end)
    ensures |LineText(h, end)| == 1 + |h.value| + |end|
    ensures ParseValue(LineText(h, end)) == (h.value, [], 1 + |h.value| + 2)
  {
    hide ParseValue, ParamsText, Separated, AtLineEnd, HeaderOk, Plain, Lacks;
    HeaderParts(h);
    NoParams(end);
    ValueOnly(h.value, end);
  }

  lemma ParamLine(h: Header, end: string)
    requires HeaderOk(h) && h.value == "" && |h.params| == 1 && AtLineEnd(end)
    ensures |LineText(h, end)| >= |end|
    ensures ParseValue(LineText(h, end)) == ("", h.params, |LineText(h, end)| - |end| + 2)
  {
    hide ParseValue, ParamsText, Separated, LineText, AtLineEnd, HeaderOk, Plain, Lacks, ParamsOk;
    HeaderParts(h);
    SeparatedIs(h);
    NothingBefore(h, end);
    OneParam(h.params, end);
  }

  lemma NoParams(end: string)
    ensures ParamsText([], true) + end == end && ParamsText([], false) + end == end
  {}

  lemma NothingBefore(h: Header, end: string)
    requires h.value == "" && !Separated(h)
    ensures LineText(h, end) == " " + ParamsText(h.params, false) + end
  {
    hide ParamsText;
  }

  /** Parameters without separators after an empty value. */
  lemma OneParam(ps: seq<Param>, end: string)
    requires ps != [] && ParamsOk(ps) && AtLineEnd(end)
    ensures var v := ParseValue(" " + ParamsText(ps, false) + end);
            v.0 == "" && |v.1| == 1 && v.2 == 1 + |ParamsText(ps, false)| + 2 && (|ps| == 1 ==> v.1 == ps)
  {
    ParamsMerge(ps, end);
    ParamsParts(ps);
    var p := ps[0];
    var after := p.value + ParamsText(ps[1..], false) + end;
    Equals(p, ParamsText(ps[1..], false), end);
    ValueLost(p.name, after);
    hide ParseValue, ParseParams;
  }

  lemma Equals(p: Param, more: string, end: string)
    ensures " " + (ParamText(p) + more) + end == " " + p.name + (['='] + (p.value + more + end))
    ensures "" + ParamText(p) + more == ParamText(p) + more
  {}

  /** A value with separated parameters reads back, but one character too far. */
  lemma TailedReads(h: Header, rest: string)
    requires HeaderOk(h) && !Simple(h) && Separated(h)
    ensures ParseHeader(HeaderText(h) + rest) == (h, Min(|HeaderText(h)| + 1, |HeaderText(h) + rest|))
  {
    hide ParseHeader, ParseValue, LineText, HeaderText, HeaderOk, Simple, Separated, ParamsText;
    var line := LineText(h, CRLF + rest);
    TailedLine(h, CRLF + rest);
    HeaderGroups(h, rest);
    HeaderIs(h, rest, Min(|line| - |CRLF + rest| + 3, |line|));
  }

  lemma TailedLine(h: Header, end: string)
    requires HeaderOk(h) && !Simple(h) && Separated(h) && AtLineEnd(end)
    ensures |LineText(h, end)| >= |end|
    ensures ParseValue(LineText(h, end))
         == (h.value, h.params, Min(|LineText(h, end)| - |end| + 3, |LineText(h, end)|))
  {
    hide ParseValue, ParamsText, Separated, AtLineEnd, HeaderOk, Plain, Lacks, ParamsOk;
    HeaderParts(h);
    ValueAndParams(h.value, h.params, end);
  }

  /** Any other header reads back as a different one. */
  lemma OtherReads(h: Header, rest: string)
    requires HeaderOk(h) && !Simple(h) && !Separated(h)
    ensures ParseHeader(HeaderText(h) + rest).0 != h
  {
    hide ParseHeader, ParseValue, HeaderText, HeaderOk, ParamsText, LineText, Separated, Plain, Lacks, ParamsOk;
    var end := CRLF + rest;
    HeaderParts(h);
    HeaderGroups(h, rest);
    HeaderSplits(h.name, LineText(h, end));
    if h.value == "" {
      OneParam(h.params, end);
      NothingBefore(h, end);
    } else {
      ValueTaken(h, end);
    }
  }

  lemma ValueTaken(h: Header, end: string)
    requires HeaderOk(h) && h.params != [] && !Separated(h)
    ensures ParseValue(LineText(h, end)).0 == ""
  {
    hide ParseValue, HeaderOk, LineText, Separated, ParamsText, Plain, Lacks, ParamOk, ParamsOk;
    var p, more := h.params[0], ParamsText(h.params[1..], false);
    HeaderParts(h);
    ParamsParts(h.params);
    Joined(h.value, p);
    ValueFirst(h, p, more, end);
    ValueLost(h.value + p.name, p.value + more + end);
  }

  lemma Joined(value: string, p: Param)
    requires Plain(value) && Lacks(value, ';') && Lacks(value, '=') && ParamOk(p)
    ensures Plain(value + p.name) && Lacks(value + p.name, ';') && Lacks(value + p.name, '=')
  {}

  lemma ValueFirst(h: Header, p: Param, more: string, end: string)
    requires h.params != [] && !Separated(h) && p == h.params[0] && more == ParamsText(h.params[1..], false)
    ensures LineText(h, end) == " " + (h.value + p.name) + (['='] + (p.value + more + end))
  {}

  // ----- messages -----

  ghost predicate HeadersOk(hs: seq<Header>) {
    forall i :: 0 <= i < |hs| ==> HeaderOk(hs[i])
  }

  /** Every header is simple; or the last alone has a value and separated parameters,
      with no body behind it. */
  predicate Kept(hs: seq<Header>, body: string) {
    forall i :: 0 <= i < |hs| ==> Simple(hs[i]) || (i == |hs| - 1 && body == "" && Separated(hs[i]))
  }

  /** What the parser makes of the text after the start line. */
  function Rest(d: string): (seq<Header>, string) {
    var h := ParseHeaders(d);
    (h.0, Body(d[h.1..]))
  }

  lemma RestMore(d: string, h: Header, n: nat)
    requires More(d) && n <= |d| && ParseHeader(d) == (h, n)
    ensures Rest(d) == ([h] + Rest(d[n..]).0, Rest(d[n..]).1)
  {
    hide Body, More, ParseHeader;
    SliceSlice(d, n, ParseHeaders(d[n..]).1);
  }

  lemma SliceSlice(d: string, n: nat, k: nat)
    requires n + k <= |d|
    ensures d[n..][k..] == d[n + k..]
  {}

  lemma RestOver(body: string)
    requires Lacks(body, 0 as char)
    ensures Rest(CRLF + body) == ([], body)
  {
    hide Until, Lacks, ParseHeader;
    var d := CRLF + body;
    assert d[2..] == body && d[0..] == d && body[..|body|] == body;
    NoNul(body);
  }

  lemma {:induction false} NoNul(body: string)
    requires Lacks(body, 0 as char)
    ensures Until(body, 0 as char) == |body|
  {
    if body != "" { NoNul(body[1..]); }
  }

  lemma HeaderBegins(h: Header, rest: string)
    requires HeaderOk(h)
    ensures |HeaderText(h)| >= 4 && More(HeaderText(h) + rest) && More((HeaderText(h) + rest)[1..])
  {
    hide ParamsText, Separated;
    assert HeaderText(h)[0] == h.name[0];
    if |h.name| > 1 {
      assert HeaderText(h)[1] == h.name[1];
    } else {
      assert HeaderText(h)[1] == ':';
    }
  }

  /** A header read from its second character has another name. */
  lemma BeheadedDiffers(h: Header, rest: string)
    requires HeaderOk(h)
    ensures ParseHeader((HeaderText(h) + rest)[1..]).0 != h
  {
    hide ParseValue, LineText, HeaderText, HeaderOk, Plain, Lacks;
    HeaderParts(h);
    HeaderNamed(h);
    HeaderGroups(h, rest);
    var line := LineText(h, CRLF + rest);
    Behead(h.name, [':'], line);
    NameTail(h.name);
    HeaderSplits(h.name[1..], line);
  }

  lemma HeaderNamed(h: Header)
    requires HeaderOk(h)
    ensures h.name != ""
  {}

  lemma Behead(a: string, b: string, c: string)
    requires a != ""
    ensures (a + b + c)[1..] == a[1..] + b + c
  {}

  lemma NameTail(name: string)
    requires name != "" && Plain(name) && Lacks(name, ':')
    ensures Plain(name[1..]) && Lacks(name[1..], ':')
  {}

  lemma HeadersMore(hs: seq<Header>, tail: string)
    requires hs != []
    ensures HeadersText(hs) + tail == HeaderText(hs[0]) + (HeadersText(hs[1..]) + tail)
  {
    hide HeaderText;
    Assoc(HeaderText(hs[0]), HeadersText(hs[1..]), tail);
  }

  /** The parse of what is left starts with `h` and goes on `n` characters later. */
  lemma FirstHeader(h: Header, rest: string)
    requires HeaderOk(h)
    ensures var d := HeaderText(h) + rest;
            var r := ParseHeader(d);
            Rest(d) == ([r.0] + Rest(d[r.1..]).0, Rest(d[r.1..]).1)
  {
    hide HeaderOk, HeaderText, More, ParseHeader, Rest;
    var d := HeaderText(h) + rest;
    HeaderBegins(h, rest);
    RestMore(d, ParseHeader(d).0, ParseHeader(d).1);
  }

  lemma SimpleFirst(h: Header, rest: string)
    requires HeaderOk(h) && Simple(h)
    ensures Rest(HeaderText(h) + rest) == ([h] + Rest(rest).0, Rest(rest).1)
  {
    hide HeaderOk, HeaderText, ParseHeader, Rest, Simple;
    SimpleReads(h, rest);
    FirstHeader(h, rest);
    Drop(HeaderText(h), rest);
  }

  lemma OtherFirst(h: Header, rest: string)
    requires HeaderOk(h) && !Simple(h) && !Separated(h)
    ensures Rest(HeaderText(h) + rest).0 != [] && Rest(HeaderText(h) + rest).0[0] != h
  {
    hide HeaderOk, HeaderText, ParseHeader, Rest, Simple, Separated;
    OtherReads(h, rest);
    FirstHeader(h, rest);
  }

  lemma TailedFirst(h: Header, rest: string)
    requires HeaderOk(h) && !Simple(h) && Separated(h) && rest != ""
    ensures Rest(HeaderText(h) + rest) == ([h] + Rest(rest[1..]).0, Rest(rest[1..]).1)
  {
    hide HeaderOk, HeaderText, ParseHeader, Rest, Simple, Separated;
    TailedReads(h, rest);
    FirstHeader(h, rest);
    AfterOne(HeaderText(h), rest);
  }

  /** A line feed left over with a body behind it is read as one more header. */
  lemma LineFeed(body: string)
    ensures Rest("\n") == ([], "")
    ensures body != "" ==> Rest("\n" + body).0 != []
  {}

  lemma BeheadedFirst(h: Header, rest: string)
    requires HeaderOk(h)
    ensures var d := (HeaderText(h) + rest)[1..];
            Rest(d).0 != [] && Rest(d).0[0] != h
  {
    hide HeaderOk, HeaderText, ParseHeader, Rest, More;
    HeaderBegins(h, rest);
    BeheadedDiffers(h, rest);
    var d := (HeaderText(h) + rest)[1..];
    RestMore(d, ParseHeader(d).0, ParseHeader(d).1);
  }

  lemma KeptFirst(hs: seq<Header>, body: string)
    requires hs != []
    ensures Simple(hs[0]) ==> (Kept(hs, body) <==> Kept(hs[1..], body))
    ensures !Simple(hs[0]) ==> (Kept(hs, body) <==> |hs| == 1 && body == "" && Separated(hs[0]))
  {
    var t := hs[1..];
    if Kept(t, body) && Simple(hs[0]) {
      forall i | 0 <= i < |hs| ensures Simple(hs[i]) || (i == |hs| - 1 && body == "" && Separated(hs[i])) {
        if i > 0 { assert hs[i] == t[i - 1]; }
      }
    }
    if Kept(hs, body) {
      forall i | 0 <= i < |t| ensures Simple(t[i]) || (i == |t| - 1 && body == "" && Separated(t[i])) {
        assert t[i] == hs[i + 1];
      }
    }
  }

  lemma OneFirst(hs: seq<Header>, a: seq<Header>)
    requires hs != []
    ensures [hs[0]] + a == hs <==> a == hs[1..]
  {
    if [hs[0]] + a == hs { assert a == ([hs[0]] + a)[1..]; }
  }

  lemma SimpleCase(hs: seq<Header>, tail: string, body: string)
    requires hs != [] && HeaderOk(hs[0]) && Simple(hs[0])
    requires Rest(HeadersText(hs[1..]) + tail) == (hs[1..], body) <==> Kept(hs[1..], body)
    ensures Rest(HeadersText(hs) + tail) == (hs, body) <==> Kept(hs, body)
  {
    hide HeaderOk, Simple, Rest, HeadersText, HeaderText, Kept, Separated;
    HeadersMore(hs, tail);
    SimpleFirst(hs[0], HeadersText(hs[1..]) + tail);
    KeptFirst(hs, body);
    OneFirst(hs, Rest(HeadersText(hs[1..]) + tail).0);
  }

  lemma OtherCase(hs: seq<Header>, tail: string, body: string)
    requires hs != [] && HeaderOk(hs[0]) && !Simple(hs[0]) && !Separated(hs[0])
    ensures Rest(HeadersText(hs) + tail) != (hs, body) && !Kept(hs, body)
  {
    hide HeaderOk, Simple, Rest, HeadersText, HeaderText, Kept, Separated;
    HeadersMore(hs, tail);
    OtherFirst(hs[0], HeadersText(hs[1..]) + tail);
    KeptFirst(hs, body);
  }

  lemma TailedLast(hs: seq<Header>, body: string)
    requires |hs| == 1 && HeaderOk(hs[0]) && !Simple(hs[0]) && Separated(hs[0])
    ensures Rest(HeadersText(hs) + (CRLF + body)) == (hs, body) <==> Kept(hs, body)
  {
    hide HeaderOk, Simple, Rest, HeaderText, Kept, Separated;
    var rest := HeadersText(hs[1..]) + (CRLF + body);
    HeadersMore(hs, CRLF + body);
    LeftOver(HeadersText(hs[1..]), body);
    TailedFirst(hs[0], rest);
    LineFeed(body);
    KeptFirst(hs, body);
    OneFirst(hs, Rest(rest[1..]).0);
  }

  lemma LeftOver(none: string, body: string)
    requires none == ""
    ensures (none + (CRLF + body))[1..] == "\n" + body && "\n" + "" == "\n"
  {}

  lemma TailedBefore(hs: seq<Header>, tail: string, body: string)
    requires |hs| > 1 && HeaderOk(hs[0]) && HeaderOk(hs[1]) && !Simple(hs[0]) && Separated(hs[0])
    ensures Rest(HeadersText(hs) + tail) != (hs, body) && !Kept(hs, body)
  {
    hide HeaderOk, Simple, Rest, HeadersText, HeaderText, Kept, Separated;
    var rest := HeadersText(hs[1..]) + tail;
    HeadersMore(hs, tail);
    HeadersMore(hs[1..], tail);
    TextThere(hs[1], HeadersText(hs[1..][1..]) + tail);
    TailedFirst(hs[0], rest);
    BeheadedFirst(hs[1], HeadersText(hs[1..][1..]) + tail);
    OneFirst(hs, Rest(rest[1..]).0);
    KeptFirst(hs, body);
  }

  lemma TextThere(h: Header, rest: string)
    requires HeaderOk(h)
    ensures HeaderText(h) + rest != ""
  {
    HeaderBegins(h, rest);
  }

  /** Well-formed headers and a body without NUL come back from their printed text
      exactly when the message is one of the kept forms. */
  lemma {:induction false} ReadsBack(hs: seq<Header>, body: string)
    requires HeadersOk(hs) && Lacks(body, 0 as char)
    ensures Rest(HeadersText(hs) + (CRLF + body)) == (hs, body) <==> Kept(hs, body)
  {
    hide HeaderOk, Simple, Rest, HeaderText, Separated, Lacks;
    if hs == [] {
      NoHeaders(body);
      RestOver(body);
    } else if Simple(hs[0]) {
      ReadsBack(hs[1..], body);
      SimpleCase(hs, CRLF + body, body);
    } else if !Separated(hs[0]) {
      OtherCase(hs, CRLF + body, body);
    } else if |hs| == 1 {
      TailedLast(hs, body);
    } else {
      TailedBefore(hs, CRLF + body, body);
    }
  }

  lemma NoHeaders(body: string)
    ensures HeadersText([]) + (CRLF + body) == CRLF + body
  {}

  // ----- the start line -----

  lemma {:induction false} DecimalPlain(code: int)
    ensures forall i :: 0 <= i < |Decimal(code)| ==> Decimal(code)[i] == '-' || '0' <= Decimal(code)[i] <= '9'
    decreases if code < 0 then 1 - code else code
  {
    if code < 0 {
      DecimalPlain(-code);
    } else if code >= 10 {
      DecimalPlain(code / 10);
    }
  }

  lemma {:induction false} BlankIn(a: string, blank: char, rest: string)
    requires Plain(a) && (blank == ' ' || blank == '\t')
    ensures UntilBlank(a + [blank] + rest) == |a|
  {
    if a == "" {
      assert (a + [blank] + rest)[0] == blank;
    } else {
      BlankIn(a[1..], blank, rest);
      assert (a + [blank] + rest)[1..] == a[1..] + [blank] + rest;
    }
  }

  /** The start line of a reply is passed over as a whole; its version reads as a
      method. */
  lemma StartReads(version: string, code: int, reason: string, rest: string)
    requires Plain(version) && Lacks(reason, '\r')
    ensures var r := ParseStart(StartText(version, code, reason) + rest);
            r.1 == |StartText(version, code, reason)| && r.0.method_ == version
  {
    hide Plain, Lacks, Decimal, Break, UntilBlank, Strip;
    var line, end := Decimal(code) + " " + reason, CRLF + rest;
    StartGroups(version, Decimal(code), reason, rest);
    BlankIn(version, ' ', line + end);
    Drop(version + [' '], line + end);
    Front(version, [' '], line + end);
    StripPlain(version);
    LineFree(code, reason);
    BreakIn(line, Line, end);
  }

  lemma StartGroups(version: string, code: string, reason: string, rest: string)
    ensures version + " " + code + " " + reason + CRLF + rest == version + [' '] + (code + " " + reason + (CRLF + rest))
  {}

  lemma LineFree(code: int, reason: string)
    requires Lacks(reason, '\r')
    ensures Free(Decimal(code) + " " + reason, Line)
  {
    DecimalPlain(code);
  }

  /** The round trip of whole messages, for every start line without white space in its
      version: exactly the kept forms come back. */
  lemma RoundTrip(version: string, code: int, reason: string, hs: seq<Header>, body: string)
    requires Plain(version) && Lacks(reason, '\r') && HeadersOk(hs) && Lacks(body, 0 as char)
    ensures var m := Parse(Text(version, code, reason, hs, body));
            m.headers == hs && m.body == body <==> Kept(hs, body)
  {
    hide HeadersOk, Plain, Lacks, Kept, ParseStart, ParseHeaders, StartText, HeadersText, Body;
    var start, after := StartText(version, code, reason), HeadersText(hs) + (CRLF + body);
    StartReads(version, code, reason, after);
    TextGroups(start, HeadersText(hs), body);
    Drop(start, after);
    SliceSlice(start + after, |start|, ParseHeaders(after).1);
    ReadsBack(hs, body);
  }

  lemma TextGroups(start: string, headers: string, body: string)
    ensures start + headers + CRLF + body == start + (headers + (CRLF + body))
  {}

  /** A value with a parameter loses the beginning of what follows it. */
  lemma ValueAndParamLost()
    ensures var hs := [Header("Scale", "v", [Param("p", "q")]), Header("Range", "w", [])];
            var m := Parse(Text("1.0", 200, "OK", hs, "b"));
            HeadersOk(hs) && !(m.headers == hs && m.body == "b")
  {
    var h, g := Header("Scale", "v", [Param("p", "q")]), Header("Range", "w", []);
    assert HeaderOk(h) && HeaderOk(g);
    RoundTrip("1.0", 200, "OK", [h, g], "b");
    KeptFirst([h, g], "b");
  }
}
