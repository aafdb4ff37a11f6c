/** The text form of MANSRTSP messages, MANSRTSP/B.1Message.cpp: what the parser and the
    printer compute. */
module MansRtsp {
  import opened Bytes

  datatype Param = Param(name: string, value: string)
  datatype Header = Header(name: string, value: string, params: seq<Param>)
  datatype StartLine = StartLine(method_: string, version: string)
  datatype Message = Message(start: StartLine, headers: seq<Header>, body: string)

  const CRLF := "\r\n"

  // ----- scanning -----

  predicate IsBlank(c: char) { c == ' ' || c == '\t' }

  predicate IsSpace(c: char) { c == ' ' || 9 as char <= c <= 13 as char }

  /** The text without its white space. */
  function Strip(s: string): string {
    if s == "" then "" else (if IsSpace(s[0]) then "" else [s[0]]) + Strip(s[1..])
  }

  /** Characters before the first `c`, or all. */
  function Until(d: string, c: char): (n: nat)
    ensures n <= |d|
    ensures n < |d| ==> d[n] == c
  {
    if d == "" || d[0] == c then 0 else 1 + Until(d[1..], c)
  }

  function UntilBlank(d: string): (n: nat)
    ensures n <= |d|
  {
    if d == "" || IsBlank(d[0]) then 0 else 1 + UntilBlank(d[1..])
  }

  predicate AtLineEnd(d: string) {
    |d| >= 2 && d[0] == '\r' && d[1] == '\n'
  }

  /** What ends a scan besides the line. */
  datatype Stop = Line | Semicolon | SemicolonOrEquals {
    predicate At(c: char) {
      (c == ';' && !Line?) || (c == '=' && SemicolonOrEquals?)
    }
  }

  /** Characters before a stop, a line end, or the last character. */
  function Break(d: string, stop: Stop): (n: nat)
    ensures n <= |d|
    ensures |d| > 0 ==> n < |d|
  {
    if |d| < 2 || stop.At(d[0]) || AtLineEnd(d) then 0 else 1 + Break(d[1..], stop)
  }

  // ----- the parser: the value read and the characters consumed -----

  function ParseParam(d: string): (r: (Param, nat))
    ensures r.1 <= |d| && (d != "" ==> r.1 >= 1)
  {
    var e := Until(d, '=');
    var i := Min(e + 1, |d|);
    var rest := d[i..];
    var v := Break(rest, Semicolon);
    var n := if v < |rest| && rest[v] == ';' then v + 1 else v;
    (Param(Strip(d[..e]), Strip(rest[..v])), i + n)
  }

  /** More is read while the line has not ended and two characters are left. */
  predicate More(d: string) {
    |d| >= 2 && !AtLineEnd(d)
  }

  function ParseParams(d: string): (r: (seq<Param>, nat))
    ensures r.1 <= |d|
    decreases |d|
  {
    if !More(d) then ([], Min(2, |d|))
    else
      var p := ParseParam(d);
      var r := ParseParams(d[p.1..]);
      ([p.0] + r.0, p.1 + r.1)
  }

  function ParseValue(d: string): (r: (string, seq<Param>, nat))
    ensures r.2 <= |d|
  {
    var v := Break(d, SemicolonOrEquals);
    var value := Strip(d[..v]);
    if v < |d| && d[v] == ';' then
      var p := ParseParams(d[v + 1..]);
      (value, p.0, Min(v + 1 + p.1 + 1, |d|))
    else if v < |d| && d[v] == '=' then
      var p := ParseParams(d);
      ("", p.0, p.1)
    else (value, [], Min(v + 2, |d|))
  }

  function ParseHeader(d: string): (r: (Header, nat))
    ensures r.1 <= |d| && (d != "" ==> r.1 >= 1)
  {
    var e := Until(d, ':');
    var i := Min(e + 1, |d|);
    var v := ParseValue(d[i..]);
    (Header(Strip(d[..e]), v.0, v.1), i + v.2)
  }

  function ParseHeaders(d: string): (r: (seq<Header>, nat))
    ensures r.1 <= |d|
    decreases |d|
  {
    if !More(d) then ([], 0)
    else
      var h := ParseHeader(d);
      var r := ParseHeaders(d[h.1..]);
      ([h.0] + r.0, h.1 + r.1)
  }

  function ParseStart(d: string): (r: (StartLine, nat))
    ensures r.1 <= |d|
  {
    var e := UntilBlank(d);
    var i := Min(e + 1, |d|);
    var v := Break(d[i..], Line);
    (StartLine(Strip(d[..e]), Strip(d[i..][..v])), i + Min(v + 2, |d| - i))
  }

  /** The body is a C string: it ends at the first NUL. */
  function Body(d: string): string {
    if |d| <= 2 then "" else d[2..][..Until(d[2..], 0 as char)]
  }

  function Parse(d: string): Message {
    var s := ParseStart(d);
    var h := ParseHeaders(d[s.1..]);
    Message(s.0, h.0, Body(d[s.1 + h.1..]))
  }

  // ----- the printer -----

  function ParamText(p: Param): string { p.name + "=" + p.value }

  /** The printer looks at the last two characters to tell an empty value. */
  predicate Separated(h: Header) {
    var t := h.name + ": " + h.value;
    t[|t| - 2] != ':' && t[|t| - 1] != ' '
  }

  function ParamsText(ps: seq<Param>, separated: bool): string {
    if ps == [] then ""
    else (if separated then "; " else "") + ParamText(ps[0]) + ParamsText(ps[1..], separated)
  }

  function HeaderText(h: Header): string {
    h.name + ": " + h.value + ParamsText(h.params, Separated(h)) + CRLF
  }

  function HeadersText(hs: seq<Header>): string {
    if hs == [] then "" else HeaderText(hs[0]) + HeadersText(hs[1..])
  }

  /** std::to_string. */
  function Decimal(code: int): (s: string)
    ensures s != ""
    decreases if code < 0 then 1 - code else code
  {
    if code < 0 then "-" + Decimal(-code)
    else if code < 10 then ['0' + code as char]
    else Decimal(code / 10) + ['0' + (code % 10) as char]
  }

  function StartText(version: string, code: int, reason: string): string {
    version + " " + Decimal(code) + " " + reason + CRLF
  }

  function Text(version: string, code: int, reason: string, headers: seq<Header>, body: string): string {
    StartText(version, code, reason) + HeadersText(headers) + CRLF + body
  }
}
