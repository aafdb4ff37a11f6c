/** Requests and replies written out character by character, and what is read from them. */
module MansRtspReading {
  import opened Bytes
  import opened MansRtsp
  import opened MansRtspProofs

  // ----- white space -----

  /** Stripping goes through the text character by character, and drops exactly blanks, tabs,
      line feeds, vertical tabs, form feeds and carriage returns. */
  lemma StripMeans(a: string, c: char, b: string)
    ensures Strip(a + [c] + b)
         == Strip(a) + (if c == ' ' || 9 <= c as int <= 13 then "" else [c]) + Strip(b)
  {
    StripOne(c);
    hide Strip, IsSpace;
    StripConcat(a + [c], b);
    StripConcat(a, [c]);
  }

  lemma StripOne(c: char)
    ensures Strip([c]) == if c == ' ' || 9 <= c as int <= 13 then "" else [c]
  {
    assert [c][1..] == "";
    assert Strip("") == "";
  }

  lemma {:induction false} StripConcat(a: string, b: string)
    ensures Strip(a + b) == Strip(a) + Strip(b)
  {
    hide IsSpace;
    if a == "" {
      NilLeft(b);
      NilLeft(Strip(b));
    } else {
      StripConcat(a[1..], b);
      assert (a + b)[1..] == a[1..] + b && (a + b)[0] == a[0];
      Assoc(if IsSpace(a[0]) then "" else [a[0]], Strip(a[1..]), Strip(b));
    }
  }

  // ----- requests -----

  /** A request line, up to its first blank or tab and then to its line end. */
  lemma RequestLineReads(method_: string, blank: char, version: string, rest: string)
    requires Plain(method_) && Plain(version) && (blank == ' ' || blank == '\t')
    ensures ParseStart(method_ + [blank] + version + "\r\n" + rest)
         == (StartLine(method_, version), |method_| + 1 + |version| + 2)
  {
    hide Plain, Break, UntilBlank, Strip;
    var end := "\r\n" + rest;
    assert method_ + [blank] + version + "\r\n" + rest == method_ + [blank] + (version + end);
    BlankIn(method_, blank, version + end);
    Drop(method_ + [blank], version + end);
    Front(method_, [blank], version + end);
    StripPlain(method_);
    StripPlain(version);
    VersionFree(version);
    BreakIn(version, Stop.Line, end);
    Drop(version, end);
  }

  lemma VersionFree(version: string)
    requires Plain(version)
    ensures Free(version, Stop.Line)
  {}

  /** A header line of the simple forms: "name: value", or "name: parameter=value". */
  function Line(h: Header): string
    requires Simple(h)
  {
    h.name + ": " + (if h.params == [] then h.value else h.params[0].name + "=" + h.params[0].value) + "\r\n"
  }

  function Lines(hs: seq<Header>): string
    requires forall i :: 0 <= i < |hs| ==> Simple(hs[i])
  {
    if hs == [] then "" else Line(hs[0]) + Lines(hs[1..])
  }

  lemma LineIs(h: Header)
    requires Simple(h)
    ensures HeaderText(h) == Line(h)
  {
    if h.params == [] {
      NoParams("");
    } else {
      assert h.params[1..] == [];
      SeparatedIs(h);
      assert ParamsText(h.params, false) == h.params[0].name + "=" + h.params[0].value;
    }
  }

  /** The printer writes such headers so. */
  lemma {:induction false} LinesAre(hs: seq<Header>)
    requires forall i :: 0 <= i < |hs| ==> Simple(hs[i])
    ensures HeadersText(hs) == Lines(hs)
  {
    hide Simple, HeaderText;
    if hs != [] {
      LineIs(hs[0]);
      LinesAre(hs[1..]);
    }
  }

  /** Headers of the simple forms are read up to the empty line, whatever follows it. */
  lemma {:induction false} LinesRead(hs: seq<Header>, z: string)
    requires HeadersOk(hs) && forall i :: 0 <= i < |hs| ==> Simple(hs[i])
    ensures Rest(HeadersText(hs) + (CRLF + z)) == (hs, Rest(CRLF + z).1)
  {
    hide HeaderOk, Simple, Rest, HeaderText;
    if hs == [] {
      NoHeaders(z);
      NothingRead(z);
    } else {
      LinesRead(hs[1..], z);
      HeadersMore(hs, CRLF + z);
      SimpleFirst(hs[0], HeadersText(hs[1..]) + (CRLF + z));
      assert [hs[0]] + hs[1..] == hs;
    }
  }

  lemma NothingRead(z: string)
    ensures Rest(CRLF + z).0 == []
  {}

  /** The body ends at the first NUL or at the end. */
  lemma BodyReads(body: string, more: string)
    requires Lacks(body, 0 as char) && (more == "" || more[0] == 0 as char)
    ensures Rest(CRLF + (body + more)) == ([], body)
  {
    if more == "" {
      NilRight(body);
      RestOver(body);
    } else {
      hide Lacks;
      var z := body + [0 as char] + more[1..];
      assert body + more == z;
      UntilIn(body, 0 as char, more[1..]);
      Drop(body, [0 as char] + more[1..]);
      Assoc(body, [0 as char], more[1..]);
      BodyIs(z, |body|);
      hide Until;
    }
  }

  lemma BodyIs(z: string, n: nat)
    requires Until(z, 0 as char) == n < |z|
    ensures Rest(CRLF + z) == ([], z[..n])
  {
    hide Until, ParseHeader;
    var d := CRLF + z;
    assert d[2..] == z && d[0..] == d;
  }

  /** A whole request with such headers is read as it is written. */
  lemma RequestReads(method_: string, blank: char, version: string, hs: seq<Header>, body: string, more: string)
    requires Plain(method_) && Plain(version) && (blank == ' ' || blank == '\t')
    requires HeadersOk(hs) && forall i :: 0 <= i < |hs| ==> Simple(hs[i])
    requires Lacks(body, 0 as char) && (more == "" || more[0] == 0 as char)
    ensures Parse(method_ + [blank] + version + "\r\n" + Lines(hs) + "\r\n" + (body + more))
         == Message(StartLine(method_, version), hs, body)
  {
    hide HeadersOk, Plain, Lacks, Simple, Parse, ParseStart, Rest, HeadersText, Lines;
    var z := body + more;
    var start, after := method_ + [blank] + version + "\r\n", HeadersText(hs) + (CRLF + z);
    LinesAre(hs);
    RequestLineReads(method_, blank, version, after);
    TextGroups(start, HeadersText(hs), z);
    AfterStart(start, StartLine(method_, version), after);
    LinesRead(hs, z);
    BodyReads(body, more);
  }

  lemma AfterStart(start: string, line: StartLine, after: string)
    requires ParseStart(start + after) == (line, |start|)
    ensures Parse(start + after) == Message(line, Rest(after).0, Rest(after).1)
  {
    hide ParseStart, ParseHeaders, Body;
    Drop(start, after);
    SliceSlice(start + after, |start|, ParseHeaders(after).1);
  }

  /** A value and its parameters are printed, and read, with a semicolon before each
      parameter. */
  lemma ParametersRead(name: string, value: string, p: Param, q: Param, rest: string)
    requires HeaderOk(Header(name, value, [p, q])) && |value| > 1 && Lacks(value, ':')
    ensures var h := Header(name, value, [p, q]);
            && HeaderText(h)
               == name + ": " + value + ("; " + p.name + "=" + p.value + ("; " + q.name + "=" + q.value)) + "\r\n"
            && ParseHeader(HeaderText(h) + rest).0 == h
  {
    var h := Header(name, value, [p, q]);
    HeaderParts(h);
    SeparatedIs(h);
    hide HeaderOk, Lacks, ParseHeader, Separated, Plain;
    TwoParams(p, q);
    hide ParamsText;
    TailedReads(h, rest);
  }

  lemma TwoParams(p: Param, q: Param)
    ensures ParamsText([p, q], true) == "; " + p.name + "=" + p.value + ("; " + q.name + "=" + q.value)
  {
    assert [p, q][1..] == [q];
    OneParamText(q);
    Assoc("; ", p.name + "=" + p.value, ParamsText([q], true));
    assert "; " + (p.name + "=" + p.value) == "; " + p.name + "=" + p.value;
  }

  lemma OneParamText(q: Param)
    ensures ParamsText([q], true) == "; " + q.name + "=" + q.value
  {
    assert [q][1..] == [];
    NilRight("; " + ParamText(q));
    assert "; " + (q.name + "=" + q.value) == "; " + q.name + "=" + q.value;
  }

  // ----- replies -----

  /** The number that decimal digits say. */
  function Number(digits: string): int {
    if digits == "" then 0
    else Number(digits[..|digits| - 1]) * 10 + (digits[|digits| - 1] as int - '0' as int)
  }

  /** A code is printed in decimal: digits only, none of them an idle zero, and their value
      is the code. */
  lemma {:induction false} DecimalReads(code: nat)
    ensures var s := Decimal(code);
            && Number(s) == code && (forall i :: 0 <= i < |s| ==> '0' <= s[i] <= '9')
            && (s[0] == '0' ==> code == 0 && |s| == 1)
    decreases code
  {
    if code >= 10 {
      DecimalReads(code / 10);
      var s := Decimal(code);
      assert s[..|s| - 1] == Decimal(code / 10);
    } else {
      assert Decimal(code) == ['0' + code as char];
      assert Number([]) == 0;
    }
  }

  /** The text before the first blank, and the text behind it. */
  function Word(d: string): string { d[..UntilBlank(d)] }

  function Behind(d: string): string { d[Min(UntilBlank(d) + 1, |d|)..] }

  lemma WordReads(word: string, tail: string)
    requires Plain(word)
    ensures Word(word + [' '] + tail) == word && Behind(word + [' '] + tail) == tail
  {
    hide Plain, UntilBlank;
    BlankIn(word, ' ', tail);
    Drop(word + [' '], tail);
    Drop(word, [' '] + tail);
    Assoc(word, [' '], tail);
  }

  /** A reply says the version, the code and the reason, each behind a blank, and ends the
      line. */
  lemma StatusReads(version: string, code: nat, reason: string, headers: seq<Header>, body: string)
    requires Plain(version)
    ensures var d := Text(version, code, reason, headers, body);
            && Word(d) == version && Number(Word(Behind(d))) == code
            && Behind(Behind(d)) == reason + "\r\n" + HeadersText(headers) + "\r\n" + body
  {
    hide Plain, Decimal, Word, Behind, HeadersText, Number;
    var s := Decimal(code);
    var tail := reason + "\r\n" + HeadersText(headers) + "\r\n" + body;
    TextWords(version, s, reason, HeadersText(headers), body);
    WordReads(version, s + [' '] + tail);
    DecimalReads(code);
    DigitsPlain(s);
    WordReads(s, tail);
  }

  lemma TextWords(version: string, code: string, reason: string, headers: string, body: string)
    ensures version + " " + code + " " + reason + "\r\n" + headers + "\r\n" + body
         == version + [' '] + (code + [' '] + (reason + "\r\n" + headers + "\r\n" + body))
  {}

  lemma DigitsPlain(s: string)
    requires forall i :: 0 <= i < |s| ==> '0' <= s[i] <= '9'
    ensures Plain(s)
  {}
}
