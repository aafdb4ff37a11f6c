/** Multi-message query replies (Annex M of GB/T 28181): the chains built by
    MANSCDP/A.2.4Query.cpp, sent one message per 200 by MANSCDP/A.2.6Response.cpp
    through the handler list of Agent/MANSCDPAgent.cpp. */
module QueryChain {
  import opened Bytes

  /** One message of a reply: the total and the items it carries. */
  datatype Msg = Msg(sumNum: int, items: seq<string>)

  /** What a result is matched by. */
  datatype Key = Key(cmdType: string, sn: int)

  /** A registered message, and the messages after it. An SN that is no number never
      compares equal. */
  datatype Handler = Handler(key: Key, validSn: bool, current: Msg, rest: seq<Msg>)

  datatype Sent = Sent(key: Key, msg: Msg)

  datatype Agent = Agent(handlers: seq<Handler>, sent: seq<Sent>)

  // ----- building a chain -----

  /** Two items a message. */
  function CatalogChain(items: seq<string>, total: nat): seq<Msg> {
    if items == [] then []
    else
      var n := Min(2, |items|);
      [Msg(total, items[..n])] + CatalogChain(items[n..], total)
  }

  /** `answer(k)` is what the device gives at its k-th call; a message without items, or
      the promised total, ends the chain. */
  function RecordChain(total: int, answer: nat -> seq<string>, k: nat, num: nat): (c: seq<Msg>)
    ensures c != []
    decreases if num < total then total - num else 0
  {
    if num >= total then [Msg(0, [])]
    else
      var items := answer(k);
      if items == [] || num + |items| >= total then [Msg(total, items)]
      else [Msg(total, items)] + RecordChain(total, answer, k + 1, num + |items|)
  }

  function Items(chain: seq<Msg>): seq<string> {
    if chain == [] then [] else chain[0].items + Items(chain[1..])
  }

  // ----- the agent -----

  predicate Matches(h: Handler, key: Key) {
    h.validSn && h.key == key
  }

  /** The first handler that matches. */
  function Find(hs: seq<Handler>, key: Key): (i: nat)
    ensures i <= |hs|
    ensures i < |hs| ==> Matches(hs[i], key)
    ensures forall j :: 0 <= j < i ==> !Matches(hs[j], key)
  {
    if hs == [] || Matches(hs[0], key) then 0 else 1 + Find(hs[1..], key)
  }

  /** sendCmd: the message goes out and its handler is registered, or neither. */
  function SendCmd(a: Agent, h: Handler, ok: bool): Agent {
    if ok then Agent(a.handlers + [h], a.sent + [Sent(h.key, h.current)]) else a
  }

  /** handle: a 200 sends the next message of the chain. */
  function Handle(a: Agent, h: Handler, code: int, ok: bool): Agent {
    if code == 200 && h.rest != [] then SendCmd(a, Handler(h.key, h.validSn, h.rest[0], h.rest[1..]), ok) else a
  }

  /** The next message's handler is registered before the matched one is erased. */
  function Result(a: Agent, code: int, key: Key, ok: bool): Agent {
    var i := Find(a.handlers, key);
    if i == |a.handlers| then a
    else
      var b := Handle(a, a.handlers[i], code, ok);
      b.(handlers := b.handlers[..i] + b.handlers[i + 1..])
  }

  /** `ok`: whether the SIP layer takes the message sent in this step. */
  datatype Step = Query(key: Key, validSn: bool, chain: seq<Msg>, ok: bool) | Reply(code: int, key: Key, ok: bool)

  function Next(a: Agent, s: Step): Agent {
    match s
    case Query(key, validSn, chain, ok) =>
      if chain == [] then a else SendCmd(a, Handler(key, validSn, chain[0], chain[1..]), ok)
    case Reply(code, key, ok) => Result(a, code, key, ok)
  }

  function Run(steps: seq<Step>): Agent {
    if steps == [] then Agent([], []) else Next(Run(steps[..|steps| - 1]), steps[|steps| - 1])
  }

  /** The messages sent for a key, and the handlers registered for it. */
  function SentFor(sent: seq<Sent>, key: Key): seq<Msg> {
    if sent == [] then []
    else
      var before := SentFor(sent[..|sent| - 1], key);
      if sent[|sent| - 1].key == key then before + [sent[|sent| - 1].msg] else before
  }

  function HandlersFor(hs: seq<Handler>, key: Key): seq<Handler> {
    if hs == [] then []
    else
      var before := HandlersFor(hs[..|hs| - 1], key);
      if hs[|hs| - 1].key == key then before + [hs[|hs| - 1]] else before
  }

  // ----- the queries of a run -----

  /** A query for `key` whose first message the SIP layer takes. */
  predicate Opens(s: Step, key: Key) {
    s.Query? && s.key == key && s.ok && s.chain != []
  }

  /** No query for the key is opened while a handler for it waits. */
  predicate Alone(steps: seq<Step>, key: Key) {
    steps == [] ||
      var front, s := steps[..|steps| - 1], steps[|steps| - 1];
      Alone(front, key) && (Opens(s, key) ==> HandlersFor(Run(front).handlers, key) == [])
  }

  /** The chain opened last for a key, whether its SN is a number, and how many messages
      were sent for the key before it. */
  datatype Opened = Opened(chain: seq<Msg>, validSn: bool, before: nat)

  function Latest(steps: seq<Step>, key: Key): Opened {
    if steps == [] then Opened([], false, 0)
    else
      var front, s := steps[..|steps| - 1], steps[|steps| - 1];
      if Opens(s, key) then Opened(s.chain, s.validSn, |SentFor(Run(front).sent, key)|) else Latest(front, key)
  }

  /** The messages sent for the key since `before` of them were. */
  function Since(a: Agent, key: Key, before: nat): seq<Msg> {
    var all := SentFor(a.sent, key);
    if before <= |all| then all[before..] else []
  }

  // ----- what every run keeps -----

  /** A prefix of the chain opened last is sent since it was opened, and at most one
      handler waits: for the result of the last message sent. */
  ghost predicate Good(a: Agent, key: Key, o: Opened) {
    var done, waiting := Since(a, key, o.before), HandlersFor(a.handlers, key);
    var n := |done|;
    && o.before <= |SentFor(a.sent, key)|
    && n <= |o.chain| && done == o.chain[..n]
    && (waiting == [] || (n > 0 && waiting == [Handler(key, o.validSn, o.chain[n - 1], o.chain[n..])]))
    && (!o.validSn ==> n <= 1)
  }

  lemma SentMore(sent: seq<Sent>, s: Sent, key: Key)
    ensures SentFor(sent + [s], key) == SentFor(sent, key) + (if s.key == key then [s.msg] else [])
  {
    assert (sent + [s])[..|sent|] == sent;
    NilRight(SentFor(sent, key));
  }

  lemma HandlersMore(hs: seq<Handler>, h: Handler, key: Key)
    ensures HandlersFor(hs + [h], key) == HandlersFor(hs, key) + (if h.key == key then [h] else [])
  {
    assert (hs + [h])[..|hs|] == hs;
    NilRight(HandlersFor(hs, key));
  }

  lemma {:induction false} HandlersConcat(a: seq<Handler>, b: seq<Handler>, key: Key)
    ensures HandlersFor(a + b, key) == HandlersFor(a, key) + HandlersFor(b, key)
    decreases |b|
  {
    if b == [] {
      NilRight(a);
      NilRight(HandlersFor(a, key));
    } else {
      var n := |b| - 1;
      assert (a + b)[..|a + b| - 1] == a + b[..n];
      HandlersConcat(a, b[..n], key);
      if b[n].key == key { Assoc(HandlersFor(a, key), HandlersFor(b[..n], key), [b[n]]); }
    }
  }

  /** The handlers split at one of them. */
  lemma HandlersSplit(hs: seq<Handler>, i: nat, key: Key)
    requires i < |hs|
    ensures HandlersFor(hs, key)
         == HandlersFor(hs[..i], key) + (if hs[i].key == key then [hs[i]] else []) + HandlersFor(hs[i + 1..], key)
    ensures HandlersFor(hs[..i] + hs[i + 1..], key) == HandlersFor(hs[..i], key) + HandlersFor(hs[i + 1..], key)
  {
    assert hs == hs[..i] + [hs[i]] + hs[i + 1..];
    HandlersConcat(hs[..i] + [hs[i]], hs[i + 1..], key);
    HandlersMore(hs[..i], hs[i], key);
    HandlersConcat(hs[..i], hs[i + 1..], key);
  }

  lemma {:induction false} InHandlers(hs: seq<Handler>, i: nat)
    requires i < |hs|
    ensures hs[i] in HandlersFor(hs, hs[i].key)
  {
    HandlersSplit(hs, i, hs[i].key);
  }

  /** Erasing a key's only handler leaves none; another key keeps its own. */
  lemma Erased(hs: seq<Handler>, i: nat, key: Key)
    requires i < |hs|
    ensures hs[i].key != key ==> HandlersFor(hs[..i] + hs[i + 1..], key) == HandlersFor(hs, key)
    ensures hs[i].key == key && HandlersFor(hs, key) == [hs[i]] ==> HandlersFor(hs[..i] + hs[i + 1..], key) == []
  {
    HandlersSplit(hs, i, key);
    var a, b := HandlersFor(hs[..i], key), HandlersFor(hs[i + 1..], key);
    NilRight(a);
    if hs[i].key == key && HandlersFor(hs, key) == [hs[i]] { assert |a| + 1 + |b| == 1; }
  }

  /** Erasing after a push at the end. */
  lemma ErasedAfterPush(hs: seq<Handler>, h: Handler, i: nat)
    requires i < |hs|
    ensures (hs + [h])[..i] + (hs + [h])[i + 1..] == hs[..i] + hs[i + 1..] + [h]
  {}
}
