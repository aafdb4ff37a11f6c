/** What every run of queries and results keeps. */
module QueryChainProofs {
  import opened Bytes
  import opened QueryChain

  // ----- one step -----

  lemma SendOther(a: Agent, h: Handler, ok: bool, key: Key)
    requires h.key != key
    ensures SentFor(SendCmd(a, h, ok).sent, key) == SentFor(a.sent, key)
    ensures HandlersFor(SendCmd(a, h, ok).handlers, key) == HandlersFor(a.handlers, key)
  {
    SentMore(a.sent, Sent(h.key, h.current), key);
    HandlersMore(a.handlers, h, key);
    NilRight(SentFor(a.sent, key));
    NilRight(HandlersFor(a.handlers, key));
  }

  /** A matched result, its parts spelled out. */
  lemma ResultIs(a: Agent, code: int, key: Key, ok: bool, i: nat)
    requires i == Find(a.handlers, key) < |a.handlers|
    ensures var h, r := a.handlers[i], Result(a, code, key, ok);
            var left := a.handlers[..i] + a.handlers[i + 1..];
            if code == 200 && h.rest != [] && ok then
              r == Agent(left + [Handler(h.key, h.validSn, h.rest[0], h.rest[1..])], a.sent + [Sent(h.key, h.rest[0])])
            else r == Agent(left, a.sent)
  {
    var h := a.handlers[i];
    if h.rest != [] { ErasedAfterPush(a.handlers, Handler(h.key, h.validSn, h.rest[0], h.rest[1..]), i); }
  }

  lemma ReplyOther(a: Agent, code: int, other: Key, ok: bool, key: Key)
    requires other != key
    ensures var r := Result(a, code, other, ok);
            SentFor(r.sent, key) == SentFor(a.sent, key) && HandlersFor(r.handlers, key) == HandlersFor(a.handlers, key)
  {
    var i := Find(a.handlers, other);
    if i < |a.handlers| {
      var h, left := a.handlers[i], a.handlers[..i] + a.handlers[i + 1..];
      ResultIs(a, code, other, ok, i);
      Erased(a.handlers, i, key);
      if h.rest != [] { SendOther(Agent(left, a.sent), Handler(h.key, h.validSn, h.rest[0], h.rest[1..]), ok, key); }
    }
  }

  lemma OnlyHandler(hs: seq<Handler>, i: nat, key: Key, w: Handler)
    requires i < |hs| && hs[i].key == key && HandlersFor(hs, key) == [w]
    ensures hs[i] == w
  {
    InHandlers(hs, i);
  }

  lemma SomeHandler(hs: seq<Handler>, i: nat, key: Key)
    requires i < |hs| && hs[i].key == key
    ensures HandlersFor(hs, key) != []
  {
    InHandlers(hs, i);
  }

  /** The result of a message of the chain. */
  lemma ReplySame(a: Agent, code: int, ok: bool, key: Key, o: Opened)
    requires Good(a, key, o) && Find(a.handlers, key) < |a.handlers|
    ensures var r, n := Result(a, code, key, ok), |Since(a, key, o.before)|;
            && Good(r, key, o) && n > 0 && o.validSn
            && |Since(r, key, o.before)| == (if code == 200 && n < |o.chain| && ok then n + 1 else n)
            && (HandlersFor(r.handlers, key) != [] <==> code == 200 && n < |o.chain| && ok)
  {
    hide SentFor, HandlersFor, Find, Result;
    FoundHandler(a, key);
    var i := Find(a.handlers, key);
    var n := |Since(a, key, o.before)|;
    OnlyHandler(a.handlers, i, key, Handler(key, o.validSn, o.chain[n - 1], o.chain[n..]));
    ResultIs(a, code, key, ok, i);
    Erased(a.handlers, i, key);
    var left := a.handlers[..i] + a.handlers[i + 1..];
    if code == 200 && n < |o.chain| && ok {
      var next := Handler(key, o.validSn, o.chain[n], o.chain[n + 1..]);
      assert o.chain[n..][0] == o.chain[n] && o.chain[n..][1..] == o.chain[n + 1..];
      HandlersMore(left, next, key);
      SentMore(a.sent, Sent(key, o.chain[n]), key);
      MoreSince(a.sent, o.chain[n], key, o.before);
      assert o.chain[..n] + [o.chain[n]] == o.chain[..n + 1];
    }
  }

  lemma FoundHandler(a: Agent, key: Key)
    requires Find(a.handlers, key) < |a.handlers|
    ensures var i := Find(a.handlers, key); a.handlers[i].key == key && a.handlers[i].validSn
    ensures HandlersFor(a.handlers, key) != []
  {
    SomeHandler(a.handlers, Find(a.handlers, key), key);
  }

  lemma MoreSince(sent: seq<Sent>, m: Msg, key: Key, before: nat)
    requires before <= |SentFor(sent, key)|
    ensures var all := SentFor(sent, key);
            SentFor(sent + [Sent(key, m)], key)[before..] == all[before..] + [m]
  {
    SentMore(sent, Sent(key, m), key);
  }

  lemma ReplyKeeps(a: Agent, code: int, other: Key, ok: bool, key: Key, o: Opened)
    requires Good(a, key, o)
    ensures Good(Result(a, code, other, ok), key, o)
  {
    hide Result;
    if other != key {
      ReplyOther(a, code, other, ok, key);
    } else if Find(a.handlers, key) < |a.handlers| {
      ReplySame(a, code, ok, key, o);
    } else {
      NoResult(a, code, key, ok);
    }
  }

  lemma NoResult(a: Agent, code: int, key: Key, ok: bool)
    requires Find(a.handlers, key) == |a.handlers|
    ensures Result(a, code, key, ok) == a
  {}

  /** A query opened while no handler of its key waits. */
  lemma QueryOpens(a: Agent, s: Step, key: Key)
    requires Opens(s, key) && HandlersFor(a.handlers, key) == []
    ensures var r, o := Next(a, s), Opened(s.chain, s.validSn, |SentFor(a.sent, key)|);
            Good(r, key, o) && |Since(r, key, o.before)| == 1 && HandlersFor(r.handlers, key) != []
  {
    hide SentFor, HandlersFor;
    var h := Handler(key, s.validSn, s.chain[0], s.chain[1..]);
    SentMore(a.sent, Sent(key, s.chain[0]), key);
    HandlersMore(a.handlers, h, key);
    NilLeft([h]);
    MoreSince(a.sent, s.chain[0], key, |SentFor(a.sent, key)|);
    NilLeft([s.chain[0]]);
    assert [s.chain[0]] == s.chain[..1];
  }

  /** Any other query leaves the key's messages and handlers as they are. */
  lemma QueryOther(a: Agent, s: Step, key: Key)
    requires s.Query? && !Opens(s, key)
    ensures var r := Next(a, s);
            SentFor(r.sent, key) == SentFor(a.sent, key) && HandlersFor(r.handlers, key) == HandlersFor(a.handlers, key)
  {
    if s.chain != [] && s.key != key {
      SendOther(a, Handler(s.key, s.validSn, s.chain[0], s.chain[1..]), s.ok, key);
    }
  }

  // ----- at most one handler -----

  /** In every prefix at most one handler waits for the key. */
  ghost predicate AtMostOne(steps: seq<Step>, key: Key) {
    forall k :: 0 <= k <= |steps| ==> |HandlersFor(Run(steps[..k]).handlers, key)| <= 1
  }

  /** A result takes away the handler it matches and brings at most one. */
  lemma ReplyCount(a: Agent, code: int, other: Key, ok: bool, key: Key)
    ensures |HandlersFor(Result(a, code, other, ok).handlers, key)| <= |HandlersFor(a.handlers, key)|
  {
    var i := Find(a.handlers, other);
    if other != key {
      ReplyOther(a, code, other, ok, key);
    } else if i < |a.handlers| {
      var h, left := a.handlers[i], a.handlers[..i] + a.handlers[i + 1..];
      ResultIs(a, code, key, ok, i);
      HandlersSplit(a.handlers, i, key);
      if h.rest != [] { HandlersMore(left, Handler(h.key, h.validSn, h.rest[0], h.rest[1..]), key); }
    }
  }

  lemma OpensCount(a: Agent, s: Step, key: Key)
    requires Opens(s, key)
    ensures |HandlersFor(Next(a, s).handlers, key)| == |HandlersFor(a.handlers, key)| + 1
  {
    HandlersMore(a.handlers, Handler(key, s.validSn, s.chain[0], s.chain[1..]), key);
  }

  lemma LastPrefix(steps: seq<Step>, key: Key)
    requires steps != []
    ensures AtMostOne(steps, key)
       <==> AtMostOne(steps[..|steps| - 1], key) && |HandlersFor(Run(steps).handlers, key)| <= 1
  {
    hide HandlersFor, Run;
    var n := |steps| - 1;
    assert forall k :: 0 <= k <= n ==> steps[..n][..k] == steps[..k];
    assert steps[..n + 1] == steps;
  }

  /** Exactly when never more than one handler waits for a key: no query for it is opened
      while one does. */
  lemma {:induction false} OneWaits(steps: seq<Step>, key: Key)
    ensures AtMostOne(steps, key) <==> Alone(steps, key)
  {
    if steps != [] {
      var front, s := steps[..|steps| - 1], steps[|steps| - 1];
      OneWaits(front, key);
      LastPrefix(steps, key);
      if AtMostOne(front, key) {
        assert front[..|front|] == front;
        CountStep(front, s, key);
      }
    }
  }

  lemma CountStep(front: seq<Step>, s: Step, key: Key)
    requires |HandlersFor(Run(front).handlers, key)| <= 1
    ensures |HandlersFor(Next(Run(front), s).handlers, key)| <= 1
       <==> (Opens(s, key) ==> HandlersFor(Run(front).handlers, key) == [])
  {
    hide HandlersFor, Run, Result;
    var a := Run(front);
    if s.Reply? {
      ReplyCount(a, s.code, s.key, s.ok, key);
    } else if Opens(s, key) {
      OpensCount(a, s, key);
    } else {
      QueryOther(a, s, key);
    }
  }

  // ----- every run -----

  lemma StepGood(a: Agent, s: Step, key: Key, o: Opened)
    requires Good(a, key, o) && (Opens(s, key) ==> HandlersFor(a.handlers, key) == [])
    ensures Good(Next(a, s), key, if Opens(s, key) then Opened(s.chain, s.validSn, |SentFor(a.sent, key)|) else o)
  {
    hide SentFor, HandlersFor, Result;
    if s.Reply? {
      ReplyKeeps(a, s.code, s.key, s.ok, key, o);
    } else if Opens(s, key) {
      QueryOpens(a, s, key);
    } else {
      QueryOther(a, s, key);
    }
  }

  /** In every order of results, for every key none of whose queries is opened while a
      handler for it waits: since its last query was opened a prefix of that chain is sent,
      in order and once each, and at most one handler waits, for the result of the last
      message sent. */
  lemma {:induction false} RunGood(steps: seq<Step>, key: Key)
    requires Alone(steps, key)
    ensures Good(Run(steps), key, Latest(steps, key))
  {
    if steps == [] {
      NothingSent(key);
    } else {
      var front, s := steps[..|steps| - 1], steps[|steps| - 1];
      RunGood(front, key);
      hide Good;
      StepGood(Run(front), s, key, Latest(front, key));
    }
  }

  lemma NothingSent(key: Key)
    ensures Good(Agent([], []), key, Opened([], false, 0))
  {}

  // ----- messages and their 200s -----

  /** A 200 for the key that a registered handler takes. */
  predicate Acks(a: Agent, s: Step, key: Key) {
    s.Reply? && s.key == key && s.code == 200 && Find(a.handlers, key) < |a.handlers|
  }

  /** The 200s since the key's last query was opened. */
  function Acked(steps: seq<Step>, key: Key): nat {
    if steps == [] || Opens(steps[|steps| - 1], key) then 0
    else
      var front := steps[..|steps| - 1];
      Acked(front, key) + if Acks(Run(front), steps[|steps| - 1], key) then 1 else 0
  }

  /** A result other than 200, or a next message that was not taken. */
  predicate Breaks(a: Agent, s: Step, key: Key) {
    && s.Reply? && s.key == key
    && var i := Find(a.handlers, key);
       i < |a.handlers| && (s.code != 200 || (a.handlers[i].rest != [] && !s.ok))
  }

  predicate Broken(steps: seq<Step>, key: Key) {
    steps != [] && !Opens(steps[|steps| - 1], key) &&
    (Broken(steps[..|steps| - 1], key) || Breaks(Run(steps[..|steps| - 1]), steps[|steps| - 1], key))
  }

  /** `n` messages of `len` sent after `acked` 200s. */
  predicate OnPace(n: nat, waiting: bool, acked: nat, broken: bool, len: nat, validSn: bool) {
    && n <= 1 + acked
    && (!broken ==> acked <= len && (validSn && len > 0 ==> n == Min(1 + acked, len) && (waiting <==> acked < len)))
  }

  ghost predicate KeepsPace(steps: seq<Step>, key: Key) {
    var a, o := Run(steps), Latest(steps, key);
    OnPace(|Since(a, key, o.before)|, HandlersFor(a.handlers, key) != [], Acked(steps, key), Broken(steps, key),
           |o.chain|, o.validSn)
  }

  /** Since a query was opened, message k + 1 is only sent after k 200s. When nothing goes
      wrong the 200s and the messages keep pace: one 200 for each message but the last
      delivers everything, and one more leaves no handler waiting. */
  lemma {:induction false} Pace(steps: seq<Step>, key: Key)
    requires Alone(steps, key)
    ensures KeepsPace(steps, key)
  {
    hide OnPace, Good;
    if steps == [] {
      PaceStarts();
    } else {
      var front, s := steps[..|steps| - 1], steps[|steps| - 1];
      Pace(front, key);
      RunGood(front, key);
      PaceStep(steps, front, s, key);
    }
  }

  lemma PaceStarts()
    ensures OnPace(0, false, 0, false, 0, false)
  {}

  /** One more step. */
  lemma LastStep(steps: seq<Step>, front: seq<Step>, s: Step, key: Key)
    requires steps != [] && front == steps[..|steps| - 1] && s == steps[|steps| - 1]
    ensures Run(steps) == Next(Run(front), s)
    ensures Acked(steps, key)
         == if Opens(s, key) then 0 else Acked(front, key) + (if Acks(Run(front), s, key) then 1 else 0)
    ensures Broken(steps, key) == (!Opens(s, key) && (Broken(front, key) || Breaks(Run(front), s, key)))
    ensures Latest(steps, key)
         == if Opens(s, key) then Opened(s.chain, s.validSn, |SentFor(Run(front).sent, key)|) else Latest(front, key)
  {}

  lemma PaceStep(steps: seq<Step>, front: seq<Step>, s: Step, key: Key)
    requires steps != [] && front == steps[..|steps| - 1] && s == steps[|steps| - 1]
    requires Good(Run(front), key, Latest(front, key)) && KeepsPace(front, key)
    requires Opens(s, key) ==> HandlersFor(Run(front).handlers, key) == []
    ensures KeepsPace(steps, key)
  {
    hide Run, Acked, Broken, Good, Latest, SentFor, HandlersFor, Handle, Result, Find;
    LastStep(steps, front, s, key);
    var a := Run(front);
    if Opens(s, key) {
      QueryOpens(a, s, key);
    } else if s.Query? {
      QueryOther(a, s, key);
    } else if s.key != key {
      ReplyOther(a, s.code, s.key, s.ok, key);
    } else if Find(a.handlers, key) < |a.handlers| {
      WaitingIs(a, key, Latest(front, key));
      ReplySame(a, s.code, s.ok, key, Latest(front, key));
    } else {
      NoMatch(a.handlers, key);
      NoResult(a, s.code, key, s.ok);
    }
  }

  lemma NoMatch(hs: seq<Handler>, key: Key)
    ensures Find(hs, key) <= |hs|
  {}

  lemma WaitingIs(a: Agent, key: Key, o: Opened)
    requires Good(a, key, o) && Find(a.handlers, key) < |a.handlers|
    ensures var i, n := Find(a.handlers, key), |Since(a, key, o.before)|;
            && HandlersFor(a.handlers, key) != [] && n <= |o.chain|
            && (a.handlers[i].rest != [] <==> n < |o.chain|)
  {
    var i, n := Find(a.handlers, key), |Since(a, key, o.before)|;
    SomeHandler(a.handlers, i, key);
    OnlyHandler(a.handlers, i, key, Handler(key, o.validSn, o.chain[n - 1], o.chain[n..]));
  }

  // ----- the items -----

  lemma {:induction false} ItemsSplit(chain: seq<Msg>, n: nat)
    requires n <= |chain|
    ensures Items(chain[..n]) + Items(chain[n..]) == Items(chain)
  {
    if n == 0 {
      assert chain[0..] == chain;
      NilLeft(Items(chain));
    } else {
      ItemsSplit(chain[1..], n - 1);
      assert chain[..n][1..] == chain[1..][..n - 1] && chain[1..][n - 1..] == chain[n..];
      Assoc(chain[0].items, Items(chain[1..][..n - 1]), Items(chain[n..]));
    }
  }

  /** A catalog is sent two items a message, each carrying the total. */
  lemma {:induction false} CatalogIs(items: seq<string>, total: nat)
    ensures var c := CatalogChain(items, total);
            && Items(c) == items && (c == [] <==> items == [])
            && (forall i :: 0 <= i < |c| ==> 1 <= |c[i].items| <= 2 && c[i].sumNum == total)
            && (forall i :: 0 <= i < |c| - 1 ==> |c[i].items| == 2)
    decreases |items|
  {
    if items != [] {
      var n := Min(2, |items|);
      CatalogIs(items[n..], total);
      assert items[..n] + items[n..] == items;
    }
  }

  /** The items delivered since a catalog query was opened are, in order and without
      repeats, the beginning of those queried, whatever results come. */
  lemma ItemsDelivered(steps: seq<Step>, key: Key, items: seq<string>)
    requires Alone(steps, key) && Latest(steps, key).chain == CatalogChain(items, |items|)
    ensures var done := Since(Run(steps), key, Latest(steps, key).before);
            Items(done) <= items && (|done| == |Latest(steps, key).chain| ==> Items(done) == items)
  {
    RunGood(steps, key);
    CatalogIs(items, |items|);
    ItemsSplit(CatalogChain(items, |items|), |Since(Run(steps), key, Latest(steps, key).before)|);
  }

  /** The device's answer when it gives its records in pairs. */
  function Pairs(items: seq<string>): nat -> seq<string> {
    (k: nat) => if 2 * k >= |items| then [] else items[2 * k..Min(2 * k + 2, |items|)]
  }

  /** Then a record query builds the same chain a catalog query does. */
  lemma {:induction false} RecordsInPairs(items: seq<string>, k: nat)
    requires 2 * k < |items|
    ensures RecordChain(|items|, Pairs(items), k, 2 * k) == CatalogChain(items[2 * k..], |items|)
    decreases |items| - 2 * k
  {
    var rest := items[2 * k..];
    var n := Min(2, |rest|);
    assert rest[..n] == Pairs(items)(k);
    if 2 * k + n < |items| {
      RecordsInPairs(items, k + 1);
      assert rest[n..] == items[2 * (k + 1)..];
    } else {
      assert rest[n..] == [];
    }
  }

  /** Whatever the device answers, the k-th message carries its k-th answer. */
  lemma {:induction false} RecordsFollow(total: int, answer: nat -> seq<string>, k: nat, num: nat, i: nat)
    requires num < total && i < |RecordChain(total, answer, k, num)|
    ensures RecordChain(total, answer, k, num)[i] == Msg(total, answer(k + i))
    decreases total - num
  {
    var items := answer(k);
    if items != [] && num + |items| < total && i > 0 {
      RecordsFollow(total, answer, k + 1, num + |items|, i - 1);
      assert k + 1 + (i - 1) == k + i;
    }
  }

  /** When the device has no records, or says so, one message goes out: it promises none and
      carries none. */
  lemma NoRecords(total: int, answer: nat -> seq<string>, key: Key, validSn: bool, steps: seq<Step>)
    requires total <= 0
    ensures var a := Run(steps);
            var b := Run(steps + [Query(key, validSn, RecordChain(total, answer, 0, 0), true)]);
            && b.sent == a.sent + [Sent(key, Msg(0, []))]
            && b.handlers == a.handlers + [Handler(key, validSn, Msg(0, []), [])]
  {
    var query := Query(key, validSn, RecordChain(total, answer, 0, 0), true);
    assert (steps + [query])[..|steps|] == steps;
    assert query.chain[1..] == [];
  }

  /** The items of a run of messages. */
  function Count(chain: seq<Msg>): nat {
    if chain == [] then 0 else |chain[0].items| + Count(chain[1..])
  }

  lemma CountOne(m: Msg)
    ensures Count([m]) == |m.items|
  {}

  /** The chain ends at the first empty answer, or as soon as the total is reached. */
  lemma {:induction false} RecordsEnd(total: int, answer: nat -> seq<string>, k: nat, num: nat)
    requires num < total
    ensures Ended(total, RecordChain(total, answer, k, num), num)
    decreases total - num
  {
    hide Ended;
    var items := answer(k);
    if items == [] || num + |items| >= total {
      OneEnds(total, Msg(total, items), num);
    } else {
      RecordsEnd(total, answer, k + 1, num + |items|);
      ChainEnds(total, Msg(total, items), RecordChain(total, answer, k + 1, num + |items|), num);
    }
  }

  /** Only the last message is empty or reaches the total. */
  ghost predicate Ended(total: int, c: seq<Msg>, num: nat) {
    && c != []
    && (forall i :: 0 <= i < |c| - 1 ==> c[i].items != [])
    && (c[|c| - 1].items == [] || num + Count(c) >= total)
    && num + Count(c[..|c| - 1]) < total
  }

  lemma OneEnds(total: int, m: Msg, num: nat)
    requires num < total && (m.items == [] || num + |m.items| >= total)
    ensures Ended(total, [m], num)
  {
    CountOne(m);
    assert [m][..0] == [];
  }

  lemma ChainEnds(total: int, m: Msg, r: seq<Msg>, num: nat)
    requires m.items != [] && Ended(total, r, num + |m.items|)
    ensures Ended(total, [m] + r, num)
  {
    var c := [m] + r;
    assert c[1..] == r && c[..|c| - 1] == [m] + r[..|r| - 1];
    assert ([m] + r[..|r| - 1])[1..] == r[..|r| - 1];
    forall i | 0 <= i < |c| - 1 ensures c[i].items != [] {
      if i > 0 { assert c[i] == r[i - 1]; }
    }
  }

  // ----- what the condition is for -----

  /** A query opened while a handler of its command type and SN waits: two handlers wait
      under one key, and a result meant for the second sends the first one's next
      message. */
  lemma SharedSn(key: Key, a: Msg, b: Msg, c: Msg)
    ensures var steps := [Query(key, true, [a, b], true), Query(key, true, [c], true)];
            && !Alone(steps, key) && |HandlersFor(Run(steps).handlers, key)| == 2
            && SentFor(Run(steps + [Reply(200, key, true)]).sent, key) == [a, c, b]
  {
    var s0: Step, s1: Step, s2: Step := Query(key, true, [a, b], true), Query(key, true, [c], true), Reply(200, key, true);
    var steps := [s0, s1];
    assert [s0][..0] == [] && steps[..1] == [s0] && (steps + [s2])[..2] == steps;
    var h0, h1 := Handler(key, true, a, [b]), Handler(key, true, c, []);
    assert [a, b][1..] == [b] && [c][1..] == [];
    var r0, r1 := Agent([h0], [Sent(key, a)]), Agent([h0, h1], [Sent(key, a), Sent(key, c)]);
    assert Run([s0]) == r0;
    assert Run(steps) == r1;
    HandlersMore([h0], h1, key);
    HandlersMore([], h0, key);
    assert [h0, h1] == [h0] + [h1] && [h0] == [] + [h0];
    assert Run(steps + [s2]).sent == [Sent(key, a), Sent(key, c), Sent(key, b)];
    SentMore([], Sent(key, a), key);
    SentMore([Sent(key, a)], Sent(key, c), key);
    SentMore([Sent(key, a), Sent(key, c)], Sent(key, b), key);
    InHandlers([h0], 0);
  }
}
