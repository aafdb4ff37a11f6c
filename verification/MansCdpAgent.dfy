/** Agent/MANSCDPAgent.cpp and the query handlers of MANSCDP/A.2.4Query.cpp with their
    loops. The messages of a chain are held by value, in the order of their links. */
module MansCdpAgent {
  import opened Bytes
  import opened QueryChain
  import opened QueryChainProofs

  /** The loop of CatalogQuery::handle. */
  method BuildCatalog(items: seq<string>) returns (chain: seq<Msg>)
    ensures chain == CatalogChain(items, |items|)
  {
    chain := [];
    var num := 0;
    assert items[0..] == items;
    NilLeft(CatalogChain(items, |items|));
    while num < |items|
      invariant num <= |items| && chain + CatalogChain(items[num..], |items|) == CatalogChain(items, |items|)
    {
      var size := if |items| - num > 2 then 2 else |items| - num;
      var m := Msg(|items|, items[num..num + size]);
      ghost var rest := items[num..];
      assert rest[..size] == items[num..num + size] && rest[size..] == items[num + size..];
      Assoc(chain, [m], CatalogChain(items[num + size..], |items|));
      chain := chain + [m];
      num := num + size;
    }
    NilRight(chain);
  }

  /** The loop of RecordInfoQuery::handle. */
  method BuildRecords(total: int, answer: nat -> seq<string>) returns (chain: seq<Msg>)
    ensures chain == RecordChain(total, answer, 0, 0)
  {
    var next := Msg(0, []);
    chain := [];
    var num, k := 0, 0;
    NilLeft(RecordChain(total, answer, 0, 0));
    while num < total
      invariant num < total || k == 0
      invariant k == 0 ==> num == 0 && chain == [] && next == Msg(0, [])
      invariant chain + RecordChain(total, answer, k, num) == RecordChain(total, answer, 0, 0)
      decreases total - num
    {
      var items := answer(k);
      next := Msg(total, items);
      if |items| == 0 || num + |items| >= total {
        chain := chain + [next];
        return;
      }
      Assoc(chain, [next], RecordChain(total, answer, k + 1, num + |items|));
      chain := chain + [next];
      num, k := num + |items|, k + 1;
    }
    chain := chain + [next];
  }

  class MansCdpAgent {
    var handlers: seq<Handler>
    /** What the SIP layer took. */
    var sent: seq<Sent>

    ghost function Model(): Agent
      reads this
    {
      Agent(handlers, sent)
    }

    constructor ()
      ensures Model() == Agent([], [])
    {
      handlers, sent := [], [];
    }

    /** `taken`: what sendMANSCDP answers. */
    method SendCmd(h: Handler, taken: bool) returns (ok: bool)
      modifies this
      ensures ok == taken && Model() == QueryChain.SendCmd(old(Model()), h, taken)
    {
      if taken {
        sent := sent + [Sent(h.key, h.current)];
        handlers := handlers + [h];
        return true;
      }
      ok := false;
    }

    /** CatalogQuery::handle, with what the device answers: `parsed` when the request can be
        read, `found` when its device is there. */
    method HandleCatalog(parsed: bool, found: bool, key: Key, validSn: bool, items: seq<string>, taken: bool)
      returns (ok: bool)
      modifies this
      ensures ok == (parsed && found && items != [] && taken)
      ensures Model() == if parsed && found
                         then Next(old(Model()), Query(key, validSn, CatalogChain(items, |items|), taken))
                         else old(Model())
    {
      if !parsed { return false; }
      if !found { return false; }
      if |items| == 0 { return false; }
      var chain := BuildCatalog(items);
      ok := SendCmd(Handler(key, validSn, chain[0], chain[1..]), taken);
    }

    /** RecordInfoQuery::handle; `handle` when the device can make a handle for it. */
    method HandleRecordInfo(parsed: bool, found: bool, handle: bool, key: Key, validSn: bool, total: int,
                            answer: nat -> seq<string>, taken: bool)
      returns (ok: bool)
      modifies this
      ensures ok == (parsed && found && handle && taken)
      ensures Model() == if parsed && found && handle
                         then Next(old(Model()), Query(key, validSn, RecordChain(total, answer, 0, 0), taken))
                         else old(Model())
      ensures ok && total <= 0 ==> sent == old(sent) + [Sent(key, Msg(0, []))]
      ensures ok && total <= 0 ==> handlers == old(handlers) + [Handler(key, validSn, Msg(0, []), [])]
    {
      if !parsed { return false; }
      if !found { return false; }
      if !handle { return false; }
      var chain := BuildRecords(total, answer);
      assert total <= 0 ==> chain[1..] == [];
      ok := SendCmd(Handler(key, validSn, chain[0], chain[1..]), taken);
    }

    /** CatalogQueryResponse::handle and RecordInfoQueryResponse::handle. */
    method Handle(h: Handler, code: int, taken: bool) returns (ok: bool)
      modifies this
      ensures Model() == QueryChain.Handle(old(Model()), h, code, taken)
    {
      if code == 200 {
        if h.rest != [] {
          ok := SendCmd(Handler(h.key, h.validSn, h.rest[0], h.rest[1..]), taken);
          return;
        }
      }
      ok := true;
    }

    /** agent(code, cmd): the first matching handler handles the result and is erased; it
        may have pushed another at the end of the list being walked. */
    method AgentResult(code: int, key: Key, taken: bool) returns (matched: bool)
      modifies this
      ensures Model() == Next(old(Model()), Reply(code, key, taken))
      ensures matched <==> exists i :: 0 <= i < old(|handlers|) && Matches(old(handlers[i]), key)
    {
      var i := 0;
      while i < |handlers|
        invariant i <= |handlers| && Model() == old(Model())
        invariant forall j :: 0 <= j < i ==> !Matches(handlers[j], key)
      {
        if Matches(handlers[i], key) {
          FindIs(handlers, key, i);
          var done := Handle(handlers[i], code, taken);
          handlers := handlers[..i] + handlers[i + 1..];
          return true;
        }
        i := i + 1;
      }
      FindIs(handlers, key, i);
      matched := false;
    }
  }

  lemma FindIs(hs: seq<Handler>, key: Key, i: nat)
    requires i <= |hs| && (forall j :: 0 <= j < i ==> !Matches(hs[j], key)) && (i < |hs| ==> Matches(hs[i], key))
    ensures Find(hs, key) == i
  {}
}
