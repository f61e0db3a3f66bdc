/**
 * Sales channels: the channels every plugin registers through the
 * `register_sales_channels` signal, merged by identifier into one ordered
 * registry and cached for the life of the process.
 *
 * The signal dispatch is the parameter `responses`: one response per
 * receiver, in dispatch order.
 */
module Channels {
  import opened Wrappers

  /** A sales channel with the properties its base class defines. */
  datatype SalesChannel = SalesChannel(
    identifier: string,
    verboseName: string,
    icon: string,
    testmodeSupported: bool,
    paymentRestrictionsSupported: bool,
    unlimitedItemsPerOrder: bool)

  /** A channel that overrides only its identifier and name keeps the base class's defaults. */
  function PlainChannel(identifier: string, verboseName: string): (c: SalesChannel)
    ensures c.identifier == identifier && c.verboseName == verboseName
    ensures c.icon == "circle"
    ensures c.testmodeSupported && c.paymentRestrictionsSupported && !c.unlimitedItemsPerOrder
  {
    SalesChannel(identifier, verboseName, "circle", true, true, false)
  }

  /** `WebshopSalesChannel`: the online shop, with its own icon. */
  const Webshop: SalesChannel := PlainChannel("web", "Online shop").(icon := "globe")

  /** What one receiver returned: a single channel, or a list or tuple of them. */
  datatype Response = Single(channel: SalesChannel) | Many(channels: seq<SalesChannel>)

  /** `base_sales_channels`: a one-element tuple holding the online shop. */
  function BaseSalesChannels(): (r: Response)
    ensures r.Many? && |r.channels| == 1
    ensures r.channels[0].identifier == "web" && r.channels[0].icon == "globe"
    ensures r.channels[0].testmodeSupported && !r.channels[0].unlimitedItemsPerOrder
  {
    Many([Webshop])
  }

  /** The channels a response contributes, in order. */
  function Contributed(response: Response): seq<SalesChannel> {
    match response
    case Single(c) => [c]
    case Many(cs) => cs
  }

  /** All registrations of a dispatch, in order. */
  function Registrations(responses: seq<Response>): seq<SalesChannel> {
    if responses == [] then []
    else Registrations(responses[..|responses| - 1]) + Contributed(responses[|responses| - 1])
  }

  // ---------------------------------------------------------------------
  // The ordered registry

  /** An `OrderedDict` from identifier to channel: its keys in insertion order, and its entries. */
  datatype Registry = Registry(keys: seq<string>, entries: map<string, SalesChannel>) {
    ghost predicate Valid() {
      && (forall i, j :: 0 <= i < j < |keys| ==> keys[i] != keys[j])
      && (forall k :: k in entries <==> k in keys)
    }

    /** An `OrderedDict` is truthy when it holds at least one entry. */
    predicate NonEmpty() {
      keys != []
    }

    /**
     * `types[c.identifier] = c`: a new identifier goes to the end; a known
     * one keeps its place and takes the new value.
     */
    function Put(c: SalesChannel): (r: Registry)
      ensures r.entries == entries[c.identifier := c]
      ensures c.identifier in entries ==> r.keys == keys
      ensures c.identifier !in entries ==> r.keys == keys + [c.identifier]
    {
      if c.identifier in entries then Registry(keys, entries[c.identifier := c])
      else Registry(keys + [c.identifier], entries[c.identifier := c])
    }
  }

  const EmptyRegistry := Registry([], map[])

  /** The registry the registrations build, one `Put` after another. */
  function Build(regs: seq<SalesChannel>): Registry {
    if regs == [] then EmptyRegistry else Build(regs[..|regs| - 1]).Put(regs[|regs| - 1])
  }

  /** `Put` keeps the keys distinct and in step with the entries. */
  lemma PutValid(r: Registry, c: SalesChannel)
    requires r.Valid()
    ensures r.Put(c).Valid()
  {
  }

  /** Every registry the registrations build is well formed. */
  lemma {:induction false} BuildValid(regs: seq<SalesChannel>)
    ensures Build(regs).Valid()
  {
    if regs != [] {
      BuildValid(regs[..|regs| - 1]);
      PutValid(Build(regs[..|regs| - 1]), regs[|regs| - 1]);
    }
  }

  /** Whether some registration in `regs` has identifier `k`. */
  predicate Registered(regs: seq<SalesChannel>, k: string) {
    exists i :: 0 <= i < |regs| && regs[i].identifier == k
  }

  /** The position of the first registration of `k`. */
  function FirstIndex(regs: seq<SalesChannel>, k: string): (i: nat)
    requires Registered(regs, k)
    ensures i < |regs| && regs[i].identifier == k
    ensures forall j :: 0 <= j < i ==> regs[j].identifier != k
  {
    if regs[0].identifier == k then 0
    else
      assert Registered(regs[1..], k) by {
        var i :| 0 <= i < |regs| && regs[i].identifier == k;
        assert regs[1..][i - 1] == regs[i];
      }
      1 + FirstIndex(regs[1..], k)
  }

  /** The position of the last registration of `k`. */
  function LastIndex(regs: seq<SalesChannel>, k: string): (i: nat)
    requires Registered(regs, k)
    ensures i < |regs| && regs[i].identifier == k
    ensures forall j :: i < j < |regs| ==> regs[j].identifier != k
  {
    if regs[|regs| - 1].identifier == k then |regs| - 1
    else
      assert Registered(regs[..|regs| - 1], k) by {
        var i :| 0 <= i < |regs| && regs[i].identifier == k;
        assert regs[..|regs| - 1][i] == regs[i];
      }
      LastIndex(regs[..|regs| - 1], k)
  }

  /** Exactly the registered identifiers are keys, and each holds its last registration. */
  lemma {:induction false} BuildEntries(regs: seq<SalesChannel>)
    ensures forall k :: k in Build(regs).entries <==> Registered(regs, k)
    ensures forall k :: k in Build(regs).entries ==> Build(regs).entries[k] == regs[LastIndex(regs, k)]
  {
    if regs != [] {
      var init := regs[..|regs| - 1];
      var last := regs[|regs| - 1];
      BuildEntries(init);
      BuildValid(init);
      forall k
        ensures k in Build(regs).entries <==> Registered(regs, k)
      {
        if Registered(init, k) {
          var i :| 0 <= i < |init| && init[i].identifier == k;
          assert regs[i] == init[i];
        }
        if Registered(regs, k) && k != last.identifier {
          var i :| 0 <= i < |regs| && regs[i].identifier == k;
          assert init[i] == regs[i];
        }
      }
      forall k | k in Build(regs).entries
        ensures Build(regs).entries[k] == regs[LastIndex(regs, k)]
      {
        if k != last.identifier {
          assert Registered(init, k);
          var li := LastIndex(init, k);
          assert regs[li] == init[li];
          assert LastIndex(regs, k) == LastIndex(init, k);
        }
      }
    }
  }

  /** The keys are in the order of each identifier's first registration. */
  lemma {:induction false} BuildOrder(regs: seq<SalesChannel>)
    ensures forall k :: k in Build(regs).keys ==> Registered(regs, k)
    ensures forall i, j :: 0 <= i < j < |Build(regs).keys| ==>
      FirstIndex(regs, Build(regs).keys[i]) < FirstIndex(regs, Build(regs).keys[j])
  {
    BuildValid(regs);
    BuildEntries(regs);
    if regs != [] {
      var init := regs[..|regs| - 1];
      var last := regs[|regs| - 1];
      assert regs == init + [last];
      BuildOrder(init);
      BuildValid(init);
      BuildEntries(init);
      forall i, j | 0 <= i < j < |Build(regs).keys|
        ensures FirstIndex(regs, Build(regs).keys[i]) < FirstIndex(regs, Build(regs).keys[j])
      {
        OrderStep(init, last, i, j);
      }
    }
  }

  /** One `Put` keeps the order of the keys it had and adds a new key after all of them. */
  lemma OrderStep(init: seq<SalesChannel>, last: SalesChannel, i: nat, j: nat)
    requires forall k :: k in Build(init).keys ==> Registered(init, k)
    requires forall i, j :: 0 <= i < j < |Build(init).keys| ==>
      FirstIndex(init, Build(init).keys[i]) < FirstIndex(init, Build(init).keys[j])
    requires forall k :: k in Build(init).entries <==> Registered(init, k)
    requires i < j < |Build(init).Put(last).keys|
    ensures Registered(init + [last], Build(init).Put(last).keys[i])
    ensures Registered(init + [last], Build(init).Put(last).keys[j])
    ensures FirstIndex(init + [last], Build(init).Put(last).keys[i])
      < FirstIndex(init + [last], Build(init).Put(last).keys[j])
  {
    var prev := Build(init).keys;
    var keys := Build(init).Put(last).keys;
    var regs := init + [last];
    assert keys[i] == prev[i];
    FirstIndexPrefix(init, regs, keys[i]);
    if j < |prev| {
      assert keys[j] == prev[j];
      FirstIndexPrefix(init, regs, keys[j]);
    } else {
      FirstIndexOfNew(init, last);
    }
  }

  /** An identifier registered for the first time at the end has its first registration there. */
  lemma FirstIndexOfNew(init: seq<SalesChannel>, c: SalesChannel)
    requires !Registered(init, c.identifier)
    ensures Registered(init + [c], c.identifier) && FirstIndex(init + [c], c.identifier) == |init|
  {
    assert (init + [c])[|init|] == c;
  }

  /** The first registration of a key already registered in a prefix is found in that prefix. */
  lemma FirstIndexPrefix(init: seq<SalesChannel>, regs: seq<SalesChannel>, k: string)
    requires Registered(init, k) && init <= regs
    ensures Registered(regs, k) && FirstIndex(regs, k) == FirstIndex(init, k)
  {
    var f := FirstIndex(init, k);
    assert regs[f] == init[f];
  }

  // ---------------------------------------------------------------------
  // Collecting and caching

  /** One more registration is one more `Put`. */
  lemma BuildAppendOne(regs: seq<SalesChannel>, c: SalesChannel)
    ensures Build(regs + [c]) == Build(regs).Put(c)
  {
    assert (regs + [c])[..|regs|] == regs;
  }

  /** One more response contributes its channels at the end. */
  lemma RegistrationsStep(responses: seq<Response>, i: nat)
    requires i < |responses|
    ensures Registrations(responses[..i + 1]) == Registrations(responses[..i]) + Contributed(responses[i])
  {
    assert responses[..i + 1][..i] == responses[..i];
  }

  /** The inner loop of `get_all_sales_channels`: every channel of a list or tuple response, in order. */
  method PutAll(start: Registry, ghost before: seq<SalesChannel>, cs: seq<SalesChannel>) returns (types: Registry)
    requires start == Build(before)
    ensures types == Build(before + cs)
  {
    types := start;
    ghost var seen := before;
    var j := 0;
    while j < |cs|
      invariant 0 <= j <= |cs|
      invariant seen == before + cs[..j]
      invariant types == Build(seen)
    {
      BuildAppendOne(seen, cs[j]);
      assert cs[..j + 1] == cs[..j] + [cs[j]];
      seen := seen + [cs[j]];
      types := types.Put(cs[j]);
      j := j + 1;
    }
    assert cs[..j] == cs;
  }

  /** The loop of `get_all_sales_channels` over the dispatch's responses. */
  method Collect(responses: seq<Response>) returns (types: Registry)
    ensures types == Build(Registrations(responses))
  {
    types := EmptyRegistry;
    var i := 0;
    while i < |responses|
      invariant 0 <= i <= |responses|
      invariant types == Build(Registrations(responses[..i]))
    {
      RegistrationsStep(responses, i);
      match responses[i] {
        case Many(cs) =>
          types := PutAll(types, Registrations(responses[..i]), cs);
        case Single(c) =>
          BuildAppendOne(Registrations(responses[..i]), c);
          types := types.Put(c);
      }
      i := i + 1;
    }
    assert responses[..i] == responses;
  }

  /** `_ALL_CHANNELS`: the process-wide cache of `get_all_sales_channels`. */
  class ChannelCache {
    var cached: Option<Registry>

    /** At import time the cache is `None`. */
    constructor ()
      ensures cached == None
    {
      cached := None;
    }

    /** `if _ALL_CHANNELS:` — `None` and an empty registry are both falsy. */
    predicate Hit()
      reads this
    {
      cached.Some? && cached.value.NonEmpty()
    }

    /**
     * `get_all_sales_channels()`: a non-empty cached registry is returned
     * as it is, without dispatching; otherwise the registry is collected
     * afresh from `responses` and cached, even when it comes out empty.
     */
    method GetAll(responses: seq<Response>) returns (types: Registry)
      modifies this
      ensures old(Hit()) ==> types == old(cached).value && cached == old(cached)
      ensures !old(Hit()) ==> types == Build(Registrations(responses)) && cached == Some(types)
    {
      if cached.Some? && cached.value.NonEmpty() {
        return cached.value;
      }
      types := Collect(responses);
      cached := Some(types);
    }
  }

  /** Once the registry is non-empty, a second call returns it again, whatever the signal would answer now. */
  method CachedAfterFirstCall(responses1: seq<Response>, responses2: seq<Response>)
    returns (first: Registry, second: Registry)
    requires Registrations(responses1) != []
    ensures first == second == Build(Registrations(responses1))
  {
    var cache := new ChannelCache();
    first := cache.GetAll(responses1);
    NonEmptyBuild(Registrations(responses1));
    second := cache.GetAll(responses2);
  }

  /** At least one registration gives at least one key. */
  lemma NonEmptyBuild(regs: seq<SalesChannel>)
    requires regs != []
    ensures Build(regs).NonEmpty()
  {
    var r := Build(regs[..|regs| - 1]);
    BuildValid(regs[..|regs| - 1]);
    if regs[|regs| - 1].identifier in r.entries {
      assert regs[|regs| - 1].identifier in r.keys;
    }
  }

  /** With only the base receiver, the registry holds exactly the online shop under `"web"`. */
  lemma BaseRegistry()
    ensures Build(Registrations([BaseSalesChannels()])) == Registry(["web"], map["web" := Webshop])
  {
    assert Registrations([BaseSalesChannels()]) == [Webshop] by {
      assert [BaseSalesChannels()][..0] == [];
    }
    assert [Webshop][..0] == [];
  }
}
