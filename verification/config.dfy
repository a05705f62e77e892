/**
 * The configuration index built once per connection attempt (`cfgLookup`):
 * markets × channels flattened into a (market, channel) → settings map, and
 * a numeric subscription id → (market, channel) back-map.
 */
module Config {
  import opened Base

  /** The storage sinks a channel can commit to. */
  datatype Sink = Terminal | MySQL | ElasticSearch {
    /** The name used for the sink in a channel's `Storages` list. */
    function Name(): string {
      match this
      case Terminal => "terminal"
      case MySQL => "mysql"
      case ElasticSearch => "elastic_search"
    }
  }

  /** One configured channel of a market (`config.Info`). */
  datatype ChannelInfo = ChannelInfo(
    channel: string,          // "ticker" or "trade"
    connector: string,        // "websocket" or "rest"
    restPingIntSec: int,      // polling period of a REST channel
    wsConsiderIntSec: int,    // minimum gap between accepted websocket updates, 0 = every update
    storages: seq<string>)    // sink names

  /** One configured market (`config.Market`). */
  datatype Market = Market(id: string, commitName: string, info: seq<ChannelInfo>)

  /** `cfgLookupKey`. */
  datatype Key = Key(market: string, channel: string)

  /**
   * `cfgLookupVal`: the subscription id, the name records are committed
   * under, the throttle interval, the sinks that receive the channel's
   * records, and the time of the last accepted websocket update (`None` is
   * Go's zero `time.Time`).
   */
  datatype Entry = Entry(id: int, commitName: string, considerIntSec: int, sinks: set<Sink>, lastUpdated: Option<int>)

  /** The value a Go map read yields for a key it does not hold. */
  const ZeroEntry: Entry := Entry(0, "", 0, {}, None)

  /** One (market, channel) pair in configuration order. */
  datatype Slot = Slot(market: Market, info: ChannelInfo)

  /**
   * The index: `cfgMap`, `channelIds`, and the set of sinks whose shared
   * handle and delivery queues were created because some channel named them.
   */
  datatype Index = Index(cfg: map<Key, Entry>, channelIds: map<int, (string, string)>, handles: set<Sink>)

  /** A Go map read: the stored entry, or the zero entry for a missing key. */
  function Lookup(cfg: map<Key, Entry>, key: Key): (e: Entry)
    ensures key !in cfg ==> e == ZeroEntry
    ensures key in cfg ==> e == cfg[key]
  {
    if key in cfg then cfg[key] else ZeroEntry
  }

  /** The name records of a market are committed under. */
  function CommitName(m: Market): string
  {
    if m.commitName != "" then m.commitName else m.id
  }

  /** The sinks named in a storages list; unknown names are ignored. */
  function SinksNamed(storages: seq<string>): (sinks: set<Sink>)
    ensures forall s: Sink :: s in sinks <==> s.Name() in storages
  {
    (if Terminal.Name() in storages then {Terminal} else {}) +
    (if MySQL.Name() in storages then {MySQL} else {}) +
    (if ElasticSearch.Name() in storages then {ElasticSearch} else {})
  }

  function SlotsOf(m: Market): (slots: seq<Slot>)
    ensures |slots| == |m.info|
    ensures forall k :: 0 <= k < |slots| ==> slots[k] == Slot(m, m.info[k])
  {
    seq(|m.info|, k requires 0 <= k < |m.info| => Slot(m, m.info[k]))
  }

  /** Every (market, channel) pair, markets in order and each market's channels in order. */
  function Slots(markets: seq<Market>): seq<Slot>
  {
    if |markets| == 0 then [] else Slots(markets[..|markets| - 1]) + SlotsOf(markets[|markets| - 1])
  }

  function KeyOf(s: Slot): Key {
    Key(s.market.id, s.info.channel)
  }

  /** The settings recorded for one pair under subscription id `id`. */
  function EntryFor(s: Slot, id: int): Entry {
    Entry(id, CommitName(s.market), s.info.wsConsiderIntSec, SinksNamed(s.info.storages), None)
  }

  /** The index after the first |slots| pairs: pair number n gets id n, a repeated key keeps its latest settings. */
  function IndexOf(slots: seq<Slot>): Index
  {
    if |slots| == 0 then Index(map[], map[], {})
    else
      var prev := IndexOf(slots[..|slots| - 1]);
      var s := slots[|slots| - 1];
      var id := |slots|;
      Index(prev.cfg[KeyOf(s) := EntryFor(s, id)],
            prev.channelIds[id := (s.market.id, s.info.channel)],
            prev.handles + SinksNamed(s.info.storages))
  }

  /** `cfgLookup` (it never fails). */
  function BuildIndex(markets: seq<Market>): Index {
    IndexOf(Slots(markets))
  }

  /** True iff no pair after position i has the same key as pair i. */
  predicate LastOccurrence(slots: seq<Slot>, i: int)
    requires 0 <= i < |slots|
  {
    forall j :: i < j < |slots| ==> KeyOf(slots[j]) != KeyOf(slots[i])
  }

  /** `s` is channel k of market j of the configuration, for some j and k. */
  ghost predicate Configured(markets: seq<Market>, s: Slot) {
    exists j, k :: 0 <= j < |markets| && 0 <= k < |markets[j].info| && s == Slot(markets[j], markets[j].info[k])
  }

  /** Every pair of the configuration appears in `Slots`, and nothing else does. */
  lemma {:induction false} SlotsEnumerate(markets: seq<Market>)
    ensures forall i :: 0 <= i < |Slots(markets)| ==> Configured(markets, Slots(markets)[i])
    ensures forall j, k :: 0 <= j < |markets| && 0 <= k < |markets[j].info| ==>
              Slot(markets[j], markets[j].info[k]) in Slots(markets)
  {
    if |markets| > 0 {
      var init := markets[..|markets| - 1];
      var last := markets[|markets| - 1];
      SlotsEnumerate(init);
      var slots := Slots(markets);
      assert slots == Slots(init) + SlotsOf(last);
      forall i | 0 <= i < |slots|
        ensures Configured(markets, slots[i])
      {
        if i < |Slots(init)| {
          assert Configured(init, Slots(init)[i]);
          var j, k :| 0 <= j < |init| && 0 <= k < |init[j].info| && Slots(init)[i] == Slot(init[j], init[j].info[k]);
          assert markets[j] == init[j];
          assert slots[i] == Slot(markets[j], markets[j].info[k]);
        } else {
          var j, k := |markets| - 1, i - |Slots(init)|;
          assert 0 <= k < |markets[j].info| && slots[i] == SlotsOf(last)[k];
          assert slots[i] == Slot(markets[j], markets[j].info[k]);
        }
      }
      forall j, k | 0 <= j < |markets| && 0 <= k < |markets[j].info|
        ensures Slot(markets[j], markets[j].info[k]) in slots
      {
        if j < |init| {
          assert markets[j] == init[j];
          assert Slot(init[j], init[j].info[k]) in Slots(init);
        } else {
          assert SlotsOf(last)[k] == Slot(markets[j], markets[j].info[k]);
        }
      }
    }
  }

  /** Ids run 1..n over the pairs in order, and id n names pair n. */
  lemma {:induction false} ChannelIdsBackMap(slots: seq<Slot>)
    ensures forall id :: id in IndexOf(slots).channelIds <==> 1 <= id <= |slots|
    ensures forall id :: 1 <= id <= |slots| ==>
              IndexOf(slots).channelIds[id] == (slots[id - 1].market.id, slots[id - 1].info.channel)
  {
    if |slots| > 0 {
      var init := slots[..|slots| - 1];
      ChannelIdsBackMap(init);
      assert forall k :: 0 <= k < |init| ==> init[k] == slots[k];
    }
  }

  /** The keys of the index are exactly the keys of the configured pairs. */
  lemma {:induction false} CfgKeys(slots: seq<Slot>)
    ensures forall key :: key in IndexOf(slots).cfg <==> exists i :: 0 <= i < |slots| && KeyOf(slots[i]) == key
  {
    if |slots| > 0 {
      var init := slots[..|slots| - 1];
      CfgKeys(init);
      forall key | key in IndexOf(slots).cfg
        ensures exists i :: 0 <= i < |slots| && KeyOf(slots[i]) == key
      {
        if key != KeyOf(slots[|slots| - 1]) {
          assert key in IndexOf(init).cfg;
          var i :| 0 <= i < |init| && KeyOf(init[i]) == key;
          assert slots[i] == init[i];
        }
      }
      forall key | exists i :: 0 <= i < |slots| && KeyOf(slots[i]) == key
        ensures key in IndexOf(slots).cfg
      {
        var i :| 0 <= i < |slots| && KeyOf(slots[i]) == key;
        if i < |init| {
          assert init[i] == slots[i];
        }
      }
    }
  }

  /** The entry stored for a key is the one built from the key's last occurrence, with that occurrence's id. */
  lemma {:induction false} CfgLastOccurrenceWins(slots: seq<Slot>, i: int)
    requires 0 <= i < |slots| && LastOccurrence(slots, i)
    ensures KeyOf(slots[i]) in IndexOf(slots).cfg
    ensures IndexOf(slots).cfg[KeyOf(slots[i])] == EntryFor(slots[i], i + 1)
  {
    var init := slots[..|slots| - 1];
    if i < |slots| - 1 {
      assert init[i] == slots[i];
      assert LastOccurrence(init, i) by {
        forall j | i < j < |init| ensures KeyOf(init[j]) != KeyOf(init[i]) {
          assert init[j] == slots[j];
        }
      }
      CfgLastOccurrenceWins(init, i);
    }
  }

  /** The two maps agree: an entry's id names its own key in the back-map. */
  lemma {:induction false} CfgIdsConsistent(slots: seq<Slot>)
    ensures forall key :: key in IndexOf(slots).cfg ==>
              1 <= IndexOf(slots).cfg[key].id <= |slots| &&
              IndexOf(slots).cfg[key].id in IndexOf(slots).channelIds &&
              IndexOf(slots).channelIds[IndexOf(slots).cfg[key].id] == (key.market, key.channel)
  {
    if |slots| > 0 {
      var init := slots[..|slots| - 1];
      CfgIdsConsistent(init);
      ChannelIdsBackMap(slots);
    }
  }

  /** A sink's handle exists exactly when some pair names that sink. */
  lemma {:induction false} HandlesNamed(slots: seq<Slot>)
    ensures forall s: Sink :: s in IndexOf(slots).handles <==>
              exists i :: 0 <= i < |slots| && s.Name() in slots[i].info.storages
  {
    if |slots| > 0 {
      var init := slots[..|slots| - 1];
      HandlesNamed(init);
      forall s: Sink ensures s in IndexOf(slots).handles <==>
                         exists i :: 0 <= i < |slots| && s.Name() in slots[i].info.storages
      {
        if s in IndexOf(init).handles {
          var i :| 0 <= i < |init| && s.Name() in init[i].info.storages;
          assert slots[i] == init[i];
        }
        if exists i :: 0 <= i < |slots| && s.Name() in slots[i].info.storages {
          var i :| 0 <= i < |slots| && s.Name() in slots[i].info.storages;
          if i < |init| {
            assert init[i] == slots[i];
          }
        }
      }
    }
  }

  /**
   * What `cfgLookup` records for one configured pair that is the last one
   * with its key: its id is its 1-based position, the commit name defaults
   * to the market id, each sink flag is set iff the sink is named, the
   * throttle interval is copied, and no update has been accepted yet.
   */
  lemma BuildIndexEntry(markets: seq<Market>, i: int)
    requires 0 <= i < |Slots(markets)| && LastOccurrence(Slots(markets), i)
    ensures var s := Slots(markets)[i];
      var e := Lookup(BuildIndex(markets).cfg, KeyOf(s));
      && KeyOf(s) in BuildIndex(markets).cfg
      && e.id == i + 1
      && e.id in BuildIndex(markets).channelIds
      && BuildIndex(markets).channelIds[e.id] == (s.market.id, s.info.channel)
      && (s.market.commitName != "" ==> e.commitName == s.market.commitName)
      && (s.market.commitName == "" ==> e.commitName == s.market.id)
      && (forall sink: Sink :: sink in e.sinks <==> sink.Name() in s.info.storages)
      && e.considerIntSec == s.info.wsConsiderIntSec
      && e.lastUpdated.None?
  {
    CfgLastOccurrenceWins(Slots(markets), i);
    ChannelIdsBackMap(Slots(markets));
  }
}
