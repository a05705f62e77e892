/**
 * The start-up loop of one connection attempt (`newKucoin`): walking the
 * configured (market, channel) pairs in order, it opens the websocket on the
 * first push channel, sends one subscription request per push channel
 * (pausing after every 89 of them), sets up the REST client on the first
 * poll channel and starts one poller per poll channel. The loop is modelled
 * as the list of actions it performs.
 */
module Subscriber {
  import opened Base
  import opened Topics
  import opened Config

  /** Subscription requests sent before a pause: 90% of the venue's 100 messages per 10 s, less one for the ping. */
  const Burst: int := 89

  /** The length of the pause, in seconds. */
  const PauseSeconds: int := 20

  datatype Action =
    | OpenStream                                 // connectWs and the stream tasks
    | Subscribe(request: SubRequest)             // subWsChannel
    | Pause(seconds: int)                        // time.Sleep
    | OpenRest                                   // connectRest
    | StartPoller(mktId: string, commitName: string, channel: string, intervalSec: int)  // processREST task

  /** The loop's counters (`wsCount`, `restCount`, `threshold`) and the actions so far. */
  datatype PlanState = PlanState(wsCount: nat, restCount: nat, threshold: int, actions: seq<Action>)

  const Initial: PlanState := PlanState(0, 0, 0, [])

  /**
   * What the loop body sends for a push pair: the stream is opened first if
   * this is the first push pair, then the request, then the pause if this
   * request completes a run of 89.
   */
  function WsActions(st: PlanState, req: SubRequest): seq<Action> {
    (if st.wsCount == 0 then [OpenStream] else [])
    + [Subscribe(req)]
    + (if st.threshold + 1 == Burst then [Pause(PauseSeconds)] else [])
  }

  /** What the loop body does for a poll pair: the REST client is set up first if this is the first poll pair. */
  function RestActions(st: PlanState, poller: Action): seq<Action> {
    (if st.restCount == 0 then [OpenRest] else []) + [poller]
  }

  /** The loop body for one configured pair. Connectors other than "websocket" and "rest" are skipped. */
  function PlanStep(idx: Index, st: PlanState, s: Slot): PlanState
  {
    if s.info.connector == "websocket" then
      var req := SubscribeRequest(s.market.id, s.info.channel, Lookup(idx.cfg, KeyOf(s)).id);
      var threshold := if st.threshold + 1 == Burst then 0 else st.threshold + 1;
      PlanState(st.wsCount + 1, st.restCount, threshold, st.actions + WsActions(st, req))
    else if s.info.connector == "rest" then
      var poller := StartPoller(s.market.id, CommitName(s.market), s.info.channel, s.info.restPingIntSec);
      PlanState(st.wsCount, st.restCount + 1, st.threshold, st.actions + RestActions(st, poller))
    else st
  }

  function PlanSlots(idx: Index, slots: seq<Slot>): PlanState
  {
    if |slots| == 0 then Initial else PlanStep(idx, PlanSlots(idx, slots[..|slots| - 1]), slots[|slots| - 1])
  }

  /** The actions of one attempt's start-up, assuming every connection and write succeeds. */
  function Plan(markets: seq<Market>): PlanState {
    PlanSlots(BuildIndex(markets), Slots(markets))
  }

  datatype Kind = KOpenStream | KSubscribe | KPause | KOpenRest | KStartPoller

  function KindOf(a: Action): Kind {
    match a
    case OpenStream => KOpenStream
    case Subscribe(_) => KSubscribe
    case Pause(_) => KPause
    case OpenRest => KOpenRest
    case StartPoller(_, _, _, _) => KStartPoller
  }

  /** How many of `actions` are of kind `k`. */
  function Count(actions: seq<Action>, k: Kind): nat {
    multiset(seq(|actions|, i requires 0 <= i < |actions| => KindOf(actions[i])))[k]
  }

  lemma CountAppend(a: seq<Action>, b: seq<Action>)
    ensures forall k :: Count(a + b, k) == Count(a, k) + Count(b, k)
  {
    var ka := seq(|a|, i requires 0 <= i < |a| => KindOf(a[i]));
    var kb := seq(|b|, i requires 0 <= i < |b| => KindOf(b[i]));
    assert seq(|a + b|, i requires 0 <= i < |a + b| => KindOf((a + b)[i])) == ka + kb;
  }

  lemma CountOne(a: Action)
    ensures forall k :: Count([a], k) == if KindOf(a) == k then 1 else 0
  {
    assert seq(1, i requires 0 <= i < 1 => KindOf([a][i])) == [KindOf(a)];
  }

  /** The number of pairs among `slots` whose connector is `connector`. */
  function Using(slots: seq<Slot>, connector: string): nat
  {
    if |slots| == 0 then 0
    else Using(slots[..|slots| - 1], connector) + (if slots[|slots| - 1].info.connector == connector then 1 else 0)
  }

  /** The loop's invariant: what its counters say about the actions performed so far. */
  ghost predicate Paced(st: PlanState) {
    && 0 <= st.threshold < Burst
    && Count(st.actions, KSubscribe) == st.wsCount
    && Count(st.actions, KPause) * Burst + st.threshold == st.wsCount
    && Count(st.actions, KOpenStream) == (if st.wsCount > 0 then 1 else 0)
    && Count(st.actions, KStartPoller) == st.restCount
    && Count(st.actions, KOpenRest) == (if st.restCount > 0 then 1 else 0)
  }

  lemma WsActionsCount(st: PlanState, req: SubRequest)
    ensures Count(WsActions(st, req), KOpenStream) == (if st.wsCount == 0 then 1 else 0)
    ensures Count(WsActions(st, req), KSubscribe) == 1
    ensures Count(WsActions(st, req), KPause) == (if st.threshold + 1 == Burst then 1 else 0)
    ensures Count(WsActions(st, req), KOpenRest) == 0 && Count(WsActions(st, req), KStartPoller) == 0
  {
    var open := if st.wsCount == 0 then [OpenStream] else [];
    var pause := if st.threshold + 1 == Burst then [Pause(PauseSeconds)] else [];
    if st.wsCount == 0 {
      CountOne(OpenStream);
    }
    if st.threshold + 1 == Burst {
      CountOne(Pause(PauseSeconds));
    }
    CountOne(Subscribe(req));
    CountAppend(open, [Subscribe(req)]);
    CountAppend(open + [Subscribe(req)], pause);
  }

  lemma RestActionsCount(st: PlanState, poller: Action)
    requires poller.StartPoller?
    ensures Count(RestActions(st, poller), KOpenRest) == (if st.restCount == 0 then 1 else 0)
    ensures Count(RestActions(st, poller), KStartPoller) == 1
    ensures Count(RestActions(st, poller), KOpenStream) == 0 && Count(RestActions(st, poller), KSubscribe) == 0
    ensures Count(RestActions(st, poller), KPause) == 0
  {
    if st.restCount == 0 {
      CountOne(OpenRest);
    }
    CountOne(poller);
    CountAppend(if st.restCount == 0 then [OpenRest] else [], [poller]);
  }

  lemma PlanStepPaced(idx: Index, st: PlanState, s: Slot)
    requires Paced(st)
    ensures Paced(PlanStep(idx, st, s))
  {
    if s.info.connector == "websocket" {
      var req := SubscribeRequest(s.market.id, s.info.channel, Lookup(idx.cfg, KeyOf(s)).id);
      WsActionsCount(st, req);
      CountAppend(st.actions, WsActions(st, req));
    } else if s.info.connector == "rest" {
      var poller := StartPoller(s.market.id, CommitName(s.market), s.info.channel, s.info.restPingIntSec);
      RestActionsCount(st, poller);
      CountAppend(st.actions, RestActions(st, poller));
    }
  }

  /**
   * Pacing of the subscriptions: the threshold counter stays within 0..88,
   * one pause has been taken for every full run of 89 requests, and the
   * stream and the REST client are each set up exactly once when used.
   */
  lemma {:induction false} PlanSlotsPaced(idx: Index, slots: seq<Slot>)
    ensures Paced(PlanSlots(idx, slots))
    ensures PlanSlots(idx, slots).wsCount == Using(slots, "websocket")
    ensures PlanSlots(idx, slots).restCount == Using(slots, "rest")
  {
    if |slots| > 0 {
      PlanSlotsPaced(idx, slots[..|slots| - 1]);
      PlanStepPaced(idx, PlanSlots(idx, slots[..|slots| - 1]), slots[|slots| - 1]);
    }
  }

  /**
   * After n push subscriptions exactly n / 89 pauses have been taken and
   * the threshold counter holds n % 89.
   */
  lemma PausesAfterSubscriptions(markets: seq<Market>)
    ensures var st := Plan(markets);
      st.wsCount == Using(Slots(markets), "websocket") && Count(st.actions, KSubscribe) == st.wsCount &&
      Count(st.actions, KPause) == st.wsCount / Burst && st.threshold == st.wsCount % Burst
  {
    PlanSlotsPaced(BuildIndex(markets), Slots(markets));
  }

  /** With 200 push channels the start-up pauses twice (after the 89th and the 178th request). */
  lemma TwoHundredChannelsPauseTwice(markets: seq<Market>)
    requires Using(Slots(markets), "websocket") == 200
    ensures Count(Plan(markets).actions, KPause) == 2
  {
    PausesAfterSubscriptions(markets);
  }

  /** `req` is the subscription request for some push pair among `slots`. */
  ghost predicate RequestFor(idx: Index, slots: seq<Slot>, req: SubRequest) {
    exists j :: 0 <= j < |slots| && slots[j].info.connector == "websocket" &&
      req == SubRequest(Lookup(idx.cfg, KeyOf(slots[j])).id, "subscribe",
                        TopicFor(slots[j].market.id, slots[j].info.channel), false, true)
  }

  /**
   * Every subscription request the start-up sends is a `subscribe` frame
   * for a push pair, carrying the id the index gives that pair and the
   * topic built for its channel.
   */
  lemma {:induction false} PlanRequests(idx: Index, slots: seq<Slot>, i: int)
    requires 0 <= i < |PlanSlots(idx, slots).actions| && PlanSlots(idx, slots).actions[i].Subscribe?
    ensures RequestFor(idx, slots, PlanSlots(idx, slots).actions[i].request)
  {
    var init := slots[..|slots| - 1];
    var before := PlanSlots(idx, init).actions;
    var acts := PlanSlots(idx, slots).actions;
    assert acts[..|before|] == before;
    if i < |before| {
      assert acts[i] == before[i];
      PlanRequests(idx, init, i);
      var j :| 0 <= j < |init| && init[j].info.connector == "websocket" &&
        before[i].request == SubRequest(Lookup(idx.cfg, KeyOf(init[j])).id, "subscribe",
                                        TopicFor(init[j].market.id, init[j].info.channel), false, true);
      assert slots[j] == init[j];
    } else {
      var j := |slots| - 1;
      assert slots[j].info.connector == "websocket";
      assert acts[i].request == SubRequest(Lookup(idx.cfg, KeyOf(slots[j])).id, "subscribe",
                                           TopicFor(slots[j].market.id, slots[j].info.channel), false, true);
    }
  }

  /** The subscription requests among `actions`, in the order they are sent. */
  function Requests(actions: seq<Action>): seq<SubRequest>
  {
    if |actions| == 0 then []
    else
      var last := actions[|actions| - 1];
      Requests(actions[..|actions| - 1]) + (if last.Subscribe? then [last.request] else [])
  }

  lemma {:induction false} RequestsAppend(a: seq<Action>, b: seq<Action>)
    decreases |b|
    ensures Requests(a + b) == Requests(a) + Requests(b)
  {
    if |b| == 0 {
      assert a + b == a;
    } else {
      var ab := a + b;
      assert ab[..|ab| - 1] == a + b[..|b| - 1];
      assert ab[|ab| - 1] == b[|b| - 1];
      RequestsAppend(a, b[..|b| - 1]);
    }
  }

  lemma WsActionsRequests(st: PlanState, req: SubRequest)
    ensures Requests(WsActions(st, req)) == [req]
  {
    var open := if st.wsCount == 0 then [OpenStream] else [];
    var pause := if st.threshold + 1 == Burst then [Pause(PauseSeconds)] else [];
    assert Requests(open) == [] by {
      if st.wsCount == 0 { assert open[..0] == []; }
    }
    assert Requests(pause) == [] by {
      if st.threshold + 1 == Burst { assert pause[..0] == []; }
    }
    assert Requests([Subscribe(req)]) == [req] by {
      assert [Subscribe(req)][..0] == [];
    }
    RequestsAppend(open, [Subscribe(req)]);
    RequestsAppend(open + [Subscribe(req)], pause);
  }

  lemma RestActionsRequests(st: PlanState, poller: Action)
    requires poller.StartPoller?
    ensures Requests(RestActions(st, poller)) == []
  {
    var open := if st.restCount == 0 then [OpenRest] else [];
    assert Requests(open) == [] by {
      if st.restCount == 0 { assert open[..0] == []; }
    }
    assert Requests([poller]) == [] by {
      assert [poller][..0] == [];
    }
    RequestsAppend(open, [poller]);
  }

  /** The requests the start-up owes: one per push pair, in configuration order, each with the pair's id from the index. */
  function WsRequests(idx: Index, slots: seq<Slot>): seq<SubRequest>
  {
    if |slots| == 0 then []
    else
      var s := slots[|slots| - 1];
      WsRequests(idx, slots[..|slots| - 1]) +
      (if s.info.connector == "websocket" then [SubscribeRequest(s.market.id, s.info.channel, Lookup(idx.cfg, KeyOf(s)).id)] else [])
  }

  /**
   * The start-up sends exactly the owed requests: every push pair gets its
   * own request, once, in configuration order, and nothing else is sent.
   */
  lemma {:induction false} PlanSendsEveryRequest(idx: Index, slots: seq<Slot>)
    ensures Requests(PlanSlots(idx, slots).actions) == WsRequests(idx, slots)
    ensures |WsRequests(idx, slots)| == Using(slots, "websocket")
  {
    if |slots| > 0 {
      var init := slots[..|slots| - 1];
      var s := slots[|slots| - 1];
      var st := PlanSlots(idx, init);
      PlanSendsEveryRequest(idx, init);
      if s.info.connector == "websocket" {
        var req := SubscribeRequest(s.market.id, s.info.channel, Lookup(idx.cfg, KeyOf(s)).id);
        WsActionsRequests(st, req);
        RequestsAppend(st.actions, WsActions(st, req));
      } else if s.info.connector == "rest" {
        var poller := StartPoller(s.market.id, CommitName(s.market), s.info.channel, s.info.restPingIntSec);
        RestActionsRequests(st, poller);
        RequestsAppend(st.actions, RestActions(st, poller));
      }
    }
  }
}
