/**
 Allocation of device queues to the tasks of a run (interface/devmgr.lua and the
 threads that use it).

 Every thread first reserves the queues it will need.  Then the devices are
 configured, and every thread fetches its queues.  Receive queues with
 receive-side scaling come first on a device, other receive queues after them.
 */
module QueueAllocator {

  datatype Kind = Tx | Rx | Rss

  /** A reservation of, or a request for, one queue of a device. */
  datatype Ask = Ask(kind: Kind, dev: nat)

  /** A queue that was handed out. */
  datatype Queue = Queue(ask: Ask, index: nat) {
    /** Both kinds of receive queue share one numbering. */
    predicate SameDirection(other: Queue) {
      ask.kind.Tx? == other.ask.kind.Tx? && ask.dev == other.ask.dev
    }
  }

  /** Reserved queues, and queues handed out, of a device. */
  datatype Counters = Counters(rxq: nat, rsq: nat, txq: nat, rxqi: nat, rsqi: nat, txqi: nat)

  const NONE := Counters(0, 0, 0, 0, 0, 0)

  datatype Config = Config(rxQueues: nat, rssQueues: nat, txQueues: nat)

  /** The counters of a device; a device is created when it is first used. */
  function Look(devices: map<nat, Counters>, dev: nat): Counters {
    if dev in devices then devices[dev] else NONE
  }

  // ---------------------------------------------------------------- reserving

  function Reserve(c: Counters, kind: Kind): Counters {
    match kind
    case Tx => c.(txq := c.txq + 1)
    case Rx => c.(rxq := c.rxq + 1)
    case Rss => c.(rxq := c.rxq + 1, rsq := c.rsq + 1)
  }

  /** The counters after the reservations. */
  function Booked(rs: seq<Ask>): map<nat, Counters> {
    if rs == [] then map[]
    else
      var devices := Booked(rs[..|rs| - 1]);
      var a := rs[|rs| - 1];
      devices[a.dev := Reserve(Look(devices, a.dev), a.kind)]
  }

  function Times(asks: seq<Ask>, kind: Kind, dev: nat): nat { multiset(asks)[Ask(kind, dev)] }

  lemma TimesLast(asks: seq<Ask>, kind: Kind, dev: nat)
    requires asks != []
    ensures Times(asks, kind, dev)
            == Times(asks[..|asks| - 1], kind, dev) + if asks[|asks| - 1] == Ask(kind, dev) then 1 else 0
  {
    assert asks == asks[..|asks| - 1] + [asks[|asks| - 1]];
  }

  lemma {:induction false} BookedCounts(rs: seq<Ask>, d: nat)
    ensures Look(Booked(rs), d)
            == Counters(Times(rs, Rx, d) + Times(rs, Rss, d), Times(rs, Rss, d), Times(rs, Tx, d), 0, 0, 0)
  {
    if rs != [] {
      BookedCounts(rs[..|rs| - 1], d);
      TimesLast(rs, Tx, d);
      TimesLast(rs, Rx, d);
      TimesLast(rs, Rss, d);
    }
  }

  // ---------------------------------------------------------------- configuring

  function ConfigFor(c: Counters): Config {
    Config(if c.rxq == 0 then 1 else c.rxq, c.rsq, if c.txq == 0 then 1 else c.txq)
  }

  function Configured(devices: map<nat, Counters>): map<nat, Config> {
    map d | d in devices :: ConfigFor(devices[d])
  }

  // ---------------------------------------------------------------- handing out

  function Use(c: Counters, kind: Kind): Counters {
    match kind
    case Tx => c.(txqi := c.txqi + 1)
    case Rx => c.(rxqi := c.rxqi + 1)
    case Rss => c.(rsqi := c.rsqi + 1)
  }

  /** The index of the next queue of a kind. */
  function NextIndex(c: Counters, kind: Kind): nat {
    match kind
    case Tx => c.txqi
    case Rx => c.rsq + c.rxqi
    case Rss => c.rsqi
  }

  function HandOne(devices: map<nat, Counters>, a: Ask): map<nat, Counters> {
    devices[a.dev := Use(Look(devices, a.dev), a.kind)]
  }

  /** The counters after the requests. */
  function Handed(devices: map<nat, Counters>, qs: seq<Ask>): map<nat, Counters> {
    if qs == [] then devices else HandOne(Handed(devices, qs[..|qs| - 1]), qs[|qs| - 1])
  }

  /** The queues that answer the requests. */
  function Log(devices: map<nat, Counters>, qs: seq<Ask>): (log: seq<Queue>)
    ensures |log| == |qs|
  {
    if qs == [] then []
    else
      var front := qs[..|qs| - 1];
      var a := qs[|qs| - 1];
      Log(devices, front) + [Queue(a, NextIndex(Look(Handed(devices, front), a.dev), a.kind))]
  }

  lemma {:induction false} HandedCounts(devices: map<nat, Counters>, qs: seq<Ask>, d: nat)
    ensures var c := Look(devices, d);
            Look(Handed(devices, qs), d)
            == c.(rxqi := c.rxqi + Times(qs, Rx, d),
                  rsqi := c.rsqi + Times(qs, Rss, d),
                  txqi := c.txqi + Times(qs, Tx, d))
  {
    if qs != [] {
      HandedCounts(devices, qs[..|qs| - 1], d);
      TimesLast(qs, Tx, d);
      TimesLast(qs, Rx, d);
      TimesLast(qs, Rss, d);
    }
  }

  /** The first index of a kind of queue on a device. */
  function Base(rs: seq<Ask>, a: Ask): nat { if a.kind.Rx? then Times(rs, Rss, a.dev) else 0 }

  /** Queues of one kind are handed out in order, from their first index on. */
  lemma {:induction false} LogIndex(rs: seq<Ask>, qs: seq<Ask>, i: nat)
    requires i < |qs|
    ensures Log(Booked(rs), qs)[i] == Queue(qs[i], Base(rs, qs[i]) + multiset(qs[..i])[qs[i]])
  {
    var front := qs[..|qs| - 1];
    if i < |front| {
      LogIndex(rs, front, i);
      assert front[..i] == qs[..i];
    } else {
      BookedCounts(rs, qs[i].dev);
      HandedCounts(Booked(rs), front, qs[i].dev);
    }
  }

  // ---------------------------------------------------------------- soundness

  /** The queue exists on its device and lies among those of its kind. */
  predicate InRange(configured: map<nat, Config>, q: Queue) {
    && q.ask.dev in configured
    && match q.ask.kind {
      case Tx => q.index < configured[q.ask.dev].txQueues
      case Rss => q.index < configured[q.ask.dev].rssQueues
      case Rx => configured[q.ask.dev].rssQueues <= q.index < configured[q.ask.dev].rxQueues
    }
  }

  /** Every queue handed out exists, and none is handed out twice. */
  predicate Sound(configured: map<nat, Config>, log: seq<Queue>) {
    && (forall i :: 0 <= i < |log| ==> InRange(configured, log[i]))
    && (forall i, j :: 0 <= i < j < |log| && log[i].SameDirection(log[j]) ==> log[i].index != log[j].index)
  }

  lemma Earlier(qs: seq<Ask>, i: nat, j: nat)
    requires i < j <= |qs|
    ensures multiset(qs[..i])[qs[i]] < multiset(qs[..j])[qs[i]]
  {
    assert qs[..j] == qs[..i] + [qs[i]] + qs[i + 1..j];
  }

  lemma AnswerInRange(rs: seq<Ask>, qs: seq<Ask>, i: nat)
    requires multiset(qs) <= multiset(rs) && i < |qs|
    ensures InRange(Configured(Booked(rs)), Log(Booked(rs), qs)[i])
  {
    LogIndex(rs, qs, i);
    Earlier(qs, i, |qs|);
    assert qs[..|qs|] == qs;
    assert multiset(qs)[qs[i]] <= multiset(rs)[qs[i]];
    BookedCounts(rs, qs[i].dev);
  }

  /** Any tasks that fetch no more than was reserved, in whatever order, get
      queues that exist, and never the same queue twice. */
  lemma AllocationSound(rs: seq<Ask>, qs: seq<Ask>)
    requires multiset(qs) <= multiset(rs)
    ensures Sound(Configured(Booked(rs)), Log(Booked(rs), qs))
  {
    var log := Log(Booked(rs), qs);
    forall i | 0 <= i < |log| ensures InRange(Configured(Booked(rs)), log[i]) {
      AnswerInRange(rs, qs, i);
    }
    forall i, j | 0 <= i < j < |log| && log[i].SameDirection(log[j]) ensures log[i].index != log[j].index {
      LogIndex(rs, qs, i);
      LogIndex(rs, qs, j);
      if qs[i] == qs[j] {
        Earlier(qs, i, j);
      } else {
        AnswerInRange(rs, qs, i);
        AnswerInRange(rs, qs, j);
      }
    }
  }

  // ---------------------------------------------------------------- demand

  /** A flow: the devices it sends from and arrives at, whether it needs address
      resolution, and whether time stamps were asked for. */
  datatype Flow = Flow(tx: seq<nat>, rx: seq<nat>, arp: bool, timestamp: bool) {
    /** The option is accepted only for one sender and one receiver. */
    predicate Timestamped() { timestamp && |tx| == 1 && |rx| == 1 }
  }

  /** One queue of a kind for every entry of a list. */
  function ForEach(kind: Kind, devs: seq<nat>): seq<Ask> {
    if devs == [] then [] else ForEach(kind, devs[..|devs| - 1]) + [Ask(kind, devs[|devs| - 1])]
  }

  lemma {:induction false} ForEachConcat(kind: Kind, a: seq<nat>, b: seq<nat>)
    ensures ForEach(kind, a + b) == ForEach(kind, a) + ForEach(kind, b)
  {
    if b == [] {
      assert a + b == a;
    } else {
      ForEachConcat(kind, a, b[..|b| - 1]);
      assert (a + b)[..|a + b| - 1] == a + b[..|b| - 1];
    }
  }

  /** One queue of a kind for every device of a set. */
  function ForAll(kind: Kind, devs: set<nat>): multiset<Ask> { multiset(set d | d in devs :: Ask(kind, d)) }

  lemma ForAllOne(kind: Kind, devs: set<nat>, dev: nat)
    ensures ForAll(kind, devs + {dev})
            == ForAll(kind, devs) + if dev in devs then multiset{} else multiset{Ask(kind, dev)}
  {
    var asks := set d | d in devs :: Ask(kind, d);
    assert (set d | d in devs + {dev} :: Ask(kind, d)) == asks + {Ask(kind, dev)};
    assert dev in devs ==> Ask(kind, dev) in asks;
  }

  /** The devices of a set, each once, in some order. */
  predicate Enumerates(order: seq<nat>, devs: set<nat>) {
    && (forall i, j :: 0 <= i < j < |order| ==> order[i] != order[j])
    && devs == set d | d in order
  }

  lemma {:induction false} EnumeratedAsks(kind: Kind, order: seq<nat>, devs: set<nat>)
    requires Enumerates(order, devs)
    ensures multiset(ForEach(kind, order)) == ForAll(kind, devs)
  {
    if order == [] {
      assert devs == {};
    } else {
      var front := order[..|order| - 1];
      var last := order[|order| - 1];
      var rest := set d | d in front;
      EnumeratedAsks(kind, front, rest);
      ForAllOne(kind, rest, last);
      assert forall d :: d in order <==> d in front || d == last;
      assert devs == rest + {last};
    }
  }

  /** Two queues for every entry of a list. */
  function ForEachTwo(first: Kind, second: Kind, devs: seq<nat>): seq<Ask> {
    if devs == [] then []
    else
      var d := devs[|devs| - 1];
      ForEachTwo(first, second, devs[..|devs| - 1]) + [Ask(first, d), Ask(second, d)]
  }

  lemma {:induction false} ForEachTwoSplits(first: Kind, second: Kind, devs: seq<nat>)
    ensures multiset(ForEachTwo(first, second, devs))
            == multiset(ForEach(first, devs)) + multiset(ForEach(second, devs))
  {
    if devs != [] {
      ForEachTwoSplits(first, second, devs[..|devs| - 1]);
    }
  }

  /** Devices the load tasks send from, once per flow and device. */
  function LoadDevs(flows: seq<Flow>): seq<nat> {
    if flows == [] then [] else LoadDevs(flows[..|flows| - 1]) + flows[|flows| - 1].tx
  }

  /** Devices the counting tasks listen on, once per flow and device. */
  function CountDevs(flows: seq<Flow>): seq<nat> {
    if flows == [] then [] else CountDevs(flows[..|flows| - 1]) + flows[|flows| - 1].rx
  }

  /** Devices that take part in address resolution. */
  function ArpDevs(flows: seq<Flow>): set<nat> {
    if flows == [] then {}
    else
      var f := flows[|flows| - 1];
      ArpDevs(flows[..|flows| - 1]) + if f.arp then (set d | d in f.tx) + (set d | d in f.rx) else {}
  }

  /** Sender and receiver of every flow that is time stamped, in order. */
  function StampPairs(flows: seq<Flow>): seq<(nat, nat)> {
    if flows == [] then []
    else
      var front := StampPairs(flows[..|flows| - 1]);
      var f := flows[|flows| - 1];
      if f.Timestamped() then front + [(f.tx[0], f.rx[0])] else front
  }

  function Senders(pairs: seq<(nat, nat)>): set<nat> {
    if pairs == [] then {} else Senders(pairs[..|pairs| - 1]) + {pairs[|pairs| - 1].0}
  }

  function Receivers(pairs: seq<(nat, nat)>): set<nat> {
    if pairs == [] then {} else Receivers(pairs[..|pairs| - 1]) + {pairs[|pairs| - 1].1}
  }

  function Unless(found: bool, a: Ask): seq<Ask> { if found then [] else [a] }

  /** The queues that time stamping fetches: one when a device first occurs. */
  function StampAsks(pairs: seq<(nat, nat)>): seq<Ask> {
    if pairs == [] then []
    else
      var front := pairs[..|pairs| - 1];
      StampAsks(front) + FirstUses(pairs[|pairs| - 1], Senders(front), Receivers(front))
  }

  /** The queues fetched for a pair when some devices already have theirs. */
  function FirstUses(pair: (nat, nat), tx: set<nat>, rx: set<nat>): seq<Ask> {
    Unless(pair.0 in tx, Ask(Tx, pair.0)) + Unless(pair.1 in rx, Ask(Rx, pair.1))
  }

  lemma Associate(a: seq<Ask>, b: seq<Ask>, c: seq<Ask>)
    ensures a + b + c == a + (b + c)
  {
  }

  lemma StampStep(pairs: seq<(nat, nat)>, i: nat)
    requires i < |pairs|
    ensures Senders(pairs[..i + 1]) == Senders(pairs[..i]) + {pairs[i].0}
    ensures Receivers(pairs[..i + 1]) == Receivers(pairs[..i]) + {pairs[i].1}
    ensures StampAsks(pairs[..i + 1])
            == StampAsks(pairs[..i]) + FirstUses(pairs[i], Senders(pairs[..i]), Receivers(pairs[..i]))
  {
    assert pairs[..i + 1][..i] == pairs[..i];
  }

  lemma {:induction false} StampAsksTotal(pairs: seq<(nat, nat)>)
    ensures multiset(StampAsks(pairs)) == ForAll(Rx, Receivers(pairs)) + ForAll(Tx, Senders(pairs))
  {
    if pairs != [] {
      var front := pairs[..|pairs| - 1];
      var (tx, rx) := pairs[|pairs| - 1];
      StampAsksTotal(front);
      ForAllOne(Tx, Senders(front), tx);
      ForAllOne(Rx, Receivers(front), rx);
    }
  }

  /** The queues that the tasks of all flows need. */
  function Demand(flows: seq<Flow>): multiset<Ask> {
    var pairs := StampPairs(flows);
    ForAll(Tx, ArpDevs(flows)) + ForAll(Rx, ArpDevs(flows))
    + multiset(ForEach(Tx, LoadDevs(flows))) + multiset(ForEach(Rss, CountDevs(flows)))
    + ForAll(Rx, Receivers(pairs)) + ForAll(Tx, Senders(pairs))
  }

  // ---------------------------------------------------------------- demand per device

  /** How often the flows list a device as sender, and as receiver. */
  function SendsFrom(flows: seq<Flow>, d: nat): nat {
    if flows == [] then 0 else SendsFrom(flows[..|flows| - 1], d) + multiset(flows[|flows| - 1].tx)[d]
  }

  function ArrivesAt(flows: seq<Flow>, d: nat): nat {
    if flows == [] then 0 else ArrivesAt(flows[..|flows| - 1], d) + multiset(flows[|flows| - 1].rx)[d]
  }

  /** Some flow that needs address resolution uses the device. */
  predicate Resolves(flows: seq<Flow>, d: nat) {
    exists i :: 0 <= i < |flows| && flows[i].arp && (d in flows[i].tx || d in flows[i].rx)
  }

  /** Some flow with one sender and one receiver that is to be time stamped
      leaves from, or arrives at, the device. */
  predicate StampsFrom(flows: seq<Flow>, d: nat) {
    exists i :: 0 <= i < |flows| && flows[i].timestamp && flows[i].tx == [d] && |flows[i].rx| == 1
  }

  predicate StampsAt(flows: seq<Flow>, d: nat) {
    exists i :: 0 <= i < |flows| && flows[i].timestamp && flows[i].rx == [d] && |flows[i].tx| == 1
  }

  function Once(b: bool): nat { if b then 1 else 0 }

  lemma {:induction false} ForEachCounts(kind: Kind, devs: seq<nat>, other: Kind, d: nat)
    ensures multiset(ForEach(kind, devs))[Ask(other, d)] == if other == kind then multiset(devs)[d] else 0
  {
    if devs != [] {
      ForEachCounts(kind, devs[..|devs| - 1], other, d);
      assert devs == devs[..|devs| - 1] + [devs[|devs| - 1]];
    }
  }

  lemma ForAllCounts(kind: Kind, devs: set<nat>, other: Kind, d: nat)
    ensures ForAll(kind, devs)[Ask(other, d)] == Once(other == kind && d in devs)
  {
    var asks := set e | e in devs :: Ask(kind, e);
    assert Ask(other, d) in asks <==> other == kind && d in devs;
  }

  lemma {:induction false} ListsCount(flows: seq<Flow>, d: nat)
    ensures multiset(LoadDevs(flows))[d] == SendsFrom(flows, d)
    ensures multiset(CountDevs(flows))[d] == ArrivesAt(flows, d)
  {
    if flows != [] {
      ListsCount(flows[..|flows| - 1], d);
    }
  }

  lemma {:induction false} ArpDevsIff(flows: seq<Flow>, d: nat)
    ensures d in ArpDevs(flows) <==> Resolves(flows, d)
  {
    if flows != [] {
      var front, f := flows[..|flows| - 1], flows[|flows| - 1];
      ArpDevsIff(front, d);
      assert forall i :: 0 <= i < |front| ==> front[i] == flows[i];
      assert flows[|front|] == f;
    }
  }

  lemma {:induction false} StampDevsIff(flows: seq<Flow>, d: nat)
    ensures d in Senders(StampPairs(flows)) <==> StampsFrom(flows, d)
    ensures d in Receivers(StampPairs(flows)) <==> StampsAt(flows, d)
  {
    if flows != [] {
      var front, f := flows[..|flows| - 1], flows[|flows| - 1];
      StampDevsIff(front, d);
      StampDevsMore(front, f, flows, d);
      if f.Timestamped() {
        var pairs := StampPairs(flows);
        assert pairs[..|pairs| - 1] == StampPairs(front);
      }
    }
  }

  lemma StampDevsMore(front: seq<Flow>, f: Flow, flows: seq<Flow>, d: nat)
    requires flows == front + [f]
    ensures StampsFrom(flows, d) <==> StampsFrom(front, d) || (f.Timestamped() && f.tx[0] == d)
    ensures StampsAt(flows, d) <==> StampsAt(front, d) || (f.Timestamped() && f.rx[0] == d)
  {
    assert forall i :: 0 <= i < |front| ==> flows[i] == front[i];
    assert flows[|front|] == f;
    assert f.Timestamped() && f.tx[0] == d ==> f.tx == [d];
    assert f.Timestamped() && f.rx[0] == d ==> f.rx == [d];
  }

  /** What is needed of each kind on each device: a scaled receive queue for every
      time a flow lists it as receiver; a sending queue for every time a flow
      lists it as sender; and one queue of either direction for each of address
      resolution and time stamping, if it takes part. */
  lemma DemandCounts(flows: seq<Flow>, d: nat)
    ensures Demand(flows)[Ask(Rss, d)] == ArrivesAt(flows, d)
    ensures Demand(flows)[Ask(Tx, d)] == SendsFrom(flows, d) + Once(Resolves(flows, d)) + Once(StampsFrom(flows, d))
    ensures Demand(flows)[Ask(Rx, d)] == Once(Resolves(flows, d)) + Once(StampsAt(flows, d))
  {
    ListsCount(flows, d);
    ArpDevsIff(flows, d);
    StampDevsIff(flows, d);
    DemandOf(flows, Rss, d);
    DemandOf(flows, Tx, d);
    DemandOf(flows, Rx, d);
  }

  lemma DemandOf(flows: seq<Flow>, kind: Kind, d: nat)
    ensures var pairs := StampPairs(flows);
            Demand(flows)[Ask(kind, d)]
            == match kind
               case Rss => multiset(CountDevs(flows))[d]
               case Tx => multiset(LoadDevs(flows))[d] + Once(d in ArpDevs(flows)) + Once(d in Senders(pairs))
               case Rx => Once(d in ArpDevs(flows)) + Once(d in Receivers(pairs))
  {
    var pairs := StampPairs(flows);
    ForAllCounts(Tx, ArpDevs(flows), kind, d);
    ForAllCounts(Rx, ArpDevs(flows), kind, d);
    ForEachCounts(Tx, LoadDevs(flows), kind, d);
    ForEachCounts(Rss, CountDevs(flows), kind, d);
    ForAllCounts(Rx, Receivers(pairs), kind, d);
    ForAllCounts(Tx, Senders(pairs), kind, d);
  }

  function AtLeastOne(n: nat): nat { if n == 0 then 1 else n }

  /** Every configured device has the queues that are needed of it, and at least
      one for each direction. */
  ghost predicate Provides(configured: map<nat, Config>, demand: multiset<Ask>) {
    forall d: nat :: d in configured ==>
      configured[d] == Config(AtLeastOne(demand[Ask(Rx, d)] + demand[Ask(Rss, d)]), demand[Ask(Rss, d)],
                              AtLeastOne(demand[Ask(Tx, d)]))
  }

  lemma ConfiguredProvides(rs: seq<Ask>)
    ensures Provides(Configured(Booked(rs)), multiset(rs))
  {
    forall d: nat | d in Booked(rs)
      ensures ConfigFor(Booked(rs)[d])
              == Config(AtLeastOne(multiset(rs)[Ask(Rx, d)] + multiset(rs)[Ask(Rss, d)]), multiset(rs)[Ask(Rss, d)],
                        AtLeastOne(multiset(rs)[Ask(Tx, d)]))
    {
      BookedCounts(rs, d);
    }
  }

  // ---------------------------------------------------------------- the manager

  class DevMgr {
    var devices: map<nat, Counters>
    var configured: map<nat, Config>
    /** Every queue handed out, in order. */
    var log: seq<Queue>
    /** Every reservation and every request, in order. */
    ghost var reservations: seq<Ask>
    ghost var requests: seq<Ask>

    constructor ()
      ensures Reserving() && reservations == []
    {
      devices, configured, log := map[], map[], [];
      reservations, requests := [], [];
    }

    /** First phase: threads reserve. */
    ghost predicate Reserving()
      reads this
    {
      devices == Booked(reservations) && requests == [] && log == []
    }

    /** Second phase: threads fetch. */
    ghost predicate Handing()
      reads this
    {
      && configured == Configured(Booked(reservations))
      && devices == Handed(Booked(reservations), requests)
      && log == Log(Booked(reservations), requests)
    }

    method ReserveTx(tx: nat)
      requires Reserving()
      modifies this`devices, this`reservations
      ensures Reserving() && reservations == old(reservations) + [Ask(Tx, tx)]
    {
      var c := Look(devices, tx);
      devices := devices[tx := c.(txq := c.txq + 1)];
      reservations := reservations + [Ask(Tx, tx)];
      assert reservations[..|reservations| - 1] == old(reservations);
    }

    method ReserveRx(rx: nat)
      requires Reserving()
      modifies this`devices, this`reservations
      ensures Reserving() && reservations == old(reservations) + [Ask(Rx, rx)]
    {
      var c := Look(devices, rx);
      devices := devices[rx := c.(rxq := c.rxq + 1)];
      reservations := reservations + [Ask(Rx, rx)];
      assert reservations[..|reservations| - 1] == old(reservations);
    }

    method ReserveRss(rss: nat)
      requires Reserving()
      modifies this`devices, this`reservations
      ensures Reserving() && reservations == old(reservations) + [Ask(Rss, rss)]
    {
      var c := Look(devices, rss);
      devices := devices[rss := c.(rxq := c.rxq + 1, rsq := c.rsq + 1)];
      reservations := reservations + [Ask(Rss, rss)];
      assert reservations[..|reservations| - 1] == old(reservations);
    }

    method Configure()
      requires Reserving()
      modifies this`configured
      ensures Handing() && requests == []
    {
      configured := map d | d in devices :: ConfigFor(devices[d]);
    }

    method TxQueue(tx: nat) returns (q: Queue)
      requires Handing()
      modifies this`devices, this`log, this`requests
      ensures Handing() && requests == old(requests) + [Ask(Tx, tx)]
      ensures log == old(log) + [q]
    {
      var c := Look(devices, tx);
      q := Queue(Ask(Tx, tx), c.txqi);
      devices := devices[tx := c.(txqi := c.txqi + 1)];
      log := log + [q];
      requests := requests + [Ask(Tx, tx)];
      assert requests[..|requests| - 1] == old(requests);
    }

    method RxQueue(rx: nat) returns (q: Queue)
      requires Handing()
      modifies this`devices, this`log, this`requests
      ensures Handing() && requests == old(requests) + [Ask(Rx, rx)]
      ensures log == old(log) + [q]
    {
      var c := Look(devices, rx);
      q := Queue(Ask(Rx, rx), c.rsq + c.rxqi);
      devices := devices[rx := c.(rxqi := c.rxqi + 1)];
      log := log + [q];
      requests := requests + [Ask(Rx, rx)];
      assert requests[..|requests| - 1] == old(requests);
    }

    method RssQueue(rx: nat) returns (q: Queue)
      requires Handing()
      modifies this`devices, this`log, this`requests
      ensures Handing() && requests == old(requests) + [Ask(Rss, rx)]
      ensures log == old(log) + [q]
    {
      var c := Look(devices, rx);
      q := Queue(Ask(Rss, rx), c.rsqi);
      devices := devices[rx := c.(rsqi := c.rsqi + 1)];
      log := log + [q];
      requests := requests + [Ask(Rss, rx)];
      assert requests[..|requests| - 1] == old(requests);
    }
  }

  // ---------------------------------------------------------------- preparing

  /** The order in which a table is traversed. */
  method Traverse(devs: set<nat>) returns (order: seq<nat>)
    ensures Enumerates(order, devs)
  {
    order := [];
    var left := devs;
    while left != {}
      invariant Enumerates(order, devs - left) && left <= devs
    {
      var dev :| dev in left;
      assert dev !in order;
      assert (set d | d in order + [dev]) == (set d | d in order) + {dev};
      assert devs - (left - {dev}) == (devs - left) + {dev};
      order := order + [dev];
      left := left - {dev};
    }
  }

  /** One more entry of a list, behind what was asked before. */
  lemma OneMoreEach(kind: Kind, devs: seq<nat>, j: nat, before: seq<Ask>)
    requires j < |devs|
    ensures before + ForEach(kind, devs[..j]) + [Ask(kind, devs[j])] == before + ForEach(kind, devs[..j + 1])
  {
    assert devs[..j + 1][..j] == devs[..j];
  }

  lemma OneMoreTwo(first: Kind, second: Kind, devs: seq<nat>, j: nat, before: seq<Ask>)
    requires j < |devs|
    ensures before + ForEachTwo(first, second, devs[..j]) + [Ask(first, devs[j])] + [Ask(second, devs[j])]
            == before + ForEachTwo(first, second, devs[..j + 1])
  {
    assert devs[..j + 1][..j] == devs[..j];
  }

  method ReserveOne(kind: Kind, dev: nat, m: DevMgr)
    requires m.Reserving()
    modifies m`devices, m`reservations
    ensures m.Reserving() && m.reservations == old(m.reservations) + [Ask(kind, dev)]
  {
    match kind {
      case Tx => m.ReserveTx(dev);
      case Rx => m.ReserveRx(dev);
      case Rss => m.ReserveRss(dev);
    }
  }

  /** Reserves one queue of a kind for every entry of a list. */
  method ReserveEach(kind: Kind, devs: seq<nat>, m: DevMgr)
    requires m.Reserving()
    modifies m`devices, m`reservations
    ensures m.Reserving() && m.reservations == old(m.reservations) + ForEach(kind, devs)
  {
    for j := 0 to |devs|
      invariant m.Reserving() && m.reservations == old(m.reservations) + ForEach(kind, devs[..j])
    {
      OneMoreEach(kind, devs, j, old(m.reservations));
      ReserveOne(kind, devs[j], m);
    }
    assert devs[..|devs|] == devs;
  }

  /** interface/threads/load.lua: one sending queue per flow and device. */
  method PrepareLoad(flows: seq<Flow>, m: DevMgr) returns (devs: seq<nat>)
    requires m.Reserving()
    modifies m`devices, m`reservations
    ensures m.Reserving() && devs == LoadDevs(flows)
    ensures m.reservations == old(m.reservations) + ForEach(Tx, devs)
  {
    devs := [];
    for i := 0 to |flows|
      invariant m.Reserving() && devs == LoadDevs(flows[..i])
      invariant m.reservations == old(m.reservations) + ForEach(Tx, devs)
    {
      assert flows[..i + 1][..i] == flows[..i];
      ForEachConcat(Tx, devs, flows[i].tx);
      Associate(old(m.reservations), ForEach(Tx, devs), ForEach(Tx, flows[i].tx));
      ReserveEach(Tx, flows[i].tx, m);
      devs := devs + flows[i].tx;
    }
    assert flows[..|flows|] == flows;
  }

  /** interface/threads/count.lua: one scaled queue per flow and device. */
  method PrepareCount(flows: seq<Flow>, m: DevMgr) returns (devs: seq<nat>)
    requires m.Reserving()
    modifies m`devices, m`reservations
    ensures m.Reserving() && devs == CountDevs(flows)
    ensures m.reservations == old(m.reservations) + ForEach(Rss, devs)
  {
    devs := [];
    for i := 0 to |flows|
      invariant m.Reserving() && devs == CountDevs(flows[..i])
      invariant m.reservations == old(m.reservations) + ForEach(Rss, devs)
    {
      assert flows[..i + 1][..i] == flows[..i];
      ForEachConcat(Rss, devs, flows[i].rx);
      Associate(old(m.reservations), ForEach(Rss, devs), ForEach(Rss, flows[i].rx));
      ReserveEach(Rss, flows[i].rx, m);
      devs := devs + flows[i].rx;
    }
    assert flows[..|flows|] == flows;
  }

  method AddDevices(some: set<nat>, devs: seq<nat>) returns (all: set<nat>)
    ensures all == some + set d | d in devs
  {
    all := some;
    for j := 0 to |devs|
      invariant all == some + set d | d in devs[..j]
    {
      all := all + {devs[j]};
    }
  }

  /** The devices of address resolution, flow by flow. */
  method FindArpDevices(flows: seq<Flow>) returns (arpDevices: set<nat>)
    ensures arpDevices == ArpDevs(flows)
  {
    arpDevices := {};
    for i := 0 to |flows|
      invariant arpDevices == ArpDevs(flows[..i])
    {
      assert flows[..i + 1][..i] == flows[..i];
      var f := flows[i];
      if f.arp {
        arpDevices := AddDevices(arpDevices, f.tx);
        arpDevices := AddDevices(arpDevices, f.rx);
      }
    }
    assert flows[..|flows|] == flows;
  }

  /** Both queues of every device on a list. */
  method ReserveBoth(order: seq<nat>, m: DevMgr)
    requires m.Reserving()
    modifies m`devices, m`reservations
    ensures m.Reserving() && m.reservations == old(m.reservations) + ForEachTwo(Tx, Rx, order)
  {
    for j := 0 to |order|
      invariant m.Reserving() && m.reservations == old(m.reservations) + ForEachTwo(Tx, Rx, order[..j])
    {
      OneMoreTwo(Tx, Rx, order, j, old(m.reservations));
      m.ReserveTx(order[j]);
      m.ReserveRx(order[j]);
    }
    assert order[..|order|] == order;
  }

  /** interface/threads/arp.lua: both queues of every device, in any order. */
  method PrepareArp(flows: seq<Flow>, m: DevMgr) returns (arpDevices: set<nat>)
    requires m.Reserving()
    modifies m`devices, m`reservations
    ensures m.Reserving() && arpDevices == ArpDevs(flows)
    ensures multiset(m.reservations)
            == multiset(old(m.reservations)) + ForAll(Tx, arpDevices) + ForAll(Rx, arpDevices)
  {
    arpDevices := FindArpDevices(flows);
    var order := Traverse(arpDevices);
    ReserveBoth(order, m);
    ForEachTwoSplits(Tx, Rx, order);
    EnumeratedAsks(Tx, order, arpDevices);
    EnumeratedAsks(Rx, order, arpDevices);
  }

  /** Senders and receivers of the flows that are time stamped. */
  method FindStamped(flows: seq<Flow>) returns (pairs: seq<(nat, nat)>, usedRxDevs: set<nat>, usedTxDevs: set<nat>)
    ensures pairs == StampPairs(flows) && usedRxDevs == Receivers(pairs) && usedTxDevs == Senders(pairs)
  {
    pairs, usedRxDevs, usedTxDevs := [], {}, {};
    for i := 0 to |flows|
      invariant pairs == StampPairs(flows[..i])
      invariant usedRxDevs == Receivers(pairs) && usedTxDevs == Senders(pairs)
    {
      assert flows[..i + 1][..i] == flows[..i];
      if flows[i].Timestamped() {
        var tx, rx := flows[i].tx[0], flows[i].rx[0];
        assert (pairs + [(tx, rx)])[..|pairs|] == pairs;
        pairs := pairs + [(tx, rx)];
        usedRxDevs := usedRxDevs + {rx};
        usedTxDevs := usedTxDevs + {tx};
      }
    }
    assert flows[..|flows|] == flows;
  }

  /** interface/threads/timestamp.lua: one queue per device and direction. */
  method PrepareTimestamp(flows: seq<Flow>, m: DevMgr) returns (pairs: seq<(nat, nat)>)
    requires m.Reserving()
    modifies m`devices, m`reservations
    ensures m.Reserving() && pairs == StampPairs(flows)
    ensures multiset(m.reservations)
            == multiset(old(m.reservations)) + ForAll(Rx, Receivers(pairs)) + ForAll(Tx, Senders(pairs))
  {
    var usedRxDevs, usedTxDevs;
    pairs, usedRxDevs, usedTxDevs := FindStamped(flows);
    var rxOrder := Traverse(usedRxDevs);
    ReserveEach(Rx, rxOrder, m);
    var txOrder := Traverse(usedTxDevs);
    ReserveEach(Tx, txOrder, m);
    EnumeratedAsks(Rx, rxOrder, usedRxDevs);
    EnumeratedAsks(Tx, txOrder, usedTxDevs);
  }

  // ---------------------------------------------------------------- starting

  /** The load thread fetches a sending queue for every entry of its list. */
  method StartLoad(devs: seq<nat>, m: DevMgr)
    requires m.Handing()
    modifies m`devices, m`log, m`requests
    ensures m.Handing() && m.requests == old(m.requests) + ForEach(Tx, devs)
  {
    for j := 0 to |devs|
      invariant m.Handing() && m.requests == old(m.requests) + ForEach(Tx, devs[..j])
    {
      OneMoreEach(Tx, devs, j, old(m.requests));
      var _ := m.TxQueue(devs[j]);
    }
    assert devs[..|devs|] == devs;
  }

  /** The counting thread fetches a scaled queue for every entry of its list. */
  method StartCount(devs: seq<nat>, m: DevMgr)
    requires m.Handing()
    modifies m`devices, m`log, m`requests
    ensures m.Handing() && m.requests == old(m.requests) + ForEach(Rss, devs)
  {
    for j := 0 to |devs|
      invariant m.Handing() && m.requests == old(m.requests) + ForEach(Rss, devs[..j])
    {
      OneMoreEach(Rss, devs, j, old(m.requests));
      var _ := m.RssQueue(devs[j]);
    }
    assert devs[..|devs|] == devs;
  }

  /** A receiving and a sending queue for every device on a list. */
  method FetchBoth(order: seq<nat>, m: DevMgr)
    requires m.Handing()
    modifies m`devices, m`log, m`requests
    ensures m.Handing() && m.requests == old(m.requests) + ForEachTwo(Rx, Tx, order)
  {
    for j := 0 to |order|
      invariant m.Handing() && m.requests == old(m.requests) + ForEachTwo(Rx, Tx, order[..j])
    {
      OneMoreTwo(Rx, Tx, order, j, old(m.requests));
      var _ := m.RxQueue(order[j]);
      var _ := m.TxQueue(order[j]);
    }
    assert order[..|order|] == order;
  }

  /** Address resolution fetches both queues of every device, in any order. */
  method StartArp(arpDevices: set<nat>, m: DevMgr)
    requires m.Handing()
    modifies m`devices, m`log, m`requests
    ensures m.Handing()
    ensures multiset(m.requests) == multiset(old(m.requests)) + ForAll(Tx, arpDevices) + ForAll(Rx, arpDevices)
  {
    var order := Traverse(arpDevices);
    FetchBoth(order, m);
    ForEachTwoSplits(Rx, Tx, order);
    EnumeratedAsks(Tx, order, arpDevices);
    EnumeratedAsks(Rx, order, arpDevices);
  }

  /** A queue for a device that has none yet. */
  method FetchOnce(kind: Kind, dev: nat, queues: map<nat, Queue>, m: DevMgr) returns (all: map<nat, Queue>)
    requires m.Handing()
    modifies m`devices, m`log, m`requests
    ensures m.Handing() && all.Keys == queues.Keys + {dev}
    ensures m.requests == old(m.requests) + Unless(dev in queues, Ask(kind, dev))
  {
    all := queues;
    if dev !in queues {
      var q;
      match kind {
        case Tx => q := m.TxQueue(dev);
        case Rx => q := m.RxQueue(dev);
        case Rss => q := m.RssQueue(dev);
      }
      all := queues[dev := q];
    }
  }

  /** Time stamping fetches a queue when a device first occurs, and uses it again
      after that. */
  method StartTimestamp(pairs: seq<(nat, nat)>, m: DevMgr)
    requires m.Handing()
    modifies m`devices, m`log, m`requests
    ensures m.Handing() && m.requests == old(m.requests) + StampAsks(pairs)
  {
    var txQueues, rxQueues: map<nat, Queue> := map[], map[];
    for i := 0 to |pairs|
      invariant m.Handing()
      invariant txQueues.Keys == Senders(pairs[..i]) && rxQueues.Keys == Receivers(pairs[..i])
      invariant m.requests == old(m.requests) + StampAsks(pairs[..i])
    {
      StampStep(pairs, i);
      ghost var more := FirstUses(pairs[i], txQueues.Keys, rxQueues.Keys);
      Associate(old(m.requests), StampAsks(pairs[..i]), more);
      txQueues, rxQueues := FetchPair(pairs[i], txQueues, rxQueues, m);
    }
    assert pairs[..|pairs|] == pairs;
  }

  method FetchPair(pair: (nat, nat), tx: map<nat, Queue>, rx: map<nat, Queue>, m: DevMgr)
    returns (txQueues: map<nat, Queue>, rxQueues: map<nat, Queue>)
    requires m.Handing()
    modifies m`devices, m`log, m`requests
    ensures m.Handing() && txQueues.Keys == tx.Keys + {pair.0} && rxQueues.Keys == rx.Keys + {pair.1}
    ensures m.requests == old(m.requests) + FirstUses(pair, tx.Keys, rx.Keys)
  {
    txQueues := FetchOnce(Tx, pair.0, tx, m);
    rxQueues := FetchOnce(Rx, pair.1, rx, m);
    Associate(old(m.requests), Unless(pair.0 in tx, Ask(Tx, pair.0)), Unless(pair.1 in rx, Ask(Rx, pair.1)));
  }

  // ---------------------------------------------------------------- a whole run

  method PrepareAll(flows: seq<Flow>, m: DevMgr)
    returns (arpDevices: set<nat>, loadDevs: seq<nat>, countDevs: seq<nat>, pairs: seq<(nat, nat)>)
    requires m.Reserving() && m.reservations == []
    modifies m`devices, m`reservations
    ensures m.Reserving() && multiset(m.reservations) == Demand(flows)
    ensures arpDevices == ArpDevs(flows) && loadDevs == LoadDevs(flows)
    ensures countDevs == CountDevs(flows) && pairs == StampPairs(flows)
  {
    arpDevices := PrepareArp(flows, m);
    loadDevs := PrepareLoad(flows, m);
    countDevs := PrepareCount(flows, m);
    pairs := PrepareTimestamp(flows, m);
  }

  method StartAll(flows: seq<Flow>, m: DevMgr,
                  arpDevices: set<nat>, loadDevs: seq<nat>, countDevs: seq<nat>, pairs: seq<(nat, nat)>)
    requires m.Handing() && m.requests == []
    requires arpDevices == ArpDevs(flows) && loadDevs == LoadDevs(flows)
    requires countDevs == CountDevs(flows) && pairs == StampPairs(flows)
    modifies m`devices, m`log, m`requests
    ensures m.Handing() && multiset(m.requests) == Demand(flows)
  {
    StartArp(arpDevices, m);
    StartCount(countDevs, m);
    StartLoad(loadDevs, m);
    StartTimestamp(pairs, m);
    StampAsksTotal(pairs);
  }

  /** What the queues were asked for as. */
  function Asks(log: seq<Queue>): seq<Ask> {
    if log == [] then [] else Asks(log[..|log| - 1]) + [log[|log| - 1].ask]
  }

  lemma {:induction false} LogAnswers(devices: map<nat, Counters>, qs: seq<Ask>)
    ensures Asks(Log(devices, qs)) == qs
  {
    if qs != [] {
      LogAnswers(devices, qs[..|qs| - 1]);
      assert Log(devices, qs)[..|qs| - 1] == Log(devices, qs[..|qs| - 1]);
    }
  }

  lemma {:induction false} NothingToSendIff(flows: seq<Flow>)
    ensures LoadDevs(flows) == [] <==> forall i :: 0 <= i < |flows| ==> flows[i].tx == []
  {
    if flows != [] {
      var front := flows[..|flows| - 1];
      NothingToSendIff(front);
      assert forall i :: 0 <= i < |front| ==> front[i] == flows[i];
    }
  }

  /** Soundness for every list of flows: each queue handed out exists and is
      handed out once, the tasks get exactly the queues they need, and devices
      are configured with just these.  Without a device to send from, nothing is
      configured. */
  method Allocate(flows: seq<Flow>) returns (configured: map<nat, Config>, log: seq<Queue>)
    ensures (forall i :: 0 <= i < |flows| ==> flows[i].tx == []) ==> configured == map[] && log == []
    ensures (exists i :: 0 <= i < |flows| && flows[i].tx != []) ==>
              Sound(configured, log) && multiset(Asks(log)) == Demand(flows) && Provides(configured, Demand(flows))
  {
    NothingToSendIff(flows);
    var m := new DevMgr();
    var arpDevices, loadDevs, countDevs, pairs := PrepareAll(flows, m);
    if |loadDevs| == 0 {
      return map[], [];
    }
    m.Configure();
    StartAll(flows, m, arpDevices, loadDevs, countDevs, pairs);
    AllocationSound(m.reservations, m.requests);
    LogAnswers(Booked(m.reservations), m.requests);
    ConfiguredProvides(m.reservations);
    return m.configured, m.log;
  }
}
