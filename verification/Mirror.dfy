/** The control plane's copy of the orders, fed from the outbox (laravel/app/Actions/Engine/RecordOrder.php,
    laravel/app/Http/Middleware/EnsureIdempotentRequest.php). */
module Mirror {
  import opened Common
  import opened OrderModel
  import opened Ledger
  import opened LedgerLaws

  datatype Endpoint = Orders | OtherEndpoint

  function EndpointOf(k: Key): Endpoint {
    if k.OrderVersion? then Orders else OtherEndpoint
  }

  /** The mirrored orders, and the request ids already answered with the endpoint they were sent to. */
  datatype ControlPlane = ControlPlane(orders: map<ClientOrderId, OrderRow>, requests: map<Key, Endpoint>)

  datatype Answer = Applied(changed: bool) | Replayed | Reused

  /** What happens around the action: it fails and rolls back, the process dies before the request is
      ledgered, all goes well, or the ledger was looked at before a concurrent delivery of the same request was
      entered there, so the action runs again and the second entry is refused by the unique key. A lost
      acknowledgement looks like success here and is followed by another delivery. */
  datatype Fate = Fails | DiesAfterAction | Succeeds | LooksEarly

  predicate Known(requests: map<Key, Endpoint>, m: Message, fate: Fate) {
    m.key in requests && !fate.LooksEarly?
  }

  function Mirrored(orders: map<ClientOrderId, OrderRow>, d: OrderRow): map<ClientOrderId, OrderRow> {
    if d.clientOrderId in orders && orders[d.clientOrderId].version >= d.version then orders
    else orders[d.clientOrderId := d]
  }

  function Act(orders: map<ClientOrderId, OrderRow>, m: Message): map<ClientOrderId, OrderRow> {
    if m.payload.OrderState? then Mirrored(orders, m.payload.row) else orders
  }

  function Post(cp: ControlPlane, m: Message, endpoint: Endpoint, fate: Fate): ControlPlane {
    if Known(cp.requests, m, fate) || fate.Fails? then cp
    else if fate.DiesAfterAction? || m.key in cp.requests then cp.(orders := Act(cp.orders, m))
    else ControlPlane(Act(cp.orders, m), cp.requests[m.key := endpoint])
  }

  class ControlPlaneStore {
    var orders: map<ClientOrderId, OrderRow>
    var requests: map<Key, Endpoint>

    function State(): ControlPlane
      reads this
    {
      ControlPlane(orders, requests)
    }

    /** Only a newer engine version is accepted. */
    method RecordOrder(d: OrderRow) returns (applied: bool)
      modifies this`orders
      ensures orders == Mirrored(old(orders), d)
      ensures applied <==> !(d.clientOrderId in old(orders) && old(orders)[d.clientOrderId].version >= d.version)
    {
      if d.clientOrderId in orders && orders[d.clientOrderId].version >= d.version {
        return false;
      }
      orders := orders[d.clientOrderId := d];
      return true;
    }

    /** The ledger of request ids in front of the action. */
    method Handle(m: Message, endpoint: Endpoint, fate: Fate) returns (answer: Option<Answer>)
      modifies this
      ensures State() == Post(old(State()), m, endpoint, fate)
      ensures Known(old(requests), m, fate) ==> answer == Some(if old(requests)[m.key] == endpoint then Replayed else Reused)
      ensures answer.None? <==> m.key !in old(requests) && (fate.Fails? || fate.DiesAfterAction?)
      ensures m.key in old(requests) ==> requests == old(requests)
      ensures !Known(old(requests), m, fate) && (fate.Succeeds? || fate.LooksEarly?) ==>
                answer == Some(Applied(orders != old(orders)))
    {
      if m.key in requests && !fate.LooksEarly? {
        return Some(if requests[m.key] != endpoint then Reused else Replayed);
      }
      if fate.Fails? {
        return None;
      }
      var changed := false;
      if m.payload.OrderState? {
        changed := RecordOrder(m.payload.row);
      }
      if fate.DiesAfterAction? {
        return None;
      }
      if m.key !in requests {
        requests := requests[m.key := endpoint];
      }
      return Some(Applied(changed));
    }
  }

  // ------------------------------------------------------------------ engine, network and mirror together

  /** `acted` are the messages whose action has been committed at least once. */
  datatype World = World(db: Db, cp: ControlPlane, acted: set<Key>)

  datatype Event =
    | EngineCommits(step: Step)
    | Arrives(message: Message, fate: Fate)

  ghost predicate Enabled(w: World, e: Event) {
    e.Arrives? ==> e.message in w.db.outbox
  }

  function Next(w: World, e: Event): World
    requires WellFormed(w.db)
  {
    match e
    case EngineCommits(s) => w.(db := After(w.db, s))
    case Arrives(m, fate) =>
      w.(cp := Post(w.cp, m, EndpointOf(m.key), fate),
         acted := if fate.Fails? || Known(w.cp.requests, m, fate) then w.acted else w.acted + {m.key})
  }

  /** What is mirrored is a state the order has had, and the newest of those that arrived. */
  ghost predicate Mirrors(w: World, c: ClientOrderId)
    requires c in w.cp.orders
  {
    var d := w.cp.orders[c];
    && d.clientOrderId == c
    && Message(OrderVersion(c, d.version), OrderState(d)) in w.db.outbox
    && OrderVersion(c, d.version) in w.acted
  }

  ghost predicate Covered(w: World, k: Key) {
    k.OrderVersion? ==> k.order in w.cp.orders && k.version <= w.cp.orders[k.order].version
  }

  ghost predicate Invariant(w: World) {
    && Sound(w.db)
    && (forall c {:trigger Mirrors(w, c)} | c in w.cp.orders :: Mirrors(w, c))
    && (forall k {:trigger Covered(w, k)} | k in w.acted :: Covered(w, k))
    && w.cp.requests.Keys <= w.acted
  }

  /** The mirror of one order, before and after: never an older version, never out of a terminal status,
      never less executed. */
  ghost predicate MirrorAdvances(w: World, w': World) {
    forall c {:trigger c in w.cp.orders} {:trigger w'.cp.orders[c]} | c in w.cp.orders ::
      && c in w'.cp.orders
      && w.cp.orders[c].version <= w'.cp.orders[c].version
      && Later(w.cp.orders[c], w'.cp.orders[c])
  }

  lemma EngineKeeps(w: World, s: Step)
    requires Invariant(w)
    ensures Invariant(Next(w, EngineCommits(s)))
  {
    var w' := Next(w, EngineCommits(s));
    StepSound(w.db, s);
    forall c | c in w'.cp.orders
      ensures Mirrors(w', c)
    {
      assert Mirrors(w, c);
    }
    forall k | k in w'.acted
      ensures Covered(w', k)
    {
      assert Covered(w, k);
    }
  }

  /** The action on one order message, on the mirror alone. */
  lemma ActKeeps(w: World, m: Message, orders: map<ClientOrderId, OrderRow>)
    requires Invariant(w) && m in w.db.outbox && orders == Act(w.cp.orders, m)
    ensures forall c | c in w.cp.orders :: c in orders && w.cp.orders[c].version <= orders[c].version
                                           && Later(w.cp.orders[c], orders[c])
    ensures forall c | c in orders ::
              && orders[c].clientOrderId == c
              && Message(OrderVersion(c, orders[c].version), OrderState(orders[c])) in w.db.outbox
              && (OrderVersion(c, orders[c].version) == m.key || OrderVersion(c, orders[c].version) in w.acted)
    ensures m.key.OrderVersion? ==> m.key.order in orders && m.key.version <= orders[m.key.order].version
  {
    assert Truthful(w.db, m);
    forall c | c in w.cp.orders
      ensures Mirrors(w, c)
    {
    }
    if m.payload.OrderState? {
      var c := m.payload.row.clientOrderId;
      if c in w.cp.orders {
        assert InOrder(Message(OrderVersion(c, w.cp.orders[c].version), OrderState(w.cp.orders[c])), m);
      }
    }
  }

  /** An arrival either leaves the mirror alone, or the action runs and the message counts as acted on. */
  lemma ArrivalActs(w: World, m: Message, fate: Fate)
    requires WellFormed(w.db)
    ensures var w' := Next(w, Arrives(m, fate));
            && w'.db == w.db
            && (if fate.Fails? || Known(w.cp.requests, m, fate) then w'.cp == w.cp && w'.acted == w.acted
                else w'.cp.orders == Act(w.cp.orders, m) && w'.acted == w.acted + {m.key}
                     && w'.cp.requests.Keys <= w.cp.requests.Keys + {m.key})
  {
  }

  /** One mirrored order after an arrival. */
  lemma ArrivalMirrors(w: World, m: Message, fate: Fate, c: ClientOrderId)
    requires Invariant(w) && m in w.db.outbox && c in Next(w, Arrives(m, fate)).cp.orders
    ensures Mirrors(Next(w, Arrives(m, fate)), c)
  {
    ArrivalActs(w, m, fate);
    assert c in w.cp.orders ==> Mirrors(w, c);
    hide Next, Act, Sound, Known, Covered, Later;
    ActKeeps(w, m, Act(w.cp.orders, m));
  }

  lemma ArrivalCovers(w: World, m: Message, fate: Fate, k: Key)
    requires Invariant(w) && m in w.db.outbox && k in Next(w, Arrives(m, fate)).acted
    ensures Covered(Next(w, Arrives(m, fate)), k)
  {
    ArrivalActs(w, m, fate);
    assert k in w.acted ==> Covered(w, k);
    hide Next, Act, Sound, Known, Mirrors, Later;
    ActKeeps(w, m, Act(w.cp.orders, m));
  }

  lemma ItselfLater(w: World)
    ensures MirrorAdvances(w, w)
  {
  }

  lemma ArrivalAdvances(w: World, m: Message, fate: Fate)
    requires Invariant(w) && m in w.db.outbox
    ensures MirrorAdvances(w, Next(w, Arrives(m, fate)))
  {
    ArrivalActs(w, m, fate);
    ItselfLater(w);
    hide Next, Act, Sound, Known, Mirrors, Covered, Later;
    ActKeeps(w, m, Act(w.cp.orders, m));
  }

  lemma ArrivalKeeps(w: World, m: Message, fate: Fate)
    requires Invariant(w) && m in w.db.outbox
    ensures Invariant(Next(w, Arrives(m, fate)))
    ensures MirrorAdvances(w, Next(w, Arrives(m, fate)))
  {
    ArrivalAdvances(w, m, fate);
    var w' := Next(w, Arrives(m, fate));
    hide Sound, Mirrors, Covered, Act;
    forall c | c in w'.cp.orders
      ensures Mirrors(w', c)
    {
      ArrivalMirrors(w, m, fate, c);
    }
    forall k | k in w'.acted
      ensures Covered(w', k)
    {
      ArrivalCovers(w, m, fate, k);
    }
  }

  // ------------------------------------------------------------------ every run

  /** A run of the whole system: the engine commits and messages of the outbox arrive, in any order and
      any number of times. */
  ghost predicate Reaches(w: World, es: seq<Event>, w': World)
    requires WellFormed(w.db)
    decreases |es|
  {
    if es == [] then w' == w
    else
      var e := es[0];
      Enabled(w, e) && Reaches(Next(w, e), es[1..], w')
  }

  lemma StepKeeps(w: World, e: Event)
    requires Invariant(w) && Enabled(w, e)
    ensures Invariant(Next(w, e)) && MirrorAdvances(w, Next(w, e))
  {
    match e {
      case EngineCommits(s) => EngineKeeps(w, s);
      case Arrives(m, fate) => ArrivalKeeps(w, m, fate);
    }
  }

  lemma AdvanceTransitive(a: World, b: World, c: World)
    requires MirrorAdvances(a, b) && MirrorAdvances(b, c)
    ensures MirrorAdvances(a, c)
  {
  }

  /** Whatever is delivered, lost, repeated, reordered or cut short, no mirrored order ever moves
      backwards. */
  lemma {:induction false} MirrorNeverGoesBack(w: World, es: seq<Event>, w': World)
    requires Invariant(w) && Reaches(w, es, w')
    ensures Invariant(w') && MirrorAdvances(w, w')
    decreases |es|
  {
    if es != [] {
      StepKeeps(w, es[0]);
      MirrorNeverGoesBack(Next(w, es[0]), es[1..], w');
      AdvanceTransitive(w, Next(w, es[0]), w');
    }
  }

  const START: World := World(EMPTY, ControlPlane(map[], map[]), {})

  /** In every reachable state a mirrored order is the engine's order exactly when the message of its
      current version has been acted on; once every message has been, the mirror is the ledger. */
  lemma MirrorConverges(es: seq<Event>, w: World, c: ClientOrderId)
    requires Reaches(START, es, w) && c in w.db.orders
    ensures c in w.cp.orders && w.cp.orders[c] == w.db.orders[c]
       <==> OrderVersion(c, w.db.orders[c].version) in w.acted
  {
    EveryRunIsSound([]);
    MirrorNeverGoesBack(START, es, w);
    if OrderVersion(c, w.db.orders[c].version) in w.acted {
      assert Covered(w, OrderVersion(c, w.db.orders[c].version));
    }
    if c in w.cp.orders {
      assert Mirrors(w, c);
      assert Truthful(w.db, Message(OrderVersion(c, w.cp.orders[c].version), OrderState(w.cp.orders[c])));
    }
  }

  lemma {:induction false} RunVersioned(w: World, es: seq<Event>, w': World)
    requires WellFormed(w.db) && Versioned(w.db) && Reaches(w, es, w')
    ensures Versioned(w'.db)
    decreases |es|
  {
    if es != [] {
      if es[0].EngineCommits? {
        StepVersioned(w.db, es[0].step);
      }
      hide After, Post;
      RunVersioned(Next(w, es[0]), es[1..], w');
    }
  }

  /** In every reachable state the message of the current version of every order is in the outbox, so convergence is
      always one delivery away. */
  lemma CurrentVersionIsQueued(es: seq<Event>, w: World, c: ClientOrderId)
    requires Reaches(START, es, w) && c in w.db.orders
    ensures w.db.orders[c].version >= 1
    ensures Message(OrderVersion(c, w.db.orders[c].version), OrderState(w.db.orders[c])) in w.db.outbox
  {
    EveryRunIsSound([]);
    MirrorNeverGoesBack(START, es, w);
    RunVersioned(START, es, w);
    assert Queued(w.db.outbox, OrderVersion(c, w.db.orders[c].version));
    var m :| m in w.db.outbox && m.key == OrderVersion(c, w.db.orders[c].version);
    assert Truthful(w.db, m);
  }

  // ------------------------------------------------------------------ requests

  /** What one delivery leaves: the request is entered, under the endpoint it was sent to, exactly when the handling went
      through and it was not there yet; and of the orders at most the one that the message tells is replaced, by a version
      that is newer than the mirrored one. */
  lemma PostExactly(cp: ControlPlane, m: Message, endpoint: Endpoint, fate: Fate)
    ensures var cp' := Post(cp, m, endpoint, fate);
            var runs := fate != Fails && (m.key !in cp.requests || fate == LooksEarly);
            && cp'.requests == (if m.key !in cp.requests && fate in {Succeeds, LooksEarly} then cp.requests[m.key := endpoint] else cp.requests)
            && cp'.orders == (if runs && m.payload.OrderState?
                                 && (m.payload.row.clientOrderId in cp.orders ==>
                                       cp.orders[m.payload.row.clientOrderId].version < m.payload.row.version)
                              then cp.orders[m.payload.row.clientOrderId := m.payload.row] else cp.orders)
  {
  }

  lemma StepKeepsRequests(w: World, e: Event, key: Key)
    requires WellFormed(w.db) && key in w.cp.requests
    ensures key in Next(w, e).cp.requests && Next(w, e).cp.requests[key] == w.cp.requests[key]
  {
    hide After;
  }

  /** A request id that was once entered stays, under its endpoint, over every run. */
  lemma {:induction false} RequestsStay(w: World, es: seq<Event>, w': World, key: Key)
    requires WellFormed(w.db) && Reaches(w, es, w') && key in w.cp.requests
    ensures key in w'.cp.requests && w'.cp.requests[key] == w.cp.requests[key]
    decreases |es|
  {
    if es != [] {
      StepKeepsRequests(w, es[0], key);
      hide After, Post;
      RequestsStay(Next(w, es[0]), es[1..], w', key);
    }
  }

  /** In every reachable state: a message that has been acted on once changes the mirror no more, whatever happens around
      its next delivery, even where the ledger of requests does not know it yet. */
  lemma ActedOnce(es: seq<Event>, w: World, m: Message, fate: Fate)
    requires Reaches(START, es, w) && m in w.db.outbox && m.key in w.acted
    ensures WellFormed(w.db) && Next(w, Arrives(m, fate)).cp.orders == w.cp.orders
  {
    EveryRunIsSound([]);
    MirrorNeverGoesBack(START, es, w);
    assert Covered(w, m.key) && Truthful(w.db, m);
    hide Sound, Mirrors;
    PostExactly(w.cp, m, EndpointOf(m.key), fate);
  }
}
