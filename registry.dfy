/**
 * The server's subscription registry as values: `restaurantClients`, a map
 * from restaurant id to the set of connections subscribed to it, and the
 * three things done to it — add on subscribe, remove on close, and the
 * fan-out of one frame to the open members of one restaurant's set.
 */
module Registry {
  import opened Protocol

  /** A WebSocket connection, by identity. */
  type ConnId = nat

  type Clients = map<string, set<ConnId>>

  /** `restaurantClients.get(r)`, with an absent entry read as the empty set. */
  function Members(m: Clients, r: string): set<ConnId> {
    if r in m then m[r] else {}
  }

  /** The registry never keeps an entry for a restaurant nobody is subscribed to. */
  ghost predicate NoEmptySets(m: Clients) {
    forall r :: r in m ==> m[r] != {}
  }

  /** The subscribe handler: create `r`'s set if absent, then add `c` to it. */
  function Add(m: Clients, r: string, c: ConnId): (m': Clients)
    ensures forall r' :: Members(m', r') == if r' == r then Members(m, r) + {c} else Members(m, r')
    ensures m'.Keys == m.Keys + {r}
    ensures NoEmptySets(m) ==> NoEmptySets(m')
  {
    m[r := Members(m, r) + {c}]
  }

  /** The close handler: delete `c` from `r`'s set, and delete the entry when that leaves it empty. */
  function Remove(m: Clients, r: string, c: ConnId): (m': Clients)
    ensures forall r' :: Members(m', r') == if r' == r then Members(m, r) - {c} else Members(m, r')
    ensures m'.Keys == if Members(m, r) - {c} == {} then m.Keys - {r} else m.Keys
    ensures NoEmptySets(m) ==> NoEmptySets(m')
  {
    if r !in m then m
    else if m[r] - {c} == {} then m - {r}
    else m[r := m[r] - {c}]
  }

  /** The connections a broadcast for `r` writes to: members of `r`'s set whose `readyState` is OPEN. */
  function Targets(m: Clients, open: set<ConnId>, r: string): (t: set<ConnId>)
    ensures forall c :: c in t <==> c in Members(m, r) && c in open
  {
    Members(m, r) * open
  }

  /** Every target's outgoing frames gain `f` at the end; every other connection's are untouched. */
  function Deliver(outbox: map<ConnId, seq<Frame>>, targets: set<ConnId>, f: Frame): (o: map<ConnId, seq<Frame>>)
    ensures o.Keys == outbox.Keys
    ensures forall c :: c in outbox && c in targets ==> o[c] == outbox[c] + [f]
    ensures forall c :: c in outbox && c !in targets ==> o[c] == outbox[c]
  {
    map c | c in outbox :: if c in targets then outbox[c] + [f] else outbox[c]
  }

  /** Delivering to one more connection is one more append, on that connection's frames. */
  lemma DeliverOneMore(outbox: map<ConnId, seq<Frame>>, targets: set<ConnId>, c: ConnId, f: Frame)
    requires c in outbox && c !in targets
    ensures Deliver(outbox, targets + {c}, f) == Deliver(outbox, targets, f)[c := outbox[c] + [f]]
  {
    var l := Deliver(outbox, targets + {c}, f);
    var r := Deliver(outbox, targets, f)[c := outbox[c] + [f]];
    assert l.Keys == r.Keys;
    forall d | d in l ensures l[d] == r[d] {
    }
  }

  /** Visiting one more member during a broadcast: it gets the frame exactly when it is open. */
  lemma DeliverVisit(outbox: map<ConnId, seq<Frame>>, done: set<ConnId>, open: set<ConnId>, c: ConnId, f: Frame)
    requires c in outbox && c !in done
    ensures c in open ==> Deliver(outbox, (done + {c}) * open, f) == Deliver(outbox, done * open, f)[c := outbox[c] + [f]]
    ensures c !in open ==> Deliver(outbox, (done + {c}) * open, f) == Deliver(outbox, done * open, f)
  {
    if c in open {
      assert (done + {c}) * open == done * open + {c};
      DeliverOneMore(outbox, done * open, c, f);
    } else {
      assert (done + {c}) * open == done * open;
    }
  }

  /** Subscribing twice is subscribing once. */
  lemma AddIdempotent(m: Clients, r: string, c: ConnId)
    ensures Add(Add(m, r, c), r, c) == Add(m, r, c)
  {
    assert Members(Add(m, r, c), r) + {c} == Members(m, r) + {c};
  }

  /** Closing a connection that had just subscribed to a restaurant it was not in restores the registry. */
  lemma RemoveUndoesAdd(m: Clients, r: string, c: ConnId)
    requires NoEmptySets(m) && c !in Members(m, r)
    ensures Remove(Add(m, r, c), r, c) == m
  {
    var m' := Remove(Add(m, r, c), r, c);
    assert m'.Keys == m.Keys;
    forall r' | r' in m ensures m'[r'] == m[r'] {
      assert Members(m', r') == Members(m, r');
    }
  }

  /**
   * Re-subscribing to `b` after `a` and then closing removes the connection
   * from `b` only: it stays in `a`'s set.
   */
  lemma ResubscribeLeavesFirst(m: Clients, a: string, b: string, c: ConnId)
    requires a != b
    ensures c in Members(Remove(Add(Add(m, a, c), b, c), b, c), a)
    ensures c !in Members(Remove(Add(Add(m, a, c), b, c), b, c), b)
  {
  }

  /** A broadcast to a restaurant with no entry writes nothing. */
  lemma NoEntryNoDelivery(m: Clients, open: set<ConnId>, r: string, outbox: map<ConnId, seq<Frame>>, f: Frame)
    requires r !in m
    ensures Deliver(outbox, Targets(m, open, r), f) == outbox
  {
  }

  /** One step of a history of subscribe and close events on the registry. */
  datatype Event = Subscribed(restaurant: string, conn: ConnId) | Closed(restaurant: string, conn: ConnId)

  function Step(m: Clients, e: Event): Clients {
    match e
    case Subscribed(r, c) => Add(m, r, c)
    case Closed(r, c) => Remove(m, r, c)
  }

  /** The registry after a history, starting from the empty map. */
  function Run(h: seq<Event>): Clients
  {
    if h == [] then map[] else Step(Run(h[..|h| - 1]), h[|h| - 1])
  }

  /** Reference definition: the latest event in `h` about `c` and `r` is a subscription. */
  function LastWasSubscribe(h: seq<Event>, r: string, c: ConnId): bool
  {
    if h == [] then false
    else if h[|h| - 1].restaurant == r && h[|h| - 1].conn == c then h[|h| - 1].Subscribed?
    else LastWasSubscribe(h[..|h| - 1], r, c)
  }

  /**
   * After any history, a restaurant's set holds exactly the connections whose
   * latest event for that restaurant is a subscription, and no entry is empty.
   */
  lemma {:induction false} RunMembers(h: seq<Event>, r: string, c: ConnId)
    ensures NoEmptySets(Run(h))
    ensures c in Members(Run(h), r) <==> LastWasSubscribe(h, r, c)
  {
    if h != [] {
      RunMembers(h[..|h| - 1], r, c);
    }
  }
}
