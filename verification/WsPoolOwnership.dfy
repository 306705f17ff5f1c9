/** Exclusive ownership: at every instant each connection ever dialed is in exactly one pair of hands, and hands that
    work for a key only hold connections dialed for it. */
module WsPoolOwnership {
  import opened Units
  import opened Ownership
  import opened WsPool
  import opened WsPoolRuns

  datatype Holder = ByRefill(r: nat) | InBucket(key: Key) | BySweeper | ByCloser | ByGetter(g: nat) | Shut

  /** The parts of a state that hold connections. */
  datatype Hands = Hands(
    refills: map<nat, Refill>,
    idle: map<Key, seq<Item>>,
    getters: map<nat, Getter>,
    pulled: set<ConnId>,
    pending: set<ConnId>,
    shut: set<ConnId>)

  function PulledBy(sweeper: Sweeper): set<ConnId> {
    if sweeper.Sweeping? || sweeper.Closing? then sweeper.pulled else {}
  }

  function PendingOf(closer: Closer): set<ConnId> {
    if closer.Draining? then closer.pending else {}
  }

  function HandsOf(s: State): Hands {
    Hands(s.refills, s.sh.idle, s.getters, PulledBy(s.sweeper), PendingOf(s.closer), s.shut)
  }

  function PcConns(pc: Pc): set<ConnId> {
    if pc.Got? || pc.Late? then {pc.conn} else {}
  }

  function HandConns(hand: Hand): set<ConnId> {
    if hand.Took? || hand.Handed? then {hand.item.conn} else {}
  }

  function InHands(x: Hands, h: Holder): set<ConnId> {
    match h
    case ByRefill(r) => if r in x.refills then PcConns(x.refills[r].pc) else {}
    case InBucket(key) => Conns(Bucket(x.idle, key))
    case BySweeper => x.pulled
    case ByCloser => x.pending
    case ByGetter(g) => if g in x.getters then HandConns(x.getters[g].hand) else {}
    case Shut => x.shut
  }

  /** The key a holder works for, if it works for one. */
  function HolderKey(x: Hands, h: Holder): Option<Key> {
    match h
    case ByRefill(r) => if r in x.refills then Some(x.refills[r].key) else None
    case InBucket(key) => Some(key)
    case ByGetter(g) => if g in x.getters then Some(x.getters[g].key) else None
    case _ => None
  }

  ghost function GripOf(x: Hands): Grip<Holder, Key> {
    Grip((h: Holder) => InHands(x, h), (h: Holder) => HolderKey(x, h))
  }

  // ---------------------------------------------------------------------------------------------------------------
  // The ways in which a connection changes hands
  // ---------------------------------------------------------------------------------------------------------------

  function RefillConns(refills: map<nat, Refill>, r: nat): set<ConnId> {
    if r in refills then PcConns(refills[r].pc) else {}
  }

  /** Goroutines come, go and advance without any of them acquiring or losing a connection. */
  lemma RefillsMove(keyOf: map<ConnId, Key>, x: Hands, refills: map<nat, Refill>)
    requires Exclusive(keyOf, GripOf(x))
    requires forall r :: RefillConns(refills, r) == RefillConns(x.refills, r)
    requires forall r :: r in refills && r in x.refills ==> refills[r].key == x.refills[r].key
    ensures Exclusive(keyOf, GripOf(x.(refills := refills)))
  {
    var x' := x.(refills := refills);
    forall h: Holder
      ensures GripOf(x').Holds(h) == GripOf(x).Holds(h)
      ensures GripOf(x').Holds(h) != {} ==> HolderKey(x', h) == HolderKey(x, h)
    {
      if h.ByRefill? {
        assert GripOf(x').Holds(h) == RefillConns(refills, h.r) && GripOf(x).Holds(h) == RefillConns(x.refills, h.r);
      }
    }
    Transfer(keyOf, GripOf(x), GripOf(x'), {}, Shut);
  }

  /** Get calls begin and advance without any of them acquiring or losing a connection. */
  lemma GetterMoves(keyOf: map<ConnId, Key>, x: Hands, g: nat, getter: Getter)
    requires Exclusive(keyOf, GripOf(x))
    requires if g in x.getters
             then HandConns(getter.hand) == HandConns(x.getters[g].hand) && getter.key == x.getters[g].key
             else HandConns(getter.hand) == {}
    ensures Exclusive(keyOf, GripOf(x.(getters := x.getters[g := getter])))
  {
    Transfer(keyOf, GripOf(x), GripOf(x.(getters := x.getters[g := getter])), {}, Shut);
  }

  /** A dial succeeds. */
  lemma Dialed(keyOf: map<ConnId, Key>, x: Hands, r: nat, conn: ConnId)
    requires Exclusive(keyOf, GripOf(x)) && r in x.refills && x.refills[r].pc.Dial? && conn !in keyOf
    ensures Exclusive(keyOf[conn := x.refills[r].key],
                      GripOf(x.(refills := x.refills[r := x.refills[r].(pc := Got(conn))])))
  {
    var x' := x.(refills := x.refills[r := x.refills[r].(pc := Got(conn))]);
    assert forall h :: conn !in GripOf(x).Holds(h);
    Arrival(keyOf, x.refills[r].key, GripOf(x), GripOf(x'), conn, ByRefill(r));
  }

  /** A refill closes its late connection. */
  lemma Dropped(keyOf: map<ConnId, Key>, x: Hands, r: nat, pc: Pc)
    requires Exclusive(keyOf, GripOf(x)) && r in x.refills && x.refills[r].pc.Late? && PcConns(pc) == {}
    ensures Exclusive(keyOf, GripOf(x.(refills := x.refills[r := x.refills[r].(pc := pc)],
                                shut := x.shut + {x.refills[r].pc.conn})))
  {
    var c := x.refills[r].pc.conn;
    OnlyHolder(GripOf(x), ByRefill(r), {c});
    assert c in GripOf(x).Holds(ByRefill(r));
    var x' := x.(refills := x.refills[r := x.refills[r].(pc := pc)], shut := x.shut + {c});
    Transfer(keyOf, GripOf(x), GripOf(x'), {c}, Shut);
  }

  /** A refill stores its connection at the back of its bucket. */
  lemma Stored(keyOf: map<ConnId, Key>, x: Hands, r: nat, item: Item)
    requires Exclusive(keyOf, GripOf(x)) && r in x.refills && x.refills[r].pc == Got(item.conn)
    ensures var key := x.refills[r].key;
      Exclusive(keyOf, GripOf(x.(refills := x.refills[r := x.refills[r].(pc := Check)],
                          idle := x.idle[key := Bucket(x.idle, key) + [item]])))
  {
    var key := x.refills[r].key;
    var idle := x.idle[key := Bucket(x.idle, key) + [item]];
    var x' := x.(refills := x.refills[r := x.refills[r].(pc := Check)], idle := idle);
    ConnsAppend(Bucket(x.idle, key), item);
    OnlyHolder(GripOf(x), ByRefill(r), {item.conn});
    assert item.conn in GripOf(x).Holds(ByRefill(r));
    assert forall k :: k != key ==> Bucket(idle, k) == Bucket(x.idle, k);
    Transfer(keyOf, GripOf(x), GripOf(x'), {item.conn}, InBucket(key));
  }

  /** A get call takes the front of its bucket. */
  lemma Taken(keyOf: map<ConnId, Key>, x: Hands, g: nat)
    requires Exclusive(keyOf, GripOf(x)) && g in x.getters && x.getters[g].hand.Looking?
    requires Bucket(x.idle, x.getters[g].key) != [] && Distinct(Bucket(x.idle, x.getters[g].key))
    ensures var key := x.getters[g].key;
      Exclusive(keyOf, GripOf(x.(idle := x.idle[key := Bucket(x.idle, key)[1..]],
                          getters := x.getters[g := x.getters[g].(hand := Took(Bucket(x.idle, key)[0]))])))
  {
    var key := x.getters[g].key;
    var bucket := Bucket(x.idle, key);
    var idle := x.idle[key := bucket[1..]];
    var x' := x.(idle := idle, getters := x.getters[g := x.getters[g].(hand := Took(bucket[0]))]);
    ConnsFront(bucket);
    OnlyHolder(GripOf(x), InBucket(key), {bucket[0].conn});
    assert bucket[0].conn in GripOf(x).Holds(InBucket(key));
    assert forall k :: k != key ==> Bucket(idle, k) == Bucket(x.idle, k);
    Transfer(keyOf, GripOf(x), GripOf(x'), {bucket[0].conn}, ByGetter(g));
  }

  /** A get call closes the stale connection it took. */
  lemma Rejected(keyOf: map<ConnId, Key>, x: Hands, g: nat)
    requires Exclusive(keyOf, GripOf(x)) && g in x.getters && x.getters[g].hand.Took?
    ensures Exclusive(keyOf, GripOf(x.(getters := x.getters[g := x.getters[g].(hand := Looking)],
                                shut := x.shut + {x.getters[g].hand.item.conn})))
  {
    var c := x.getters[g].hand.item.conn;
    OnlyHolder(GripOf(x), ByGetter(g), {c});
    assert c in GripOf(x).Holds(ByGetter(g));
    var x' := x.(getters := x.getters[g := x.getters[g].(hand := Looking)], shut := x.shut + {c});
    Transfer(keyOf, GripOf(x), GripOf(x'), {c}, Shut);
  }

  /** A sweep pulls part of a bucket out. */
  lemma Swept(keyOf: map<ConnId, Key>, x: Hands, key: Key, ready: seq<Item>, expired: set<ConnId>)
    requires Exclusive(keyOf, GripOf(x))
    requires Conns(Bucket(x.idle, key)) == Conns(ready) + expired && Conns(ready) !! expired
    ensures Exclusive(keyOf, GripOf(x.(idle := x.idle[key := ready], pulled := x.pulled + expired)))
  {
    var idle := x.idle[key := ready];
    var x' := x.(idle := idle, pulled := x.pulled + expired);
    OnlyHolder(GripOf(x), InBucket(key), expired);
    assert forall c :: c in expired ==> c in GripOf(x).Holds(InBucket(key));
    assert forall k :: k != key ==> Bucket(idle, k) == Bucket(x.idle, k);
    Transfer(keyOf, GripOf(x), GripOf(x'), expired, BySweeper);
  }

  /** The sweeper closes a connection it pulled out. */
  lemma SweeperCloses(keyOf: map<ConnId, Key>, x: Hands, conn: ConnId)
    requires Exclusive(keyOf, GripOf(x)) && conn in x.pulled
    ensures Exclusive(keyOf, GripOf(x.(pulled := x.pulled - {conn}, shut := x.shut + {conn})))
  {
    OnlyHolder(GripOf(x), BySweeper, {conn});
    assert conn in GripOf(x).Holds(BySweeper);
    Transfer(keyOf, GripOf(x), GripOf(x.(pulled := x.pulled - {conn}, shut := x.shut + {conn})), {conn}, Shut);
  }

  /** Close closes a connection it drained. */
  lemma CloserCloses(keyOf: map<ConnId, Key>, x: Hands, conn: ConnId)
    requires Exclusive(keyOf, GripOf(x)) && conn in x.pending
    ensures Exclusive(keyOf, GripOf(x.(pending := x.pending - {conn}, shut := x.shut + {conn})))
  {
    OnlyHolder(GripOf(x), ByCloser, {conn});
    assert conn in GripOf(x).Holds(ByCloser);
    Transfer(keyOf, GripOf(x), GripOf(x.(pending := x.pending - {conn}, shut := x.shut + {conn})), {conn}, Shut);
  }

  /** Close drains every bucket at once. */
  lemma DrainedAll(keyOf: map<ConnId, Key>, x: Hands)
    requires Exclusive(keyOf, GripOf(x)) && x.pending == {}
    ensures Exclusive(keyOf, GripOf(x.(idle := map[], pending := IdleConns(x.idle))))
  {
    var all := IdleConns(x.idle);
    var x' := x.(idle := map[], pending := all);
    IdleConnsAre(x.idle);
    forall c | c in all ensures c in keyOf && forall h :: c in GripOf(x).Holds(h) ==> h.InBucket? {
      var k :| c in Conns(Bucket(x.idle, k));
      assert c in GripOf(x).Holds(InBucket(k));
    }
    forall h: Holder | h != ByCloser ensures GripOf(x').Holds(h) == GripOf(x).Holds(h) - all {
      if h.InBucket? {
        assert Bucket(x'.idle, h.key) == [];
        assert forall c :: c in GripOf(x).Holds(h) ==> c in all;
      }
    }
    Transfer(keyOf, GripOf(x), GripOf(x'), all, ByCloser);
  }

  // ---------------------------------------------------------------------------------------------------------------
  // Buckets
  // ---------------------------------------------------------------------------------------------------------------

  lemma ConnsFront(bucket: seq<Item>)
    requires bucket != [] && Distinct(bucket)
    ensures Conns(bucket) == Conns(bucket[1..]) + {bucket[0].conn}
    ensures bucket[0].conn !in Conns(bucket[1..])
    ensures Distinct(bucket[1..])
  {
    assert bucket == [bucket[0]] + bucket[1..];
    forall c | c in Conns(bucket) ensures c in Conns(bucket[1..]) + {bucket[0].conn} {
      var x :| x in bucket && x.conn == c;
    }
  }

  lemma ConnsAppend(bucket: seq<Item>, item: Item)
    ensures Conns(bucket + [item]) == Conns(bucket) + {item.conn}
    ensures Distinct(bucket) && item.conn !in Conns(bucket) ==> Distinct(bucket + [item])
  {
    forall c | c in Conns(bucket) + {item.conn} ensures c in Conns(bucket + [item]) {
      if c != item.conn {
        var x :| x in bucket && x.conn == c;
        assert x in bucket + [item];
      } else {
        assert item in bucket + [item];
      }
    }
    forall i | 0 <= i < |bucket| && item.conn !in Conns(bucket) ensures bucket[i].conn != item.conn {
      assert bucket[i] in bucket;
    }
  }

  lemma IdleConnsAre(idle: map<Key, seq<Item>>)
    ensures forall c :: c in IdleConns(idle) <==> exists k :: c in Conns(Bucket(idle, k))
  {
    forall c | c in IdleConns(idle) ensures exists k :: c in Conns(Bucket(idle, k)) {
      var k, item :| k in idle && item in idle[k] && item.conn == c;
      assert c in Conns(Bucket(idle, k));
    }
    forall c, k | c in Conns(Bucket(idle, k)) ensures c in IdleConns(idle) {
      var item :| item in Bucket(idle, k) && item.conn == c;
      assert k in idle && item in idle[k];
    }
  }
}
