/** Exclusive ownership: who holds which of the things that are numbered and keyed. */
module Ownership {
  import opened Units

  /** What every holder holds, and the key it works for, if it works for one. */
  datatype Grip<!H(!new), K> = Grip(held: H -> set<nat>, tag: H -> Option<K>) {
    function Holds(h: H): set<nat> {
      held(h)
    }
  }

  predicate Fits<K(==)>(tag: Option<K>, key: K) {
    tag.None? || tag.value == key
  }

  /** Every thing has a holder. */
  ghost predicate Placed<H(!new), K>(keyOf: map<nat, K>, x: Grip<H, K>) {
    forall c :: c in keyOf ==> exists h :: c in x.Holds(h)
  }

  /** Nothing else is held, and a holder that works for a key only holds things of that key. */
  ghost predicate Fitting<H(!new), K>(keyOf: map<nat, K>, x: Grip<H, K>) {
    forall h, c :: c in x.Holds(h) ==> c in keyOf && Fits(x.tag(h), keyOf[c])
  }

  /** Nothing has two holders. */
  ghost predicate Unshared<H(!new), K>(x: Grip<H, K>) {
    forall h, h', c :: c in x.Holds(h) && c in x.Holds(h') ==> h == h'
  }

  ghost predicate Exclusive<H(!new), K>(keyOf: map<nat, K>, x: Grip<H, K>) {
    Placed(keyOf, x) && Fitting(keyOf, x) && Unshared(x)
  }

  /** Only the things in `moved` change hands, and all of them to `to`. */
  ghost predicate Passed<H(!new), K>(keyOf: map<nat, K>, x: Grip<H, K>, x': Grip<H, K>, moved: set<nat>, to: H) {
    && (forall h {:trigger x'.Holds(h)} :: h != to ==> x'.Holds(h) == x.Holds(h) - moved)
    && x'.Holds(to) == x.Holds(to) + moved
    && (forall h {:trigger x'.Holds(h)} :: x'.Holds(h) != {} ==>
          x'.tag(h) == x.tag(h) || (h == to && x.Holds(to) == {}))
    && (forall c :: c in moved ==> c in keyOf && Fits(x'.tag(to), keyOf[c]))
  }

  lemma PassedPlaced<H(!new), K>(keyOf: map<nat, K>, x: Grip<H, K>, x': Grip<H, K>, moved: set<nat>, to: H)
    requires forall c :: c in keyOf && c !in moved ==> exists h :: c in x.Holds(h)
    requires Passed(keyOf, x, x', moved, to)
    ensures Placed(keyOf, x')
  {
    forall c | c in keyOf ensures exists h :: c in x'.Holds(h) {
      if c in moved {
        assert c in x'.Holds(to);
      } else {
        var h :| c in x.Holds(h);
        assert c in x'.Holds(h);
      }
    }
  }

  lemma PassedFits<H(!new), K>(keyOf: map<nat, K>, x: Grip<H, K>, x': Grip<H, K>, moved: set<nat>, to: H)
    requires Fitting(keyOf, x) && Passed(keyOf, x, x', moved, to)
    ensures Fitting(keyOf, x')
  {
    forall h, c | c in x'.Holds(h) ensures c in keyOf && Fits(x'.tag(h), keyOf[c]) {
      assert c in moved || c in x.Holds(h);
    }
  }

  lemma PassedUnique<H(!new), K>(keyOf: map<nat, K>, x: Grip<H, K>, x': Grip<H, K>, moved: set<nat>, to: H)
    requires Unshared(x) && Passed(keyOf, x, x', moved, to)
    ensures Unshared(x')
  {
    forall h, h', c | c in x'.Holds(h) && c in x'.Holds(h') ensures h == h' {
      if c !in moved {
        assert c in x.Holds(h) && c in x.Holds(h');
      }
    }
  }

  /** A step that only passes `moved` on to `to` keeps Exclusive. */
  lemma Transfer<H(!new), K>(keyOf: map<nat, K>, x: Grip<H, K>, x': Grip<H, K>, moved: set<nat>, to: H)
    requires Exclusive(keyOf, x) && Passed(keyOf, x, x', moved, to)
    ensures Exclusive(keyOf, x')
  {
    PassedPlaced(keyOf, x, x', moved, to);
    PassedFits(keyOf, x, x', moved, to);
    PassedUnique(keyOf, x, x', moved, to);
  }

  /** Neither does something new that only passes into the hands of `to`. */
  lemma Arrival<H(!new), K>(keyOf: map<nat, K>, key: K, x: Grip<H, K>, x': Grip<H, K>, c: nat, to: H)
    requires Exclusive(keyOf, x) && c !in keyOf && Passed(keyOf[c := key], x, x', {c}, to)
    ensures Exclusive(keyOf[c := key], x')
  {
    var keyOf' := keyOf[c := key];
    PassedPlaced(keyOf', x, x', {c}, to);
    assert Fitting(keyOf', x);
    PassedFits(keyOf', x, x', {c}, to);
    PassedUnique(keyOf', x, x', {c}, to);
  }

  /** A thing is in no other holder's hands. */
  lemma OnlyHolder<H(!new), K>(x: Grip<H, K>, h: H, moved: set<nat>)
    requires Unshared(x) && moved <= x.Holds(h)
    ensures forall h' {:trigger x.Holds(h')} :: h' != h ==> x.Holds(h') - moved == x.Holds(h')
  {
  }

  /** Everything has exactly one holder, and nothing else is held. */
  lemma OneHolder<H(!new), K>(keyOf: map<nat, K>, x: Grip<H, K>)
    requires Exclusive(keyOf, x)
    ensures forall c :: c in keyOf ==> exists h :: c in x.Holds(h) && forall h' :: c in x.Holds(h') ==> h' == h
    ensures forall h, c :: c in x.Holds(h) ==> c in keyOf
  {
    forall c | c in keyOf ensures exists h :: c in x.Holds(h) && forall h' :: c in x.Holds(h') ==> h' == h {
      var h :| c in x.Holds(h);
    }
  }
}
