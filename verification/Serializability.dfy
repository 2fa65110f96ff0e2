/** Why the conflict detector is enough: admitted bundles execute like any sender-ordered rearrangement. */
module Serializability {
  import opened Base
  import opened Conflict

  type Storage = Slot -> nat

  /** An operation together with its effect on contract storage. */
  datatype Tx = Tx(access: Access, effect: Storage -> Storage)

  ghost predicate AgreeOn(s: Storage, t: Storage, slots: Footprint) {
    forall slot :: slot in slots ==> s(slot) == t(slot)
  }

  ghost predicate Same(s: Storage, t: Storage) {
    forall slot :: s(slot) == t(slot)
  }

  /** The recorded footprint is honest: only Write slots change, and only as a function of recorded slots. */
  ghost predicate Honest(t: Tx) {
    && (forall s: Storage, slot :: !t.access.Writes(slot) ==> t.effect(s)(slot) == s(slot))
    && (forall s: Storage, s': Storage, slot ::
          AgreeOn(s, s', t.access.slots) && t.access.Writes(slot) ==> t.effect(s)(slot) == t.effect(s')(slot))
  }

  ghost predicate AllHonest(txs: seq<Tx>) {
    forall i :: 0 <= i < |txs| ==> Honest(txs[i])
  }

  ghost function Execute(txs: seq<Tx>, s: Storage): Storage {
    if txs == [] then s else Execute(txs[1..], txs[0].effect(s))
  }

  ghost function Accesses(txs: seq<Tx>): seq<Access> {
    seq(|txs|, i requires 0 <= i < |txs| => txs[i].access)
  }

  /** One sender's operations in their order. */
  ghost function BySender(txs: seq<Tx>, sender: Address): seq<Tx> {
    if txs == [] then []
    else (if txs[0].access.sender == sender then [txs[0]] else []) + BySender(txs[1..], sender)
  }

  /** `b` rearranges `a` without changing any sender's own order. */
  ghost predicate SenderOrdered(a: seq<Tx>, b: seq<Tx>) {
    forall sender :: BySender(a, sender) == BySender(b, sender)
  }

  // ---------------------------------------------------------------- commuting

  lemma EffectCongruent(t: Tx, s: Storage, s': Storage)
    requires Honest(t) && Same(s, s')
    ensures Same(t.effect(s), t.effect(s'))
  {
    assert AgreeOn(s, s', t.access.slots);
    forall slot
      ensures t.effect(s)(slot) == t.effect(s')(slot)
    {
      if !t.access.Writes(slot) {
        assert t.effect(s)(slot) == s(slot) == s'(slot) == t.effect(s')(slot);
      }
    }
  }

  lemma Untouched(a: Tx, b: Tx, s: Storage)
    requires Honest(b) && !Clash(a.access, b.access)
    ensures AgreeOn(b.effect(s), s, a.access.slots)
  {
    forall slot | slot in a.access.slots
      ensures b.effect(s)(slot) == s(slot)
    {
      assert a.access.Touches(slot);
      assert !b.access.Writes(slot);
    }
  }

  lemma {:induction false} ExecuteCongruent(txs: seq<Tx>, s: Storage, s': Storage)
    requires AllHonest(txs) && Same(s, s')
    ensures Same(Execute(txs, s), Execute(txs, s'))
  {
    if txs != [] {
      EffectCongruent(txs[0], s, s');
      ExecuteCongruent(txs[1..], txs[0].effect(s), txs[0].effect(s'));
    }
  }

  lemma Commute(a: Tx, b: Tx, s: Storage)
    requires Honest(a) && Honest(b) && !Clash(a.access, b.access)
    ensures Same(a.effect(b.effect(s)), b.effect(a.effect(s)))
  {
    Untouched(a, b, s);
    assert !Clash(b.access, a.access);
    Untouched(b, a, s);
    forall slot
      ensures a.effect(b.effect(s))(slot) == b.effect(a.effect(s))(slot)
    {
      if a.access.Writes(slot) {
        assert a.access.Touches(slot) && !b.access.Writes(slot);
        assert b.effect(a.effect(s))(slot) == a.effect(s)(slot) == a.effect(b.effect(s))(slot);
      } else {
        assert a.effect(b.effect(s))(slot) == b.effect(s)(slot);
        assert b.access.Writes(slot) ==> b.effect(a.effect(s))(slot) == b.effect(s)(slot);
        assert a.effect(s)(slot) == s(slot);
      }
    }
  }

  lemma {:induction false} ExecuteAppend(a: seq<Tx>, b: seq<Tx>, s: Storage)
    ensures Execute(a + b, s) == Execute(b, Execute(a, s))
  {
    if a == [] {
      assert a + b == b;
    } else {
      assert (a + b)[1..] == a[1..] + b;
      ExecuteAppend(a[1..], b, a[0].effect(s));
    }
  }

  /** An operation that clashes with none of `before` may run ahead of them. */
  lemma {:induction false} MoveToFront(before: seq<Tx>, h: Tx, s: Storage)
    requires AllHonest(before) && Honest(h)
    requires forall i :: 0 <= i < |before| ==> !Clash(h.access, before[i].access)
    ensures Same(h.effect(Execute(before, s)), Execute(before, h.effect(s)))
  {
    if before != [] {
      var p := before[0];
      MoveToFront(before[1..], h, p.effect(s));
      Commute(h, p, s);
      ExecuteCongruent(before[1..], h.effect(p.effect(s)), p.effect(h.effect(s)));
    }
  }

  // ---------------------------------------------------------------- rearranging

  lemma {:induction false} BySenderAppend(a: seq<Tx>, b: seq<Tx>, sender: Address)
    ensures BySender(a + b, sender) == BySender(a, sender) + BySender(b, sender)
  {
    if a == [] {
      assert a + b == b;
    } else {
      assert (a + b)[1..] == a[1..] + b;
      BySenderAppend(a[1..], b, sender);
    }
  }

  lemma {:induction false} BySenderMembers(txs: seq<Tx>, t: Tx, sender: Address)
    ensures t in BySender(txs, sender) <==> t in txs && t.access.sender == sender
  {
    if txs != [] {
      BySenderMembers(txs[1..], t, sender);
      assert t in txs <==> t == txs[0] || t in txs[1..];
    }
  }

  lemma SameMembers(a: seq<Tx>, b: seq<Tx>, t: Tx)
    requires SenderOrdered(a, b)
    ensures t in a <==> t in b
  {
    BySenderMembers(a, t, t.access.sender);
    BySenderMembers(b, t, t.access.sender);
  }

  /** Split `b` at the first operation of the sender of `h`: that operation is `h` itself. */
  lemma {:induction false} FindHead(h: Tx, rest: seq<Tx>, b: seq<Tx>) returns (p: seq<Tx>, q: seq<Tx>)
    requires BySender(b, h.access.sender) == [h] + rest
    ensures b == p + [h] + q
    ensures forall i :: 0 <= i < |p| ==> p[i].access.sender != h.access.sender
  {
    assert b != [];
    if b[0].access.sender == h.access.sender {
      assert BySender(b, h.access.sender)[0] == b[0];
      p, q := [], b[1..];
    } else {
      assert BySender(b, h.access.sender) == BySender(b[1..], h.access.sender);
      p, q := FindHead(h, rest, b[1..]);
      p := [b[0]] + p;
      assert b == [b[0]] + b[1..];
    }
  }

  lemma {:induction false} BySenderAbsent(p: seq<Tx>, sender: Address)
    requires forall i :: 0 <= i < |p| ==> p[i].access.sender != sender
    ensures BySender(p, sender) == []
  {
    if p != [] {
      BySenderAbsent(p[1..], sender);
    }
  }

  lemma BySenderSplit(p: seq<Tx>, h: Tx, q: seq<Tx>, sender: Address)
    ensures BySender(p + [h] + q, sender)
         == BySender(p, sender) + (if h.access.sender == sender then [h] else []) + BySender(q, sender)
  {
    BySenderAppend(p + [h], q, sender);
    BySenderAppend(p, [h], sender);
    assert [h][1..] == [];
    assert BySender([h], sender) == if h.access.sender == sender then [h] else [];
  }

  lemma RemoveHeadOf(h: Tx, t: seq<Tx>, p: seq<Tx>, q: seq<Tx>, sender: Address)
    requires BySender([h] + t, sender) == BySender(p + [h] + q, sender)
    requires h.access.sender == sender ==> BySender(p, sender) == []
    ensures BySender(t, sender) == BySender(p + q, sender)
  {
    BySenderSplit(p, h, q, sender);
    BySenderSplit([], h, t, sender);
    BySenderAppend(p, q, sender);
    assert [] + [h] + t == [h] + t;
    var u, v := BySender(t, sender), BySender(q, sender);
    if h.access.sender == sender {
      assert [h] + u == [h] + v;
      assert u == ([h] + u)[1..] == ([h] + v)[1..] == v;
    } else {
      assert [] + [] + u == u && BySender(p, sender) + [] + v == BySender(p, sender) + v;
    }
  }

  lemma RemoveHead(a: seq<Tx>, p: seq<Tx>, q: seq<Tx>)
    requires a != [] && SenderOrdered(a, p + [a[0]] + q)
    requires forall i :: 0 <= i < |p| ==> p[i].access.sender != a[0].access.sender
    ensures SenderOrdered(a[1..], p + q)
  {
    BySenderAbsent(p, a[0].access.sender);
    assert a == [a[0]] + a[1..];
    forall sender
      ensures BySender(a[1..], sender) == BySender(p + q, sender)
    {
      RemoveHeadOf(a[0], a[1..], p, q, sender);
    }
  }

  ghost predicate Compatible(txs: seq<Tx>) {
    forall i, j :: 0 <= i < j < |txs| && txs[i].access.sender != txs[j].access.sender
      ==> !Clash(txs[i].access, txs[j].access)
  }

  lemma {:induction false} CompatibleReorder(a: seq<Tx>, b: seq<Tx>, s: Storage)
    requires AllHonest(a) && Compatible(a) && SenderOrdered(a, b)
    ensures Same(Execute(a, s), Execute(b, s))
    decreases |a|
  {
    if a == [] {
      if b != [] {
        SameMembers(a, b, b[0]);
      }
    } else {
      var h := a[0];
      assert BySender(a, h.access.sender) == [h] + BySender(a[1..], h.access.sender);
      var p, q := FindHead(h, BySender(a[1..], h.access.sender), b);
      CompatibleWithHead(a, b, p, q);
      RemoveHead(a, p, q);
      CompatibleReorder(a[1..], p + q, h.effect(s));
      HeadFirst(h, p, q, s);
    }
  }

  /** What stands before the head in `b` is honest and does not clash with it; what stands behind is honest. */
  lemma CompatibleWithHead(a: seq<Tx>, b: seq<Tx>, p: seq<Tx>, q: seq<Tx>)
    requires a != [] && AllHonest(a) && Compatible(a) && SenderOrdered(a, b) && b == p + [a[0]] + q
    requires forall i :: 0 <= i < |p| ==> p[i].access.sender != a[0].access.sender
    ensures AllHonest(p) && AllHonest(q)
    ensures forall i :: 0 <= i < |p| ==> !Clash(a[0].access, p[i].access)
  {
    hide Honest, Clash, BySender;
    forall i | 0 <= i < |b|
      ensures Honest(b[i])
    {
      SameMembers(a, b, b[i]);
    }
    forall i | 0 <= i < |p|
      ensures !Clash(a[0].access, p[i].access)
    {
      assert p[i] == b[i];
      SameMembers(a, b, p[i]);
    }
    assert forall i :: 0 <= i < |p| ==> p[i] == b[i];
    assert forall i :: 0 <= i < |q| ==> q[i] == b[|p| + 1 + i];
  }

  /** Executing `h` first gives the same storage. */
  lemma HeadFirst(h: Tx, p: seq<Tx>, q: seq<Tx>, s: Storage)
    requires Honest(h) && AllHonest(p) && AllHonest(q)
    requires forall i :: 0 <= i < |p| ==> !Clash(h.access, p[i].access)
    ensures Same(Execute(p + q, h.effect(s)), Execute(p + [h] + q, s))
  {
    hide Honest, Clash;
    MoveToFront(p, h, s);
    ExecuteAppend(p + [h], q, s);
    ExecuteAppend(p, [h], s);
    ExecuteAppend(p, q, h.effect(s));
    ExecuteCongruent(q, h.effect(Execute(p, s)), Execute(p, h.effect(s)));
    assert Execute([h], Execute(p, s)) == h.effect(Execute(p, s));
  }

  /**
   * Serializability: if each operation entered the bundle only when the detector reported nothing,
   * every rearrangement that keeps each sender's own order leaves the same storage.
   */
  lemma AdmittedBundlesSerialize(a: seq<Tx>, b: seq<Tx>, s: Storage)
    requires Admitted(Accesses(a)) && AllHonest(a) && SenderOrdered(a, b)
    ensures Same(Execute(a, s), Execute(b, s))
  {
    var log := Accesses(a);
    AdmittedIffConflictFree(log);
    forall i, j | 0 <= i < j < |a| && a[i].access.sender != a[j].access.sender
      ensures !Clash(a[i].access, a[j].access)
    {
      assert !Conflicts(log[i], log[j]);
    }
    CompatibleReorder(a, b, s);
  }

  // ---------------------------------------------------------------- the guard is needed

  /** Writes a fixed word to one slot. */
  ghost function StoreTx(sender: Address, slot: Slot, word: nat): Tx {
    Tx(Access(sender, map[slot := Write]), (s: Storage) => (k: Slot) => if k == slot then word else s(k))
  }

  /** Two unguarded writers of one slot: honest, sender-ordered, and yet the order shows. */
  lemma UnguardedOrderShows(x: Address, y: Address, slot: Slot, s: Storage)
    requires x != y
    ensures var a, b := [StoreTx(x, slot, 1), StoreTx(y, slot, 2)], [StoreTx(y, slot, 2), StoreTx(x, slot, 1)];
            && AllHonest(a) && SenderOrdered(a, b)
            && !Admitted(Accesses(a))
            && !Same(Execute(a, s), Execute(b, s))
            && Execute(a, s)(slot) == 2 && Execute(b, s)(slot) == 1
  {
    var p, q := StoreTx(x, slot, 1), StoreTx(y, slot, 2);
    var a, b := [p, q], [q, p];
    assert a[1..] == [q] && b[1..] == [p];
    assert Execute(a, s)(slot) == 2 by { assert Execute([q], p.effect(s)) == q.effect(p.effect(s)); }
    assert Execute(b, s)(slot) == 1 by { assert Execute([p], q.effect(s)) == p.effect(q.effect(s)); }
    AdmittedIffConflictFree(Accesses(a));
    assert p.access.Touches(slot) && q.access.Touches(slot) && q.access.Writes(slot);
    assert Conflicts(Accesses(a)[0], Accesses(a)[1]);
  }
}
