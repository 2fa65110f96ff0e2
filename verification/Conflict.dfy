/** Storage-conflict detection between the operations of one bundle. */
module Conflict {
  import opened Base

  datatype Slot = Slot(contract: Address, key: B256)

  datatype AccessType = Read | Write

  type Footprint = map<Slot, AccessType>

  /** Slots touched by one operation, filled while its simulation is traced. */
  class StorageAccess {
    var slots: Footprint

    constructor ()
      ensures slots == map[]
    {
      slots := map[];
    }

    method RecordRead(slot: Slot)
      modifies this
      ensures slots == Record(old(slots), Recorded(slot, Read))
    {
      if slot !in slots {
        slots := slots[slot := Read];
      }
    }

    method RecordWrite(slot: Slot)
      modifies this
      ensures slots == Record(old(slots), Recorded(slot, Write))
    {
      slots := slots[slot := Write];
    }
  }

  datatype Recorded = Recorded(slot: Slot, kind: AccessType)

  function Record(f: Footprint, r: Recorded): Footprint {
    if r.kind.Read? && r.slot in f then f else f[r.slot := r.kind]
  }

  function RecordAll(rs: seq<Recorded>): Footprint {
    if rs == [] then map[] else Record(RecordAll(rs[..|rs| - 1]), rs[|rs| - 1])
  }

  /** A read never hides a write: what is kept depends only on which records exist, not on their order. */
  lemma {:induction false} RecordAllMeaning(rs: seq<Recorded>, slot: Slot)
    ensures slot in RecordAll(rs) <==> exists r :: r in rs && r.slot == slot
    ensures slot in RecordAll(rs) ==> (RecordAll(rs)[slot].Write? <==> Recorded(slot, Write) in rs)
  {
    if rs == [] {
    } else {
      var front, last := rs[..|rs| - 1], rs[|rs| - 1];
      assert rs == front + [last];
      RecordAllMeaning(front, slot);
    }
  }

  // ---------------------------------------------------------------- the naive relation

  /** An operation as the detector sees it. */
  datatype Access = Access(sender: Address, slots: Footprint) {
    predicate Touches(slot: Slot) { slot in slots }
    predicate Writes(slot: Slot) { slot in slots && slots[slot].Write? }
  }

  /** Two footprints share a slot that one of them writes. */
  ghost predicate Clash(a: Access, b: Access) {
    exists slot :: a.Touches(slot) && b.Touches(slot) && (a.Writes(slot) || b.Writes(slot))
  }

  ghost predicate Conflicts(a: Access, b: Access) {
    a.sender != b.sender && Clash(a, b)
  }

  /** The reference answer: all earlier operations in pairwise conflict with `op`. */
  ghost function NaiveConflicts(log: seq<Access>, op: Access): set<nat> {
    set i: nat | i < |log| && Conflicts(log[i], op)
  }

  // ---------------------------------------------------------------- the index

  /** Positions that touch `slot`, in order. */
  ghost function Accessors(log: seq<Access>, slot: Slot): seq<nat> {
    if log == [] then []
    else
      var n := |log| - 1;
      Accessors(log[..n], slot) + if log[n].Touches(slot) then [n] else []
  }

  ghost function LastWriter(log: seq<Access>, slot: Slot): Option<nat> {
    if log == [] then None
    else
      var n := |log| - 1;
      if log[n].Writes(slot) then Some(n) else LastWriter(log[..n], slot)
  }

  lemma {:induction false} AccessorsMeaning(log: seq<Access>, slot: Slot)
    ensures forall i: nat :: i in Accessors(log, slot) <==> i < |log| && log[i].Touches(slot)
  {
    if log == [] {
    } else {
      AccessorsMeaning(log[..|log| - 1], slot);
    }
  }

  lemma {:induction false} LastWriterMeaning(log: seq<Access>, slot: Slot)
    ensures match LastWriter(log, slot)
            case Some(w) =>
              && w < |log| && log[w].Writes(slot)
              && forall j :: w < j < |log| ==> !log[j].Writes(slot)
            case None => forall j :: 0 <= j < |log| ==> !log[j].Writes(slot)
  {
    if log == [] {
    } else {
      LastWriterMeaning(log[..|log| - 1], slot);
    }
  }

  /** What the index can report: any accessor against a write, only the last writer against a read. */
  ghost predicate Reports(log: seq<Access>, op: Access, slot: Slot, i: nat) {
    && i < |log| && log[i].sender != op.sender
    && op.Touches(slot)
    && (if op.Writes(slot) then log[i].Touches(slot) else LastWriter(log, slot) == Some(i))
  }

  ghost predicate IsReported(log: seq<Access>, op: Access, i: nat) {
    exists slot :: Reports(log, op, slot, i)
  }

  ghost function Reported(log: seq<Access>, op: Access): set<nat> {
    set i: nat | i < |log| && IsReported(log, op, i)
  }

  lemma IndexSnoc(log: seq<Access>, op: Access, slot: Slot)
    ensures Accessors(log + [op], slot)
         == Accessors(log, slot) + if op.Touches(slot) then [|log|] else []
    ensures LastWriter(log + [op], slot)
         == if op.Writes(slot) then Some(|log|) else LastWriter(log, slot)
  {
    assert (log + [op])[..|log|] == log;
  }

  function At(accessed: map<Slot, seq<nat>>, slot: Slot): seq<nat> {
    if slot in accessed then accessed[slot] else []
  }

  function Writer(written: map<Slot, nat>, slot: Slot): Option<nat> {
    if slot in written then Some(written[slot]) else None
  }

  ghost predicate AccessedOk(accessed: map<Slot, seq<nat>>, slot: Slot, log: seq<Access>) {
    At(accessed, slot) == Accessors(log, slot)
  }

  ghost predicate WrittenOk(written: map<Slot, nat>, slot: Slot, log: seq<Access>) {
    Writer(written, slot) == LastWriter(log, slot)
  }

  class ConflictDetector {
    var accessed: map<Slot, seq<nat>>
    var written: map<Slot, nat>
    var senders: seq<Address>
    /** Every operation added since the last reset. */
    ghost var log: seq<Access>

    ghost predicate Valid()
      reads this
    {
      && |senders| == |log|
      && (forall i :: 0 <= i < |log| ==> senders[i] == log[i].sender)
      && (forall slot :: AccessedOk(accessed, slot, log))
      && (forall slot :: WrittenOk(written, slot, log))
    }

    constructor ()
      ensures Valid() && log == []
    {
      accessed, written, senders, log := map[], map[], [], [];
    }

    method CheckConflicts(sender: Address, access: StorageAccess) returns (conflicts: set<nat>)
      requires Valid()
      ensures conflicts == Reported(log, Access(sender, access.slots))
    {
      ghost var op := Access(sender, access.slots);
      conflicts := {};
      var todo := access.slots.Keys;
      while todo != {}
        invariant todo <= access.slots.Keys
        invariant forall i: nat :: i in conflicts <==>
                    i < |log| && exists slot :: slot !in todo && Reports(log, op, slot, i)
        decreases todo
      {
        var slot :| slot in todo;
        ghost var before := conflicts;
        assert AccessedOk(accessed, slot, log) && WrittenOk(written, slot, log);
        AccessorsMeaning(log, slot);
        LastWriterMeaning(log, slot);
        match access.slots[slot] {
          case Write =>
            if slot in accessed {
              var indices := accessed[slot];
              assert forall j :: 0 <= j < |indices| ==> indices[j] in indices;
              for j := 0 to |indices|
                invariant forall i: nat :: i in conflicts <==>
                            i in before || (i < |log| && i in indices[..j] && senders[i] != sender)
              {
                if senders[indices[j]] != sender {
                  conflicts := conflicts + {indices[j]};
                }
              }
              assert indices[..|indices|] == indices;
            }
          case Read =>
            if slot in written && senders[written[slot]] != sender {
              conflicts := conflicts + {written[slot]};
            }
        }
        assert forall i: nat :: i in conflicts <==> i in before || Reports(log, op, slot, i);
        todo := todo - {slot};
      }
    }

    method AddOperation(sender: Address, access: StorageAccess) returns (idx: nat)
      requires Valid()
      modifies this
      ensures Valid()
      ensures idx == |old(log)|
      ensures log == old(log) + [Access(sender, access.slots)]
    {
      hide Accessors, LastWriter;
      idx := |senders|;
      senders := senders + [sender];
      IndexSlots(idx, access.slots);
      log := log + [Access(sender, access.slots)];
      forall slot
        ensures AccessedOk(accessed, slot, log) && WrittenOk(written, slot, log)
      {
        assert AccessedOk(old(accessed), slot, old(log)) && WrittenOk(old(written), slot, old(log));
        IndexSnoc(old(log), Access(sender, access.slots), slot);
      }
    }

    /** The loop of `add_operation`: enter position `idx` under every slot of the footprint. */
    method IndexSlots(idx: nat, slots: Footprint)
      modifies `accessed, `written
      ensures forall slot :: At(accessed, slot)
                == At(old(accessed), slot) + if slot in slots then [idx] else []
      ensures forall slot :: Writer(written, slot)
                == if slot in slots && slots[slot].Write? then Some(idx) else Writer(old(written), slot)
    {
      var todo := slots.Keys;
      while todo != {}
        invariant todo <= slots.Keys
        invariant forall slot :: At(accessed, slot)
                    == At(old(accessed), slot) + if slot in slots && slot !in todo then [idx] else []
        invariant forall slot :: Writer(written, slot)
                    == if slot in slots && slots[slot].Write? && slot !in todo
                       then Some(idx) else Writer(old(written), slot)
        decreases todo
      {
        var slot :| slot in todo;
        accessed := accessed[slot := At(accessed, slot) + [idx]];
        if slots[slot].Write? {
          written := written[slot := idx];
        }
        todo := todo - {slot};
      }
    }

    method Reset()
      modifies this
      ensures Valid() && log == []
    {
      accessed, written, senders, log := map[], map[], [], [];
    }
  }

  /** The new operation writes a slot that operation `i` recorded, or recorded one that `i` was the last to write. */
  ghost predicate MeetsAt(log: seq<Access>, op: Access, i: nat, slot: Slot) {
    && i < |log| && slot in op.slots && slot in log[i].slots
    && (|| op.slots[slot] == Write
        || (&& log[i].slots[slot] == Write
            && forall j :: i < j < |log| && slot in log[j].slots ==> log[j].slots[slot] == Read))
  }

  /** Exactly the earlier operations of other senders that meet the new one at some slot are reported. */
  lemma ReportedMeaning(log: seq<Access>, op: Access, i: nat)
    ensures i in Reported(log, op) <==>
              i < |log| && log[i].sender != op.sender && exists slot :: MeetsAt(log, op, i, slot)
  {
    if i in Reported(log, op) {
      var slot :| Reports(log, op, slot, i);
      LastWriterMeaning(log, slot);
      assert MeetsAt(log, op, i, slot);
    }
    if i < |log| && log[i].sender != op.sender && exists slot :: MeetsAt(log, op, i, slot) {
      var slot :| MeetsAt(log, op, i, slot);
      LastWriterMeaning(log, slot);
      assert Reports(log, op, slot, i);
    }
  }

  /** Slots shared by two operations of different senders are only read. */
  ghost predicate SharesOnlyReads(a: Access, b: Access) {
    a.sender != b.sender ==>
      forall slot: Slot :: slot in a.slots && slot in b.slots ==> a.slots[slot] == Read && b.slots[slot] == Read
  }

  lemma ConflictsMeaning(a: Access, b: Access)
    ensures Conflicts(a, b) <==> !SharesOnlyReads(a, b)
  {
    if !SharesOnlyReads(a, b) {
      var slot: Slot :| slot in a.slots && slot in b.slots && !(a.slots[slot] == Read && b.slots[slot] == Read);
      assert a.Touches(slot);
    }
  }

  /** Admitted are exactly the sequences in which operations of different senders share slots only for reading. */
  lemma AdmittedMeaning(log: seq<Access>)
    ensures Admitted(log) <==> forall i, j :: 0 <= i < j < |log| ==> SharesOnlyReads(log[i], log[j])
  {
    hide Admitted, Conflicts, SharesOnlyReads;
    AdmittedIffConflictFree(log);
    forall i, j | 0 <= i < j < |log|
      ensures Conflicts(log[i], log[j]) <==> !SharesOnlyReads(log[i], log[j])
    {
      ConflictsMeaning(log[i], log[j]);
    }
  }

  // ---------------------------------------------------------------- refinement

  /** In every state, nothing is reported that is not a real pairwise conflict. */
  lemma ReportedAreConflicts(log: seq<Access>, op: Access)
    ensures Reported(log, op) <= NaiveConflicts(log, op)
  {
    forall i | i in Reported(log, op)
      ensures i in NaiveConflicts(log, op)
    {
      var slot :| Reports(log, op, slot, i);
      LastWriterMeaning(log, slot);
    }
  }

  /** All writers of a slot belong to one sender. */
  ghost predicate SingleWriter(log: seq<Access>) {
    forall slot, i, j ::
      && 0 <= i < |log| && 0 <= j < |log| && log[i].Writes(slot) && log[j].Writes(slot)
      ==> log[i].sender == log[j].sender
  }

  /** All accessors of a written slot belong to one sender. */
  ghost predicate SingleSender(log: seq<Access>) {
    forall slot, i, j ::
      && 0 <= i < |log| && 0 <= j < |log| && log[i].Touches(slot) && log[j].Writes(slot)
      ==> log[i].sender == log[j].sender
  }

  lemma SingleWriterReports(log: seq<Access>, op: Access, i: nat)
    requires SingleWriter(log) && i in NaiveConflicts(log, op)
    ensures Reported(log, op) != {}
  {
    var slot :| log[i].Touches(slot) && op.Touches(slot) && (log[i].Writes(slot) || op.Writes(slot));
    LastWriterMeaning(log, slot);
    var j := if op.Writes(slot) then i else LastWriter(log, slot).value;
    assert Reports(log, op, slot, j);
    assert j in Reported(log, op);
  }

  /** A second writer hides a foreign first writer from a read by the second writer's sender. */
  lemma HiddenWriter(log: seq<Access>, slot: Slot, i: nat, w: nat) returns (op: Access)
    requires i < |log| && log[i].Writes(slot) && LastWriter(log, slot) == Some(w)
    requires w < |log| && log[i].sender != log[w].sender
    ensures Reported(log, op) == {} && i in NaiveConflicts(log, op)
  {
    op := Access(log[w].sender, map[slot := Read]);
    assert forall s :: op.Touches(s) ==> s == slot;
    assert Conflicts(log[i], op);
  }

  /**
   * Emptiness of the report agrees with emptiness of the pairwise relation for every query
   * exactly in the states whose written slots each have one writing sender.
   */
  lemma ReportExactIffSingleWriter(log: seq<Access>)
    ensures (forall op :: Reported(log, op) == {} <==> NaiveConflicts(log, op) == {}) <==> SingleWriter(log)
  {
    if SingleWriter(log) {
      forall op
        ensures Reported(log, op) == {} <==> NaiveConflicts(log, op) == {}
      {
        ReportedAreConflicts(log, op);
        if i :| i in NaiveConflicts(log, op) {
          SingleWriterReports(log, op, i);
        }
      }
    } else {
      var slot, i, j :| && 0 <= i < |log| && 0 <= j < |log| && log[i].Writes(slot) && log[j].Writes(slot)
                        && log[i].sender != log[j].sender;
      LastWriterMeaning(log, slot);
      var w := LastWriter(log, slot).value;
      var op := HiddenWriter(log, slot, if log[i].sender != log[w].sender then i else j, w);
      assert Reported(log, op) == {} && NaiveConflicts(log, op) != {};
    }
  }

  // ---------------------------------------------------------------- admitted logs

  /** Logs built by adding an operation only when the report for it is empty. */
  ghost predicate Admitted(log: seq<Access>) {
    log != [] ==>
      var n := |log| - 1;
      Admitted(log[..n]) && Reported(log[..n], log[n]) == {}
  }

  ghost predicate ConflictFree(log: seq<Access>) {
    forall i, j :: 0 <= i < j < |log| ==> !Conflicts(log[i], log[j])
  }

  lemma ConflictFreeIsSingleSender(log: seq<Access>)
    requires ConflictFree(log)
    ensures SingleSender(log) && SingleWriter(log)
  {
    forall slot, i, j |
      0 <= i < |log| && 0 <= j < |log| && log[i].Touches(slot) && log[j].Writes(slot)
      ensures log[i].sender == log[j].sender
    {
      if i < j {
        assert !Conflicts(log[i], log[j]);
      } else if j < i {
        assert !Conflicts(log[j], log[i]);
      }
    }
  }

  /**
   * The greedy use of the index admits exactly the pairwise conflict-free sequences: keeping only
   * the last writer loses nothing, because a written slot never has accessors from two senders.
   */
  lemma {:induction false} AdmittedIffConflictFree(log: seq<Access>)
    ensures Admitted(log) <==> ConflictFree(log)
    ensures Admitted(log) ==> SingleSender(log)
  {
    if log == [] {
    } else {
      var n := |log| - 1;
      var front := log[..n];
      AdmittedIffConflictFree(front);
      if ConflictFree(front) {
        ConflictFreeIsSingleSender(front);
        ReportExactIffSingleWriter(front);
        assert Reported(front, log[n]) == {} <==> NaiveConflicts(front, log[n]) == {};
        assert NaiveConflicts(front, log[n]) == {} <==>
               forall i :: 0 <= i < n ==> !Conflicts(log[i], log[n]) by {
          if NaiveConflicts(front, log[n]) == {} {
            forall i | 0 <= i < n
              ensures !Conflicts(log[i], log[n])
            {
              assert i !in NaiveConflicts(front, log[n]);
              assert front[i] == log[i];
            }
          }
        }
      } else {
        var i, j :| 0 <= i < j < n && Conflicts(front[i], front[j]);
        assert Conflicts(log[i], log[j]);
      }
      if ConflictFree(log) {
        ConflictFreeIsSingleSender(log);
      }
    }
  }
}
