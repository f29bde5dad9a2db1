/**
 * Counted `Ref` objects, the pointers that hold them, and the table cells they own, as a state machine
 * whose steps are the accesses that other threads can see: one atomic change of a count, one deletion.
 * A pointer that is in the middle of an operation belongs to the thread performing it.
 */
module RefOwnership {
  import opened Wrappers
  import opened RefTable

  type ObjectId = nat
  type SlotId = nat

  /** Which pointer alone knows of an object whose count is zero: none, its maker, or its ender. */
  datatype Alone = Nobody | Maker(slot: SlotId) | Ender(slot: SlotId)

  /** A live `Ref`: its count, the reference it owns, the value it was made from; `alone` is history. */
  datatype Object = Object(count: int, ref: nat, value: JsValue, alone: Alone)

  /** What a pointer is in the middle of. */
  datatype Phase =
    | Settled
    | Retaining(source: Option<SlotId>)
    | Deleting(dies: bool)
    | Clearing(dies: bool)

  /** A pointer variable: the object it points to, and its phase. */
  datatype Slot = Slot(ptr: Option<ObjectId>, phase: Phase)

  /**
   * `owner`, `zeros` and `deleted` are histories: which object a reference was made for, the releases
   * that saw zero, and the deletions.
   */
  datatype State = State(
    table: Table,
    objects: map<ObjectId, Object>,
    slots: map<SlotId, Slot>,
    nextObject: ObjectId,
    owner: map<nat, ObjectId>,
    zeros: seq<ObjectId>,
    deleted: seq<ObjectId>)

  const START := State(NEW, map[], map[], 0, map[], [], [])

  datatype Label =
    | MakeNull(dst: SlotId)
    | Make(dst: SlotId, value: JsValue)
    | Copy(dst: SlotId, src: SlotId)
    | Retain(dst: SlotId)
    | Move(dst: SlotId, src: SlotId)
    | Swap(a: SlotId, b: SlotId)
    | Drop(slot: SlotId, dies: bool)
    | Delete(slot: SlotId)
    | Clear(slot: SlotId)

  /** Some thread is copying from this pointer. */
  ghost predicate Borrowed(s: State, slot: SlotId) {
    exists d <- s.slots :: s.slots[d].phase == Retaining(Some(slot))
  }

  /** A pointer that no thread is working on. */
  predicate Resting(s: State, slot: SlotId) {
    slot in s.slots && s.slots[slot].phase == Settled
  }

  /** A pointer that may be written: nobody works on it or copies from it. */
  ghost predicate Writable(s: State, slot: SlotId) {
    Resting(s, slot) && !Borrowed(s, slot)
  }

  /** What C++ asks of unsynchronized callers, and the order of the steps within one operation. */
  ghost predicate Enabled(s: State, l: Label) {
    match l
    case MakeNull(dst) => dst !in s.slots
    case Make(dst, value) => dst !in s.slots
    case Copy(dst, src) => dst !in s.slots && Resting(s, src)
    case Retain(dst) => dst in s.slots && s.slots[dst].phase.Retaining?
    case Move(dst, src) => dst !in s.slots && Writable(s, src)
    case Swap(a, b) => Writable(s, a) && Writable(s, b)
    case Drop(slot, _) => Writable(s, slot)
    case Delete(slot) => slot in s.slots && s.slots[slot].phase.Deleting?
    case Clear(slot) => slot in s.slots && s.slots[slot].phase.Clearing?
  }

  predicate PointsToLive(s: State, slot: SlotId)
    requires slot in s.slots
  {
    s.slots[slot].ptr.Some? && s.slots[slot].ptr.value in s.objects
  }

  /** The step touches no deleted object and gives back only a live reference. */
  ghost predicate Defined(s: State, l: Label)
    requires Enabled(s, l)
  {
    match l
    case Make(_, _) => 0 <= NewId(s.table.cells)
    case Retain(dst) => PointsToLive(s, dst)
    case Drop(slot, _) => s.slots[slot].ptr.None? || PointsToLive(s, slot)
    case Delete(slot) => PointsToLive(s, slot) && Allowed(s.table, Unref(s.objects[s.slots[slot].ptr.value].ref))
    case _ => true
  }

  ghost function Next(s: State, l: Label): State
    requires Enabled(s, l) && Defined(s, l)
  {
    match l
    case MakeNull(dst) => s.(slots := s.slots[dst := Slot(None, Settled)])
    case Make(dst, value) => MakeRef(s, dst, value)
    case Copy(dst, src) =>
      var ptr := s.slots[src].ptr;
      s.(slots := s.slots[dst := Slot(ptr, if ptr.Some? then Retaining(Some(src)) else Settled)])
    case Retain(dst) =>
      var o := s.slots[dst].ptr.value;
      s.(objects := s.objects[o := s.objects[o].(count := s.objects[o].count + 1, alone := Nobody)],
         slots := s.slots[dst := s.slots[dst].(phase := Settled)])
    case Move(dst, src) =>
      s.(slots := s.slots[dst := s.slots[src]][src := Slot(None, Settled)])
    case Swap(a, b) =>
      s.(slots := s.slots[a := s.slots[b]][b := s.slots[a]])
    case Drop(slot, dies) =>
      if s.slots[slot].ptr.None? then s.(slots := s.slots[slot := Slot(None, Clearing(dies))])
      else if s.objects[s.slots[slot].ptr.value].count == 1 then DropLast(s, slot, dies)
      else DropOne(s, slot, dies)
    case Delete(slot) => DeleteObject(s, slot)
    case Clear(slot) =>
      s.(slots := if s.slots[slot].phase.dies then s.slots - {slot} else s.slots[slot := Slot(None, Settled)])
  }

  /** `new Ref(ctx)` takes the value into the table; the pointer is set but the object not yet retained. */
  function MakeRef(s: State, dst: SlotId, value: JsValue): State
    requires 0 <= NewId(s.table.cells)
  {
    var ref, o := RefId(s.table, value) as nat, s.nextObject;
    s.(table := Apply(s.table, Ref(value)),
       objects := s.objects[o := Object(0, ref, value, Maker(dst))],
       slots := s.slots[dst := Slot(Some(o), Retaining(None))],
       owner := if ref == 0 then s.owner else s.owner[ref := o],
       nextObject := o + 1)
  }

  /** `fetch_sub` that leaves something. */
  function DropOne(s: State, slot: SlotId, dies: bool): State
    requires slot in s.slots && PointsToLive(s, slot)
  {
    var o := s.slots[slot].ptr.value;
    s.(objects := s.objects[o := s.objects[o].(count := s.objects[o].count - 1)],
       slots := s.slots[slot := Slot(Some(o), Clearing(dies))])
  }

  /** `fetch_sub` that leaves nothing: this thread is the one to delete the object. */
  function DropLast(s: State, slot: SlotId, dies: bool): State
    requires slot in s.slots && PointsToLive(s, slot)
  {
    var o := s.slots[slot].ptr.value;
    s.(objects := s.objects[o := s.objects[o].(count := s.objects[o].count - 1, alone := Ender(slot))],
       slots := s.slots[slot := Slot(Some(o), Deleting(dies))],
       zeros := s.zeros + [o])
  }

  /** `delete this`: the destructor of `Ref` gives its reference back. */
  function DeleteObject(s: State, slot: SlotId): State
    requires slot in s.slots && PointsToLive(s, slot) && s.slots[slot].phase.Deleting?
  {
    var o := s.slots[slot].ptr.value;
    var ref := s.objects[o].ref;
    s.(table := Apply(s.table, Unref(ref)),
       objects := s.objects - {o},
       slots := s.slots[slot := Slot(Some(o), Clearing(s.slots[slot].phase.dies))],
       owner := s.owner - {ref},
       deleted := s.deleted + [o])
  }

  // ---------- the invariant ----------

  type Objects = map<ObjectId, Object>
  type Slots = map<SlotId, Slot>

  /** The pointers that hold `o` and have been counted. */
  function Holders(slots: Slots, o: ObjectId): set<SlotId> {
    set d | d in slots && slots[d] == Slot(Some(o), Settled)
  }

  /** Every count is the number of counted pointers. */
  ghost predicate Exact(objects: Objects, slots: Slots) {
    forall o <- objects :: objects[o].count == |Holders(slots, o)|
  }

  /** A pointer that is not about to be cleared points to a live object, and a source outlasts its copying. */
  ghost predicate SlotOk(objects: Objects, slots: Slots, d: SlotId)
    requires d in slots
  {
    var x := slots[d];
    match x.phase
    case Settled => x.ptr.Some? ==> x.ptr.value in objects
    case Retaining(None) => x.ptr.Some? && x.ptr.value in objects && objects[x.ptr.value].alone == Maker(d)
    case Retaining(Some(src)) =>
      x.ptr.Some? && x.ptr.value in objects && src in slots && slots[src] == Slot(x.ptr, Settled)
    case Deleting(_) => x.ptr.Some? && x.ptr.value in objects && objects[x.ptr.value].alone == Ender(d)
    case Clearing(_) => true
  }

  ghost predicate Pointing(objects: Objects, slots: Slots) {
    forall d <- slots :: SlotOk(objects, slots, d)
  }

  /** A count is zero exactly while one pointer makes or ends the object. */
  ghost predicate AloneOk(objects: Objects, slots: Slots, o: ObjectId)
    requires o in objects
  {
    match objects[o].alone
    case Nobody => objects[o].count >= 1
    case Maker(d) => objects[o].count == 0 && d in slots && slots[d] == Slot(Some(o), Retaining(None))
    case Ender(d) => objects[o].count == 0 && d in slots && slots[d].ptr == Some(o) && slots[d].phase.Deleting?
  }

  ghost predicate ZeroMeansAlone(objects: Objects, slots: Slots) {
    forall o <- objects :: AloneOk(objects, slots, o)
  }

  /** The live references are the non-zero references of the live objects, each with its value. */
  ghost predicate Owns(live: map<nat, JsValue>, objects: Objects, owner: map<nat, ObjectId>) {
    && owner.Keys == live.Keys
    && (forall r <- owner :: r != 0 && owner[r] in objects && objects[owner[r]].ref == r)
    && (forall o <- objects ::
          var x := objects[o];
          if x.ref == 0 then x.value == Undefined
          else x.ref in owner && owner[x.ref] == o && live[x.ref] == x.value)
  }

  ghost predicate Owning(table: Table, objects: Objects, owner: map<nat, ObjectId>) {
    Sane(table) && Owns(table.live, objects, owner)
  }

  predicate Ending(objects: Objects, o: ObjectId) {
    o in objects && objects[o].alone.Ender?
  }

  /**
   * Every object ever made is live or deleted; one release sees zero for every object that is deleted or about
   * to be, and no other does.
   */
  ghost predicate OneZero(objects: Objects, next: ObjectId, zeros: seq<ObjectId>, deleted: seq<ObjectId>) {
    && (forall o <- objects :: o < next && o !in deleted)
    && (forall o <- deleted :: o < next)
    && (forall o: ObjectId :: o < next ==> o in objects || o in deleted)
    && (forall o: ObjectId :: multiset(deleted)[o] <= 1)
    && (forall o: ObjectId :: multiset(zeros)[o] == multiset(deleted)[o] + if Ending(objects, o) then 1 else 0)
  }

  ghost predicate Inv(s: State) {
    && Exact(s.objects, s.slots)
    && Pointing(s.objects, s.slots)
    && ZeroMeansAlone(s.objects, s.slots)
    && Owning(s.table, s.objects, s.owner)
    && OneZero(s.objects, s.nextObject, s.zeros, s.deleted)
  }

  // ---------- every enabled step is defined ----------

  lemma EnabledIsDefined(s: State, l: Label)
    requires Inv(s) && Enabled(s, l)
    ensures Defined(s, l)
  {
    match l
    case Make(_, value) => ApplyIsSane(s.table, Ref(value));
    case Retain(dst) => assert SlotOk(s.objects, s.slots, dst);
    case Drop(slot, _) => assert SlotOk(s.objects, s.slots, slot);
    case Delete(slot) => assert SlotOk(s.objects, s.slots, slot);
    case _ =>
  }

  // ---------- one pointer changes ----------

  function Counts(x: Slot, o: ObjectId): int {
    if x == Slot(Some(o), Settled) then 1 else 0
  }

  function CountsAt(slots: Slots, d: SlotId, o: ObjectId): int {
    if d in slots then Counts(slots[d], o) else 0
  }

  lemma SizeWithout(a: set<SlotId>, d: SlotId)
    ensures |a| == |a - {d}| + if d in a then 1 else 0
  {
    if d in a { assert a == (a - {d}) + {d}; } else { assert a == a - {d}; }
  }

  lemma OtherHoldersStay(slots: Slots, d: SlotId, x: Slot, o: ObjectId)
    ensures Holders(slots[d := x], o) - {d} == Holders(slots, o) - {d}
    ensures d in Holders(slots[d := x], o) <==> Counts(x, o) == 1
    ensures d in Holders(slots, o) <==> CountsAt(slots, d, o) == 1
  {
    forall e | e != d ensures e in Holders(slots[d := x], o) <==> e in Holders(slots, o) {}
  }

  lemma HoldersAfter(slots: Slots, d: SlotId, x: Slot, o: ObjectId)
    ensures |Holders(slots[d := x], o)| == |Holders(slots, o)| + Counts(x, o) - CountsAt(slots, d, o)
  {
    OtherHoldersStay(slots, d, x, o);
    SizeWithout(Holders(slots, o), d);
    SizeWithout(Holders(slots[d := x], o), d);
  }

  lemma HolderCounts(objects: Objects, slots: Slots, d: SlotId, o: ObjectId)
    requires Exact(objects, slots) && o in objects && d in slots && slots[d] == Slot(Some(o), Settled)
    ensures objects[o].count >= 1
  {
    assert d in Holders(slots, o);
  }

  /** Counts that move with the pointer stay exact. */
  lemma ExactAfter(objects: Objects, slots: Slots, after: Objects, d: SlotId, x: Slot)
    requires Exact(objects, slots)
    requires forall o <- after ::
      o in objects && after[o].count == objects[o].count + Counts(x, o) - CountsAt(slots, d, o)
    ensures Exact(after, slots[d := x])
  {
    forall o <- after ensures after[o].count == |Holders(slots[d := x], o)| { HoldersAfter(slots, d, x, o); }
  }

  ghost predicate Free(slots: Slots, d: SlotId) {
    forall e <- slots :: slots[e].phase != Retaining(Some(d))
  }

  /** A change of one pointer that is nobody's source leaves the other pointers in order. */
  lemma PointingAfter(objects: Objects, slots: Slots, after: Objects, d: SlotId, x: Slot)
    requires Pointing(objects, slots) && Free(slots, d)
    requires forall o <- objects ::
      o in after && (objects[o].alone in {Nobody, Maker(d), Ender(d)} || after[o].alone == objects[o].alone)
    requires SlotOk(after, slots[d := x], d)
    ensures Pointing(after, slots[d := x])
  {
    var there := slots[d := x];
    forall e <- there ensures SlotOk(after, there, e) {
      if e != d { assert SlotOk(objects, slots, e); }
    }
  }

  lemma AloneAfter(objects: Objects, slots: Slots, after: Objects, d: SlotId, x: Slot)
    requires ZeroMeansAlone(objects, slots)
    requires forall o <- after ::
      (o in objects && after[o] == objects[o] && objects[o].alone !in {Maker(d), Ender(d)}) ||
      AloneOk(after, slots[d := x], o)
    ensures ZeroMeansAlone(after, slots[d := x])
  {
    forall o <- after ensures AloneOk(after, slots[d := x], o) {
      assert o in objects ==> AloneOk(objects, slots, o);
    }
  }

  /** A settled pointer is nobody's maker or ender. */
  lemma SettledIsNotAlone(objects: Objects, slots: Slots, d: SlotId)
    requires ZeroMeansAlone(objects, slots)
    requires d in slots ==>
      || slots[d].phase.Settled? || slots[d].phase.Clearing?
      || (slots[d].phase.Retaining? && slots[d].phase.source.Some?)
    ensures forall o <- objects :: objects[o].alone !in {Maker(d), Ender(d)}
  {
    forall o <- objects ensures objects[o].alone !in {Maker(d), Ender(d)} { assert AloneOk(objects, slots, o); }
  }

  /** What concerns counts and pointers, after a change of pointers only. */
  lemma PointerStep(objects: Objects, slots: Slots, d: SlotId, x: Slot)
    requires Pointing(objects, slots) && ZeroMeansAlone(objects, slots) && Free(slots, d)
    requires d in slots ==> slots[d].phase.Settled? || slots[d].phase.Clearing?
    requires SlotOk(objects, slots[d := x], d)
    ensures Pointing(objects, slots[d := x]) && ZeroMeansAlone(objects, slots[d := x])
  {
    SettledIsNotAlone(objects, slots, d);
    PointingAfter(objects, slots, objects, d, x);
    AloneAfter(objects, slots, objects, d, x);
  }

  /** A name that is not in use is nobody's source. */
  lemma NewIsFree(objects: Objects, slots: Slots, d: SlotId)
    requires Pointing(objects, slots) && d !in slots
    ensures Free(slots, d)
  {
    forall e <- slots ensures slots[e].phase != Retaining(Some(d)) { assert SlotOk(objects, slots, e); }
  }

  // ---------- every step keeps the invariant ----------

  lemma MakeNullKeeps(s: State, dst: SlotId)
    requires Inv(s) && Enabled(s, MakeNull(dst))
    ensures Inv(Next(s, MakeNull(dst)))
  {
    NewIsFree(s.objects, s.slots, dst);
    ExactAfter(s.objects, s.slots, s.objects, dst, Slot(None, Settled));
    PointerStep(s.objects, s.slots, dst, Slot(None, Settled));
  }

  lemma NewReferenceIsOwned(live: map<nat, JsValue>, objects: Objects, owner: map<nat, ObjectId>,
                            o: ObjectId, x: Object)
    requires Owns(live, objects, owner) && o !in objects && x.ref != 0 && x.ref !in live
    ensures Owns(live[x.ref := x.value], objects[o := x], owner[x.ref := o])
  {}

  lemma MakeKeepsTable(s: State, dst: SlotId, value: JsValue)
    requires Owning(s.table, s.objects, s.owner) && 0 <= NewId(s.table.cells) && s.nextObject !in s.objects
    ensures var r := MakeRef(s, dst, value); Owning(r.table, r.objects, r.owner)
  {
    ApplyIsSane(s.table, Ref(value));
    var x := MakeRef(s, dst, value).objects[s.nextObject];
    if value != Undefined { NewReferenceIsOwned(s.table.live, s.objects, s.owner, s.nextObject, x); }
  }

  lemma MakeKeepsZeros(objects: Objects, o: ObjectId, x: Object, zeros: seq<ObjectId>, deleted: seq<ObjectId>)
    requires OneZero(objects, o, zeros, deleted) && !x.alone.Ender?
    ensures OneZero(objects[o := x], o + 1, zeros, deleted)
  {
    assert o !in objects && o !in deleted;
    assert forall p: ObjectId :: Ending(objects[o := x], p) <==> Ending(objects, p);
  }

  lemma ZerosSame(objects: Objects, after: Objects, next: ObjectId, zeros: seq<ObjectId>, deleted: seq<ObjectId>)
    requires OneZero(objects, next, zeros, deleted) && after.Keys == objects.Keys
    requires forall o: ObjectId :: Ending(after, o) <==> Ending(objects, o)
    ensures OneZero(after, next, zeros, deleted)
  {}

  lemma MakeKeeps(s: State, dst: SlotId, value: JsValue)
    requires Inv(s) && Enabled(s, Make(dst, value)) && Defined(s, Make(dst, value))
    ensures Inv(Next(s, Make(dst, value)))
  {
    var r, o := MakeRef(s, dst, value), s.nextObject;
    MakeKeepsTable(s, dst, value);
    MakeKeepsZeros(s.objects, o, r.objects[o], s.zeros, s.deleted);
    MakeKeepsPointers(s.objects, s.slots, o, dst, r.objects[o]);
  }

  lemma MakeKeepsPointers(objects: Objects, slots: Slots, o: ObjectId, dst: SlotId, x: Object)
    requires Exact(objects, slots) && Pointing(objects, slots) && ZeroMeansAlone(objects, slots)
    requires o !in objects && dst !in slots && x.count == 0 && x.alone == Maker(dst)
    ensures var after, there := objects[o := x], slots[dst := Slot(Some(o), Retaining(None))];
            Exact(after, there) && Pointing(after, there) && ZeroMeansAlone(after, there)
  {
    var after, there := objects[o := x], slots[dst := Slot(Some(o), Retaining(None))];
    NewIsFree(objects, slots, dst);
    SettledIsNotAlone(objects, slots, dst);
    ExactAfter(objects, slots, objects, dst, there[dst]);
    assert Holders(there, o) == {} by {
      forall d <- slots ensures slots[d] != Slot(Some(o), Settled) { assert SlotOk(objects, slots, d); }
    }
    assert Exact(after, there);
    PointingAfter(objects, slots, after, dst, there[dst]);
    AloneAfter(objects, slots, after, dst, there[dst]);
  }

  lemma CopyKeeps(s: State, dst: SlotId, src: SlotId)
    requires Inv(s) && Enabled(s, Copy(dst, src))
    ensures Inv(Next(s, Copy(dst, src)))
  {
    var x := Next(s, Copy(dst, src)).slots[dst];
    assert SlotOk(s.objects, s.slots, src);
    NewIsFree(s.objects, s.slots, dst);
    ExactAfter(s.objects, s.slots, s.objects, dst, x);
    PointerStep(s.objects, s.slots, dst, x);
  }

  lemma RetainKeeps(s: State, dst: SlotId)
    requires Inv(s) && Enabled(s, Retain(dst)) && Defined(s, Retain(dst))
    ensures Inv(Next(s, Retain(dst)))
  {
    var o := s.slots[dst].ptr.value;
    RetainKeepsPointers(s.objects, s.slots, dst, o);
    var after := Next(s, Retain(dst)).objects;
    assert forall p: ObjectId :: Ending(after, p) <==> Ending(s.objects, p);
    ZerosSame(s.objects, after, s.nextObject, s.zeros, s.deleted);
    CountKeepsTable(s.table.live, s.objects, s.owner, o, after[o]);
  }

  lemma CountKeepsTable(live: map<nat, JsValue>, objects: Objects, owner: map<nat, ObjectId>, o: ObjectId, x: Object)
    requires Owns(live, objects, owner) && o in objects && x.ref == objects[o].ref && x.value == objects[o].value
    ensures Owns(live, objects[o := x], owner)
  {}

  lemma RetainKeepsPointers(objects: Objects, slots: Slots, dst: SlotId, o: ObjectId)
    requires Exact(objects, slots) && Pointing(objects, slots) && ZeroMeansAlone(objects, slots)
    requires dst in slots && slots[dst].phase.Retaining? && slots[dst].ptr == Some(o) && o in objects
    ensures var after, there := objects[o := objects[o].(count := objects[o].count + 1, alone := Nobody)],
                                slots[dst := Slot(Some(o), Settled)];
            Exact(after, there) && Pointing(after, there) && ZeroMeansAlone(after, there)
    ensures !Ending(objects, o)
  {
    var after := objects[o := objects[o].(count := objects[o].count + 1, alone := Nobody)];
    var x := Slot(Some(o), Settled);
    assert SlotOk(objects, slots, dst) && AloneOk(objects, slots, o);
    if slots[dst].phase.source.Some? { HolderCounts(objects, slots, slots[dst].phase.source.value, o); }
    forall e <- slots ensures slots[e].phase != Retaining(Some(dst)) { assert SlotOk(objects, slots, e); }
    forall p <- objects | p != o ensures objects[p].alone !in {Maker(dst), Ender(dst)} {
      assert AloneOk(objects, slots, p);
    }
    ExactAfter(objects, slots, after, dst, x);
    PointingAfter(objects, slots, after, dst, x);
    AloneAfter(objects, slots, after, dst, x);
  }

  lemma MoveKeeps(s: State, dst: SlotId, src: SlotId)
    requires Inv(s) && Enabled(s, Move(dst, src))
    ensures Inv(Next(s, Move(dst, src)))
  {
    var x, mid := s.slots[src], s.slots[dst := s.slots[src]];
    assert SlotOk(s.objects, s.slots, src);
    NewIsFree(s.objects, s.slots, dst);
    PointerStep(s.objects, s.slots, dst, x);
    PointerStep(s.objects, mid, src, Slot(None, Settled));
    forall o <- s.objects ensures s.objects[o].count == |Holders(mid[src := Slot(None, Settled)], o)| {
      HoldersAfter(s.slots, dst, x, o);
      HoldersAfter(mid, src, Slot(None, Settled), o);
    }
  }

  lemma SwapKeeps(s: State, a: SlotId, b: SlotId)
    requires Inv(s) && Enabled(s, Swap(a, b))
    ensures Inv(Next(s, Swap(a, b)))
  {
    var mid := s.slots[a := s.slots[b]];
    assert SlotOk(s.objects, s.slots, a) && SlotOk(s.objects, s.slots, b);
    PointerStep(s.objects, s.slots, a, s.slots[b]);
    PointerStep(s.objects, mid, b, s.slots[a]);
    forall o <- s.objects ensures s.objects[o].count == |Holders(mid[b := s.slots[a]], o)| {
      HoldersAfter(s.slots, a, s.slots[b], o);
      HoldersAfter(mid, b, s.slots[a], o);
    }
  }

  /** A settled pointer gives its object up: the object changes to `x`, the pointer to `y`. */
  lemma DropKeepsPointers(objects: Objects, slots: Slots, d: SlotId, o: ObjectId, x: Object, y: Slot)
    requires Exact(objects, slots) && Pointing(objects, slots) && ZeroMeansAlone(objects, slots)
    requires d in slots && slots[d] == Slot(Some(o), Settled) && Free(slots, d) && o in objects
    requires objects[o].alone == Nobody && x.count == objects[o].count - 1 && y.ptr == Some(o)
    requires if x.count == 0 then x.alone == Ender(d) && y.phase.Deleting?
             else x.alone == Nobody && y.phase.Clearing?
    ensures var after, there := objects[o := x], slots[d := y];
            Exact(after, there) && Pointing(after, there) && ZeroMeansAlone(after, there)
  {
    HolderCounts(objects, slots, d, o);
    SettledIsNotAlone(objects, slots, d);
    ExactAfter(objects, slots, objects[o := x], d, y);
    PointingAfter(objects, slots, objects[o := x], d, y);
    AloneAfter(objects, slots, objects[o := x], d, y);
  }

  lemma SettledIsHeld(objects: Objects, slots: Slots, d: SlotId, o: ObjectId)
    requires Exact(objects, slots) && ZeroMeansAlone(objects, slots)
    requires d in slots && slots[d] == Slot(Some(o), Settled) && o in objects
    ensures objects[o].alone == Nobody && objects[o].count >= 1
  {
    HolderCounts(objects, slots, d, o);
    assert AloneOk(objects, slots, o);
  }

  lemma CountDownKeepsZeros(objects: Objects, o: ObjectId, x: Object, next: ObjectId,
                            zeros: seq<ObjectId>, deleted: seq<ObjectId>)
    requires OneZero(objects, next, zeros, deleted) && o in objects && objects[o].alone == x.alone == Nobody
    ensures OneZero(objects[o := x], next, zeros, deleted)
  {
    assert forall p: ObjectId :: Ending(objects[o := x], p) <==> Ending(objects, p);
    ZerosSame(objects, objects[o := x], next, zeros, deleted);
  }

  lemma LastKeepsZeros(objects: Objects, o: ObjectId, x: Object, next: ObjectId,
                       zeros: seq<ObjectId>, deleted: seq<ObjectId>)
    requires OneZero(objects, next, zeros, deleted) && o in objects && objects[o].alone == Nobody && x.alone.Ender?
    ensures OneZero(objects[o := x], next, zeros + [o], deleted)
  {
    forall p: ObjectId ensures Ending(objects[o := x], p) <==> Ending(objects, p) || p == o {}
  }

  lemma DropLastKeeps(s: State, slot: SlotId, dies: bool)
    requires Inv(s) && Writable(s, slot) && PointsToLive(s, slot) && s.objects[s.slots[slot].ptr.value].count == 1
    ensures Inv(DropLast(s, slot, dies))
  {
    var o := s.slots[slot].ptr.value;
    var x := s.objects[o].(count := 0, alone := Ender(slot));
    SettledIsHeld(s.objects, s.slots, slot, o);
    DropKeepsPointers(s.objects, s.slots, slot, o, x, Slot(Some(o), Deleting(dies)));
    LastKeepsZeros(s.objects, o, x, s.nextObject, s.zeros, s.deleted);
    CountKeepsTable(s.table.live, s.objects, s.owner, o, x);
  }

  lemma DropOneKeeps(s: State, slot: SlotId, dies: bool)
    requires Inv(s) && Writable(s, slot) && PointsToLive(s, slot) && s.objects[s.slots[slot].ptr.value].count != 1
    ensures Inv(DropOne(s, slot, dies))
  {
    var o := s.slots[slot].ptr.value;
    var x := s.objects[o].(count := s.objects[o].count - 1);
    SettledIsHeld(s.objects, s.slots, slot, o);
    DropKeepsPointers(s.objects, s.slots, slot, o, x, Slot(Some(o), Clearing(dies)));
    CountDownKeepsZeros(s.objects, o, x, s.nextObject, s.zeros, s.deleted);
    CountKeepsTable(s.table.live, s.objects, s.owner, o, x);
  }

  lemma DropKeeps(s: State, slot: SlotId, dies: bool)
    requires Inv(s) && Enabled(s, Drop(slot, dies)) && Defined(s, Drop(slot, dies))
    ensures Inv(Next(s, Drop(slot, dies)))
  {
    if s.slots[slot].ptr.None? {
      ExactAfter(s.objects, s.slots, s.objects, slot, Slot(None, Clearing(dies)));
      PointerStep(s.objects, s.slots, slot, Slot(None, Clearing(dies)));
    } else {
      if s.objects[s.slots[slot].ptr.value].count == 1 {
        DropLastKeeps(s, slot, dies);
      } else {
        DropOneKeeps(s, slot, dies);
      }
    }
  }

  /** When an object is deleted, any other pointer that still shows it is only about to be cleared. */
  lemma NoOtherPointer(objects: Objects, slots: Slots, d: SlotId)
    requires Exact(objects, slots) && Pointing(objects, slots) && ZeroMeansAlone(objects, slots)
    requires d in slots && slots[d].phase.Deleting?
    ensures forall e <- slots :: e != d && slots[e].ptr == slots[d].ptr ==> slots[e].phase.Clearing?
  {
    assert SlotOk(objects, slots, d);
    var o := slots[d].ptr.value;
    assert AloneOk(objects, slots, o);
    forall e <- slots | e != d && slots[e].ptr == Some(o) ensures slots[e].phase.Clearing? {
      assert SlotOk(objects, slots, e);
      match slots[e].phase
      case Settled => HolderCounts(objects, slots, e, o);
      case Retaining(Some(src)) => HolderCounts(objects, slots, src, o);
      case _ =>
    }
  }

  lemma DeleteKeepsPointers(objects: Objects, slots: Slots, d: SlotId, dies: bool)
    requires Exact(objects, slots) && Pointing(objects, slots) && ZeroMeansAlone(objects, slots)
    requires d in slots && slots[d].phase.Deleting? && slots[d].ptr.Some?
    ensures var after, there := objects - {slots[d].ptr.value}, slots[d := Slot(slots[d].ptr, Clearing(dies))];
            Exact(after, there) && Pointing(after, there) && ZeroMeansAlone(after, there)
  {
    var o := slots[d].ptr.value;
    var after, x := objects - {o}, Slot(Some(o), Clearing(dies));
    NoOtherPointer(objects, slots, d);
    ExactAfter(objects, slots, after, d, x);
    var there := slots[d := x];
    forall e <- there ensures SlotOk(after, there, e) {
      if e != d { assert SlotOk(objects, slots, e); }
    }
    forall p <- after ensures AloneOk(after, slots[d := x], p) { assert AloneOk(objects, slots, p); }
  }

  lemma GoneReferenceIsFree(live: map<nat, JsValue>, objects: Objects, owner: map<nat, ObjectId>, o: ObjectId)
    requires Owns(live, objects, owner) && o in objects
    ensures objects[o].ref == 0 || objects[o].ref in live
    ensures objects[o].ref == 0 ==> Owns(live, objects - {o}, owner)
    ensures objects[o].ref != 0 ==> Owns(live - {objects[o].ref}, objects - {o}, owner - {objects[o].ref})
  {}

  lemma DeleteKeepsTable(table: Table, objects: Objects, owner: map<nat, ObjectId>, o: ObjectId)
    requires Owning(table, objects, owner) && o in objects && Allowed(table, Unref(objects[o].ref))
    ensures Owning(Apply(table, Unref(objects[o].ref)), objects - {o}, owner - {objects[o].ref})
  {
    ApplyIsSane(table, Unref(objects[o].ref));
    GoneReferenceIsFree(table.live, objects, owner, o);
    if objects[o].ref == 0 { assert owner - {0} == owner; }
  }

  lemma DeleteKeepsZeros(objects: Objects, o: ObjectId, next: ObjectId, zeros: seq<ObjectId>, deleted: seq<ObjectId>)
    requires OneZero(objects, next, zeros, deleted) && Ending(objects, o)
    ensures OneZero(objects - {o}, next, zeros, deleted + [o])
  {
    forall p: ObjectId ensures multiset(deleted + [o])[p] == multiset(deleted)[p] + if p == o then 1 else 0 {}
    forall p: ObjectId ensures Ending(objects - {o}, p) <==> Ending(objects, p) && p != o {}
  }

  lemma DeleteKeeps(s: State, slot: SlotId)
    requires Inv(s) && Enabled(s, Delete(slot)) && Defined(s, Delete(slot))
    ensures Inv(Next(s, Delete(slot)))
  {
    assert SlotOk(s.objects, s.slots, slot);
    DeleteKeepsPointers(s.objects, s.slots, slot, s.slots[slot].phase.dies);
    DeleteKeepsTable(s.table, s.objects, s.owner, s.slots[slot].ptr.value);
    DeleteKeepsZeros(s.objects, s.slots[slot].ptr.value, s.nextObject, s.zeros, s.deleted);
  }

  lemma ClearKeeps(s: State, slot: SlotId)
    requires Inv(s) && Enabled(s, Clear(slot))
    ensures Inv(Next(s, Clear(slot)))
  {
    forall e <- s.slots ensures s.slots[e].phase != Retaining(Some(slot)) { assert SlotOk(s.objects, s.slots, e); }
    if s.slots[slot].phase.dies {
      GoneKeepsPointers(s.objects, s.slots, slot);
    } else {
      ExactAfter(s.objects, s.slots, s.objects, slot, Slot(None, Settled));
      PointerStep(s.objects, s.slots, slot, Slot(None, Settled));
    }
  }

  lemma GoneKeepsPointers(objects: Objects, slots: Slots, d: SlotId)
    requires Exact(objects, slots) && Pointing(objects, slots) && ZeroMeansAlone(objects, slots)
    requires d in slots && slots[d].phase.Clearing? && Free(slots, d)
    ensures Exact(objects, slots - {d}) && Pointing(objects, slots - {d}) && ZeroMeansAlone(objects, slots - {d})
  {
    forall o <- objects ensures Holders(slots - {d}, o) == Holders(slots, o) {}
    forall e <- slots - {d} ensures SlotOk(objects, slots - {d}, e) { assert SlotOk(objects, slots, e); }
    forall o <- objects ensures AloneOk(objects, slots - {d}, o) { assert AloneOk(objects, slots, o); }
  }

  lemma StepKeeps(s: State, l: Label)
    requires Inv(s) && Enabled(s, l) && Defined(s, l)
    ensures Inv(Next(s, l))
  {
    match l
    case MakeNull(dst) => MakeNullKeeps(s, dst);
    case Make(dst, value) => MakeKeeps(s, dst, value);
    case Copy(dst, src) => CopyKeeps(s, dst, src);
    case Retain(dst) => RetainKeeps(s, dst);
    case Move(dst, src) => MoveKeeps(s, dst, src);
    case Swap(a, b) => SwapKeeps(s, a, b);
    case Drop(slot, dies) => DropKeeps(s, slot, dies);
    case Delete(slot) => DeleteKeeps(s, slot);
    case Clear(slot) => ClearKeeps(s, slot);
  }

  // ---------- runs ----------

  /** A run in which callers keep to the rules; that no rule-keeping step is undefined is proved below. */
  ghost predicate IsRun(s: State, ls: seq<Label>)
    decreases |ls|
  {
    ls == [] || (Enabled(s, ls[0]) && Defined(s, ls[0]) && IsRun(Next(s, ls[0]), ls[1..]))
  }

  ghost function After(s: State, ls: seq<Label>): State
    requires IsRun(s, ls)
    decreases |ls|
  {
    if ls == [] then s else After(Next(s, ls[0]), ls[1..])
  }

  lemma {:induction false} RunKeeps(s: State, ls: seq<Label>)
    requires Inv(s) && IsRun(s, ls)
    ensures Inv(After(s, ls))
    decreases |ls|
  {
    if ls == [] {
    } else {
      StepKeeps(s, ls[0]);
      RunKeeps(Next(s, ls[0]), ls[1..]);
    }
  }

  lemma Reachable(ls: seq<Label>)
    requires IsRun(START, ls)
    ensures Inv(After(START, ls))
  {
    NewIsSane();
    RunKeeps(START, ls);
  }

  /**
   * Callers that keep to the rules never make a step go wrong: no deleted object is touched and no
   * reference is given back that is not live, so every run can go on with every enabled step.
   */
  lemma EnabledStepsAreDefined(ls: seq<Label>, l: Label)
    requires IsRun(START, ls) && Enabled(After(START, ls), l)
    ensures Defined(After(START, ls), l)
  {
    Reachable(ls);
    EnabledIsDefined(After(START, ls), l);
  }

  lemma OwnsExactly(s: State)
    requires Owns(s.table.live, s.objects, s.owner)
    ensures s.table.live.Keys == (set o | o in s.objects && s.objects[o].ref != 0 :: s.objects[o].ref)
  {
    forall ref <- s.table.live ensures ref in (set o | o in s.objects && s.objects[o].ref != 0 :: s.objects[o].ref) {
      assert ref in s.owner && s.owner[ref] in s.objects;
    }
  }

  lemma ReadsBack(s: State, d: SlotId)
    requires Inv(s) && Resting(s, d) && s.slots[d].ptr.Some?
    ensures PointsToLive(s, d)
    ensures Read(s.table, s.objects[s.slots[d].ptr.value].ref) == s.objects[s.slots[d].ptr.value].value
  {
    assert SlotOk(s.objects, s.slots, d);
    TableStaysSane(s.table, []);
  }

  /**
   * After any interleaving of making, copying, moving, swapping and dropping pointers: every count is
   * the number of pointers that hold the object and have been counted; the live references are exactly
   * the non-zero references of the objects not yet deleted; and whoever reads through a pointer gets
   * the value the object was made from.
   */
  lemma CountsAndReferencesAreExact(ls: seq<Label>)
    requires IsRun(START, ls)
    ensures var r := After(START, ls);
      && (forall o <- r.objects :: r.objects[o].count == |Holders(r.slots, o)|)
      && r.table.live.Keys == (set o | o in r.objects && r.objects[o].ref != 0 :: r.objects[o].ref)
      && (forall d :: Resting(r, d) && r.slots[d].ptr.Some? ==>
            PointsToLive(r, d) &&
            Read(r.table, r.objects[r.slots[d].ptr.value].ref) == r.objects[r.slots[d].ptr.value].value)
  {
    Reachable(ls);
    var r := After(START, ls);
    OwnsExactly(r);
    forall d | Resting(r, d) && r.slots[d].ptr.Some?
      ensures PointsToLive(r, d)
      ensures Read(r.table, r.objects[r.slots[d].ptr.value].ref) == r.objects[r.slots[d].ptr.value].value
    {
      ReadsBack(r, d);
    }
  }

  lemma DeletesOnce(s: State, slot: SlotId)
    requires Inv(s) && Enabled(s, Delete(slot)) && Defined(s, Delete(slot))
    ensures var o, r := s.slots[slot].ptr.value, DeleteObject(s, slot);
      && multiset(s.deleted)[o] == 0 && multiset(s.zeros)[o] == 1
      && multiset(r.deleted)[o] == 1 && multiset(r.zeros)[o] == 1
      && o !in r.objects
      && forall d <- r.slots :: r.slots[d].ptr == Some(o) ==> r.slots[d].phase.Clearing?
  {
    assert SlotOk(s.objects, s.slots, slot);
    assert Ending(s.objects, s.slots[slot].ptr.value);
    NoOtherPointer(s.objects, s.slots, slot);
  }

  /**
   * For every object one release sees zero, that release alone deletes it, and after the deletion no
   * pointer shows it except those whose own release is over and which are about to be cleared.
   */
  lemma DeletedOnce(ls: seq<Label>, slot: SlotId)
    requires IsRun(START, ls) && Enabled(After(START, ls), Delete(slot))
    ensures Defined(After(START, ls), Delete(slot))
    ensures var p := After(START, ls);
            var o, r := p.slots[slot].ptr.value, Next(p, Delete(slot));
      && multiset(p.deleted)[o] == 0 && multiset(p.zeros)[o] == 1
      && multiset(r.deleted)[o] == 1 && multiset(r.zeros)[o] == 1
      && o !in r.objects
      && forall d <- r.slots :: r.slots[d].ptr == Some(o) ==> r.slots[d].phase.Clearing?
  {
    EnabledStepsAreDefined(ls, Delete(slot));
    Reachable(ls);
    DeletesOnce(After(START, ls), slot);
  }

  lemma ShownBySomeone(s: State, o: ObjectId) returns (d: SlotId)
    requires Exact(s.objects, s.slots) && ZeroMeansAlone(s.objects, s.slots) && o in s.objects
    ensures d in s.slots && s.slots[d].ptr == Some(o)
  {
    assert AloneOk(s.objects, s.slots, o);
    match s.objects[o].alone
    case Nobody => d :| d in Holders(s.slots, o);
    case Maker(e) => d := e;
    case Ender(e) => d := e;
  }

  /**
   * Nothing leaks and nothing is ended twice: every object ever made is either deleted, exactly once, or shown by
   * some pointer; and for no object did more than one release see zero.
   */
  lemma NothingLeaks(ls: seq<Label>, o: ObjectId)
    requires IsRun(START, ls)
    ensures var s := After(START, ls);
      && (o < s.nextObject ==> multiset(s.deleted)[o] == if o in s.objects then 0 else 1)
      && (o in s.objects ==> exists d <- s.slots :: s.slots[d].ptr == Some(o))
      && multiset(s.deleted)[o] <= multiset(s.zeros)[o] <= 1
  {
    Reachable(ls);
    var s := After(START, ls);
    if o in s.objects { var d := ShownBySomeone(s, o); }
  }
}
