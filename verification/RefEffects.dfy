/** What the operations on smart pointers achieve: which object each pointer shows afterwards, and what became of it. */
module RefEffects {
  import opened Wrappers
  import RefTable
  import opened RefOwnership

  // ---------- one step ----------

  /** The pointers that a step works on. */
  function WorksOn(l: Label): set<SlotId> {
    match l
    case MakeNull(dst) => {dst}
    case Make(dst, _) => {dst}
    case Copy(dst, _) => {dst}
    case Retain(dst) => {dst}
    case Move(dst, src) => {dst, src}
    case Swap(a, b) => {a, b}
    case Drop(slot, _) => {slot}
    case Delete(slot) => {slot}
    case Clear(slot) => {slot}
  }

  predicate SameAt(p: Slots, r: Slots, d: SlotId) {
    (d in p <==> d in r) && (d in p && d in r ==> p[d] == r[d])
  }

  ghost predicate Shows(slots: Slots, d: SlotId, ptr: Option<ObjectId>) {
    d in slots && slots[d].ptr == ptr
  }

  /** Which object each pointer shows after a step; all pointers that the step does not work on are as before. */
  lemma PointersAreExact(s: State, l: Label)
    requires Enabled(s, l) && Defined(s, l)
    ensures forall d | d !in WorksOn(l) :: SameAt(s.slots, Next(s, l).slots, d)
    ensures var p, r := s.slots, Next(s, l).slots;
      match l
      case MakeNull(dst) => Shows(r, dst, None)
      case Make(dst, _) => Shows(r, dst, Some(s.nextObject))
      case Copy(dst, src) => Shows(r, dst, p[src].ptr)
      case Retain(dst) => Shows(r, dst, p[dst].ptr)
      case Move(dst, src) => Shows(r, dst, p[src].ptr) && Shows(r, src, None)
      case Swap(a, b) => Shows(r, a, p[b].ptr) && Shows(r, b, p[a].ptr)
      case Drop(slot, _) => Shows(r, slot, p[slot].ptr)
      case Delete(slot) => Shows(r, slot, p[slot].ptr)
      case Clear(slot) => if p[slot].phase.dies then slot !in r else Shows(r, slot, None)
  {}

  /** Whatever other threads do with other pointers, this one goes on showing what it shows. */
  lemma {:induction false} OthersLeaveItAlone(s: State, ls: seq<Label>, d: SlotId)
    requires IsRun(s, ls) && forall l <- ls :: d !in WorksOn(l)
    ensures SameAt(s.slots, After(s, ls).slots, d)
    decreases |ls|
  {
    if ls == [] {
    } else {
      var t := Next(s, ls[0]);
      assert ls[0] in ls && forall l <- ls[1..] :: l in ls;
      assert SameAt(s.slots, t.slots, d) by { PointersAreExact(s, ls[0]); }
      OthersLeaveItAlone(t, ls[1..], d);
    }
  }

  // ---------- whole operations ----------

  lemma FirstThen(s: State, l: Label, ls: seq<Label>)
    requires Inv(s) && Enabled(s, l) && Defined(s, l) && IsRun(Next(s, l), ls)
    ensures IsRun(s, [l] + ls) && After(s, [l] + ls) == After(Next(s, l), ls)
  {
    assert ([l] + ls)[1..] == ls;
  }

  lemma GoesOn(s: State, l: Label) returns (r: State)
    requires Inv(s) && Enabled(s, l)
    ensures Defined(s, l) && r == Next(s, l) && Inv(r)
  {
    EnabledIsDefined(s, l);
    StepKeeps(s, l);
    r := Next(s, l);
  }

  lemma FrontOf(a: seq<Label>, b: seq<Label>)
    requires a != []
    ensures (a + b)[0] == a[0] && (a + b)[1..] == a[1..] + b
  {}

  lemma {:induction false} Joined(s: State, a: seq<Label>, b: seq<Label>)
    requires IsRun(s, a) && IsRun(After(s, a), b)
    ensures IsRun(s, a + b) && After(s, a + b) == After(After(s, a), b)
    decreases |a|
  {
    if a == [] {
      assert a + b == b;
    } else {
      FrontOf(a, b);
      Joined(Next(s, a[0]), a[1..], b);
    }
  }

  lemma MadeAndRetained(s: State, dst: SlotId, value: RefTable.JsValue, t: State, r: State)
    requires s.nextObject !in s.objects && 0 <= RefTable.NewId(s.table.cells)
    requires t == MakeRef(s, dst, value) && r == Next(t, Retain(dst))
    ensures var o := s.nextObject;
      && r.slots == s.slots[dst := Slot(Some(o), Settled)] && r.deleted == s.deleted
      && r.objects.Keys == s.objects.Keys + {o} && (forall p <- s.objects :: r.objects[p] == s.objects[p])
      && r.objects[o].count == 1 && r.objects[o].value == value
  {}

  /** A new object is held by exactly the pointer made for it, and whoever reads it gets the value it was made from. */
  lemma MadeIsHeld(s: State, dst: SlotId, value: RefTable.JsValue)
    requires Inv(s) && dst !in s.slots
    ensures IsRun(s, [Make(dst, value)] + ([Retain(dst)] + []))
    ensures var r, o := After(s, [Make(dst, value)] + ([Retain(dst)] + [])), s.nextObject;
      && o !in s.objects && r.objects.Keys == s.objects.Keys + {o}
      && (forall p <- s.objects :: r.objects[p] == s.objects[p])
      && r.slots == s.slots[dst := Slot(Some(o), Settled)]
      && r.objects[o].count == 1 && r.objects[o].value == value
      && RefTable.Read(r.table, r.objects[o].ref) == value && r.deleted == s.deleted
  {
    var t := GoesOn(s, Make(dst, value));
    var r := GoesOn(t, Retain(dst));
    MadeAndRetained(s, dst, value, t, r);
    FirstThen(t, Retain(dst), []);
    FirstThen(s, Make(dst, value), [Retain(dst)] + []);
    ReadsBack(r, dst);
  }

  lemma CopiedAndRetained(s: State, dst: SlotId, src: SlotId, o: ObjectId, t: State, r: State)
    requires dst !in s.slots && src in s.slots && s.slots[src] == Slot(Some(o), Settled)
    requires o in s.objects && s.objects[o].alone == Nobody
    requires t == s.(slots := s.slots[dst := Slot(Some(o), Retaining(Some(src)))]) && r == Next(t, Retain(dst))
    ensures r.slots == s.slots[dst := s.slots[src]] && r.table == s.table && r.deleted == s.deleted
    ensures r.objects == s.objects[o := s.objects[o].(count := s.objects[o].count + 1)]
  {}

  /** A new pointer takes over what another shows, and swapped pointers what each other shows; nothing is counted. */
  lemma MoveAndSwapTakeOver(s: State, a: SlotId, b: SlotId)
    requires Inv(s) && Writable(s, b)
    ensures a !in s.slots ==>
      && Enabled(s, Move(a, b)) && Defined(s, Move(a, b))
      && Next(s, Move(a, b)) == s.(slots := s.slots[b := Slot(None, Settled)][a := s.slots[b]])
    ensures Writable(s, a) ==>
      && Enabled(s, Swap(a, b)) && Defined(s, Swap(a, b))
      && Next(s, Swap(a, b)) == s.(slots := s.slots[b := s.slots[a]][a := s.slots[b]])
  {
    if a !in s.slots {
      assert s.slots[a := s.slots[b]][b := Slot(None, Settled)] == s.slots[b := Slot(None, Settled)][a := s.slots[b]];
    }
    if Writable(s, a) && a != b {
      assert s.slots[a := s.slots[b]][b := s.slots[a]] == s.slots[b := s.slots[a]][a := s.slots[b]];
    }
  }

  /** A copy shows the same object, which has one holder more. */
  lemma CopyIsHeld(s: State, dst: SlotId, src: SlotId) returns (ls: seq<Label>)
    requires Inv(s) && dst !in s.slots && Resting(s, src)
    ensures IsRun(s, ls)
    ensures var r, ptr := After(s, ls), s.slots[src].ptr;
      && Inv(r) && r.slots == s.slots[dst := s.slots[src]] && r.table == s.table && r.deleted == s.deleted
      && match ptr
         case None => r.objects == s.objects
         case Some(o) => o in s.objects && r.objects == s.objects[o := s.objects[o].(count := s.objects[o].count + 1)]
  {
    var t := GoesOn(s, Copy(dst, src));
    ls := [];
    if s.slots[src].ptr.Some? {
      var o := s.slots[src].ptr.value;
      assert SlotOk(s.objects, s.slots, src);
      SettledIsHeld(s.objects, s.slots, src, o);
      var r := GoesOn(t, Retain(dst));
      CopiedAndRetained(s, dst, src, o, t, r);
      FirstThen(t, Retain(dst), []);
      ls := [Retain(dst)] + [];
    }
    FirstThen(s, Copy(dst, src), ls);
    ls := [Copy(dst, src)] + ls;
  }

  /** `slot` is reset, or gone. */
  function Ended(slots: Slots, slot: SlotId, dies: bool): Slots {
    if dies then slots - {slot} else slots[slot := Slot(None, Settled)]
  }

  lemma EndsAlike(slots: Slots, slot: SlotId, x: Slot, dies: bool)
    ensures Ended(slots[slot := x], slot, dies) == Ended(slots, slot, dies)
  {
    assert slots[slot := x] - {slot} == slots - {slot};
  }

  lemma ClearEnds(s: State, slot: SlotId, dies: bool)
    requires slot in s.slots && s.slots[slot].phase == Clearing(dies)
    ensures Next(s, Clear(slot)) == s.(slots := Ended(s.slots, slot, dies))
  {}

  /** A pointer to an object that others hold as well, or to none, is given up without a deletion. */
  lemma GivesUpOne(s: State, slot: SlotId, dies: bool) returns (t: State, r: State)
    requires Inv(s) && Enabled(s, Drop(slot, dies))
    requires s.slots[slot].ptr.Some? && PointsToLive(s, slot) ==> s.objects[s.slots[slot].ptr.value].count != 1
    ensures Defined(s, Drop(slot, dies)) && t == Next(s, Drop(slot, dies)) && Enabled(t, Clear(slot))
    ensures r == Next(t, Clear(slot)) && Inv(t) && Inv(r)
    ensures r.slots == Ended(s.slots, slot, dies) && r.table == s.table && r.deleted == s.deleted
    ensures match s.slots[slot].ptr
            case None => r.objects == s.objects
            case Some(o) =>
              o in s.objects && r.objects == s.objects[o := s.objects[o].(count := s.objects[o].count - 1)]
  {
    t := GoesOn(s, Drop(slot, dies));
    r := GoesOn(t, Clear(slot));
    ClearEnds(t, slot, dies);
    EndsAlike(s.slots, slot, t.slots[slot], dies);
  }

  lemma LastDeleted(s: State, slot: SlotId, dies: bool, t: State, u: State)
    requires slot in s.slots && PointsToLive(s, slot) && t == DropLast(s, slot, dies) && u == DeleteObject(t, slot)
    requires 0 !in s.table.live
    ensures var o := s.slots[slot].ptr.value;
      && u.slots == s.slots[slot := Slot(Some(o), Clearing(dies))] && u.objects == s.objects - {o}
      && u.deleted == s.deleted + [o] && u.table.live == s.table.live - {s.objects[o].ref}
  {}

  /** The last pointer to an object is given up: the object is deleted in between. */
  lemma GivesUpLast(s: State, slot: SlotId, dies: bool) returns (t: State, u: State, r: State)
    requires Inv(s) && Enabled(s, Drop(slot, dies))
    requires PointsToLive(s, slot) && s.objects[s.slots[slot].ptr.value].count == 1
    ensures Defined(s, Drop(slot, dies)) && t == Next(s, Drop(slot, dies)) && Enabled(t, Delete(slot))
    ensures Defined(t, Delete(slot)) && u == Next(t, Delete(slot))
    ensures Enabled(u, Clear(slot)) && r == Next(u, Clear(slot))
    ensures Inv(t) && Inv(u) && Inv(r)
    ensures var o := s.slots[slot].ptr.value;
      && r.slots == Ended(s.slots, slot, dies) && r.objects == s.objects - {o} && r.deleted == s.deleted + [o]
      && r.table.live == s.table.live - {s.objects[o].ref}
  {
    t := GoesOn(s, Drop(slot, dies));
    u := GoesOn(t, Delete(slot));
    r := GoesOn(u, Clear(slot));
    RefTable.LiveIsPositive(s.table);
    LastDeleted(s, slot, dies, t, u);
    ClearEnds(u, slot, dies);
    EndsAlike(s.slots, slot, u.slots[slot], dies);
  }

  /**
   * A pointer that is reset or destroyed shows nothing any more, or is gone; the object has one holder less, and is
   * deleted and its cell given back exactly if that was the last one.
   */
  lemma GivesUp(s: State, slot: SlotId, dies: bool) returns (ls: seq<Label>)
    requires Inv(s) && Writable(s, slot)
    ensures IsRun(s, ls)
    ensures var r, ptr := After(s, ls), s.slots[slot].ptr;
      && Inv(r) && r.slots == (if dies then s.slots - {slot} else s.slots[slot := Slot(None, Settled)])
      && match ptr
         case None => r.objects == s.objects && r.table == s.table && r.deleted == s.deleted
         case Some(o) =>
           && o in s.objects
           && if s.objects[o].count == 1 then
                && r.objects == s.objects - {o} && r.deleted == s.deleted + [o]
                && r.table.live == s.table.live - {s.objects[o].ref}
              else
                && r.objects == s.objects[o := s.objects[o].(count := s.objects[o].count - 1)]
                && r.table == s.table && r.deleted == s.deleted
  {
    if PointsToLive(s, slot) && s.objects[s.slots[slot].ptr.value].count == 1 {
      var t, u, r := GivesUpLast(s, slot, dies);
      FirstThen(u, Clear(slot), []);
      FirstThen(t, Delete(slot), [Clear(slot)] + []);
      FirstThen(s, Drop(slot, dies), [Delete(slot)] + ([Clear(slot)] + []));
      ls := [Drop(slot, dies)] + ([Delete(slot)] + ([Clear(slot)] + []));
    } else {
      var t, r := GivesUpOne(s, slot, dies);
      FirstThen(t, Clear(slot), []);
      FirstThen(s, Drop(slot, dies), [Clear(slot)] + []);
      ls := [Drop(slot, dies)] + ([Clear(slot)] + []);
    }
  }

  lemma Swapped(slots: Slots, dst: SlotId, copy: SlotId, x: Slot)
    requires dst in slots && copy !in slots
    ensures slots[copy := x][dst := x][copy := slots[dst]] - {copy} == slots[dst := x]
  {}

  lemma NotBorrowed(s: State, t: State, x: SlotId)
    requires !Borrowed(s, x)
    requires forall d <- t.slots :: t.slots[d].phase == Settled || SameAt(s.slots, t.slots, d)
    ensures !Borrowed(t, x)
  {}

  /** After the copy both pointers may be swapped. */
  lemma CopyThenSwap(s: State, dst: SlotId, src: SlotId, copy: SlotId, t: State)
    requires Inv(s) && Inv(t) && Writable(s, dst) && Resting(s, src) && copy !in s.slots
    requires t.slots == s.slots[copy := s.slots[src]]
    ensures Enabled(t, Swap(dst, copy))
    ensures var u := Next(t, Swap(dst, copy));
      && Enabled(u, Drop(copy, true))
      && u.slots == s.slots[copy := s.slots[src]][dst := s.slots[src]][copy := s.slots[dst]]
  {
    assert !Borrowed(s, copy) by {
      forall d <- s.slots ensures s.slots[d].phase != Retaining(Some(copy)) { assert SlotOk(s.objects, s.slots, d); }
    }
    NotBorrowed(s, t, dst);
    NotBorrowed(s, t, copy);
    NotBorrowed(s, Next(t, Swap(dst, copy)), copy);
  }

  /** Copy, swap and destroy the copy: the target shows what the source shows, also if they are the same pointer. */
  lemma AssignmentTakesOver(s: State, dst: SlotId, src: SlotId, copy: SlotId) returns (ls: seq<Label>)
    requires Inv(s) && Writable(s, dst) && Resting(s, src) && copy !in s.slots
    ensures IsRun(s, ls) && Inv(After(s, ls)) && After(s, ls).slots == s.slots[dst := s.slots[src]]
  {
    var first := CopyIsHeld(s, copy, src);
    var t := After(s, first);
    CopyThenSwap(s, dst, src, copy, t);
    Swapped(s.slots, dst, copy, s.slots[src]);
    var u := GoesOn(t, Swap(dst, copy));
    var last := GivesUp(u, copy, true);
    FirstThen(t, Swap(dst, copy), last);
    Joined(s, first, [Swap(dst, copy)] + last);
    ls := first + ([Swap(dst, copy)] + last);
  }
}
