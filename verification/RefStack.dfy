/**
 * The reference functions as they are written: code for the value stack of the script engine. Only the
 * few engine calls they make are modelled; indices below zero count from the top of the stack.
 */
module RefStack {
  import opened Wrappers
  import opened RefTable

  /** A stack entry: a script value, the heap stash, or an array object by its handle. */
  datatype Slot = Value(v: JsValue) | HeapStash | Array(handle: nat)

  class DukContext {
    var stack: seq<Slot>
    var arrays: seq<Cells>
    /** The property of the heap stash that holds the reference array. */
    var stashRefs: Option<nat>

    /** What the reference array stands for. */
    ghost var table: Table

    constructor ()
      ensures stack == [] && arrays == [] && stashRefs == None
    {
      stack, arrays, stashRefs := [], [], None;
    }

    function Index(idx: int): int
      reads this`stack
    {
      if idx < 0 then |stack| + idx else idx
    }

    predicate InStack(idx: int)
      reads this`stack
    {
      0 <= Index(idx) < |stack|
    }

    predicate IsArray(idx: int)
      reads this`stack, this`arrays
    {
      InStack(idx) && stack[Index(idx)].Array? && stack[Index(idx)].handle < |arrays|
    }

    // ---------- engine calls ----------

    method PushHeapStash()
      modifies this`stack
      ensures stack == old(stack) + [HeapStash]
    {
      stack := stack + [HeapStash];
    }

    method PushUndefined()
      modifies this`stack
      ensures stack == old(stack) + [Value(Undefined)]
    {
      stack := stack + [Value(Undefined)];
    }

    method PushInt(n: int)
      modifies this`stack
      ensures stack == old(stack) + [Value(Number(n))]
    {
      stack := stack + [Value(Number(n))];
    }

    method PushArray()
      modifies this`stack, this`arrays
      ensures stack == old(stack) + [Array(|old(arrays)|)]
      ensures arrays == old(arrays) + [[]]
    {
      stack := stack + [Array(|arrays|)];
      arrays := arrays + [[]];
    }

    method Pop()
      requires stack != []
      modifies this`stack
      ensures stack == old(stack)[..|old(stack)| - 1]
    {
      stack := stack[..|stack| - 1];
    }

    method Remove(idx: int)
      requires InStack(idx)
      modifies this`stack
      ensures stack == old(stack)[..old(Index(idx))] + old(stack)[old(Index(idx)) + 1..]
    {
      stack := stack[..Index(idx)] + stack[Index(idx) + 1..];
    }

    /** Moves the top of the stack to `idx`. */
    method Insert(idx: int)
      requires InStack(idx)
      modifies this`stack
      ensures var n, i, s := |old(stack)|, old(Index(idx)), old(stack);
              stack == s[..i] + [s[n - 1]] + s[i..n - 1]
    {
      var n, i := |stack|, Index(idx);
      stack := stack[..i] + [stack[n - 1]] + stack[i..n - 1];
    }

    method IsUndefined(idx: int) returns (r: bool)
      requires InStack(idx)
      ensures r <==> stack[Index(idx)] == Value(Undefined)
    {
      r := stack[Index(idx)] == Value(Undefined);
    }

    method GetIntAt(idx: int) returns (n: int)
      requires InStack(idx)
      ensures n == if stack[Index(idx)].Value? then GetInt(stack[Index(idx)].v) else 0
    {
      n := if stack[Index(idx)].Value? then GetInt(stack[Index(idx)].v) else 0;
    }

    method GetLength(idx: int) returns (n: nat)
      requires IsArray(idx)
      ensures n == |arrays[stack[Index(idx)].handle]|
    {
      n := |arrays[stack[Index(idx)].handle]|;
    }

    method GetPropIndex(idx: int, i: nat)
      requires IsArray(idx)
      modifies this`stack
      ensures stack == old(stack) + [Value(Get(arrays[old(stack[Index(idx)]).handle], i))]
    {
      stack := stack + [Value(Get(arrays[stack[Index(idx)].handle], i))];
    }

    /** Stores the top of the stack, a script value, into an array and pops it. */
    method PutPropIndex(idx: int, i: nat)
      requires IsArray(idx) && stack[|stack| - 1].Value?
      modifies this`stack, this`arrays
      ensures stack == old(stack)[..|old(stack)| - 1]
      ensures var h := old(stack[Index(idx)]).handle;
              arrays == old(arrays)[h := Put(old(arrays)[h], i, old(stack[|stack| - 1]).v)]
    {
      var h := stack[Index(idx)].handle;
      arrays := arrays[h := Put(arrays[h], i, stack[|stack| - 1].v)];
      stack := stack[..|stack| - 1];
    }

    method HasRefs(idx: int) returns (r: bool)
      requires InStack(idx) && stack[Index(idx)] == HeapStash
      ensures r <==> stashRefs.Some?
    {
      r := stashRefs.Some?;
    }

    method GetRefs(idx: int)
      requires InStack(idx) && stack[Index(idx)] == HeapStash
      modifies this`stack
      ensures stack == old(stack) + [if stashRefs.Some? then Array(stashRefs.value) else Value(Undefined)]
    {
      stack := stack + [if stashRefs.Some? then Array(stashRefs.value) else Value(Undefined)];
    }

    method PutRefs(idx: int)
      requires InStack(idx) && stack[Index(idx)] == HeapStash && stack[|stack| - 1].Array?
      modifies this`stack, this`stashRefs
      ensures stashRefs == Some(old(stack[|stack| - 1]).handle)
      ensures stack == old(stack)[..|old(stack)| - 1]
    {
      stashRefs := Some(stack[|stack| - 1].handle);
      stack := stack[..|stack| - 1];
    }

    // ---------- the reference functions ----------

    /** The reference array is there and in order. */
    ghost predicate Ready()
      reads this
    {
      && stashRefs.Some? && stashRefs.value < |arrays|
      && arrays[stashRefs.value] == table.cells
      && Sane(table)
    }

    /** Pushes the reference array: `duk_push_heap_stash`, `duk_get_prop_string`, `duk_remove`. */
    method PushRefs()
      requires Ready()
      modifies this`stack
      ensures stack == old(stack) + [Array(stashRefs.value)]
    {
      PushHeapStash();
      GetRefs(-1);
      Remove(-2);
    }

    /** Creates the reference array; one that is there already is kept with all its references. */
    method DuvRefSetup()
      requires stashRefs.None? || Ready()
      modifies this
      ensures Ready() && stack == old(stack)
      ensures old(stashRefs).Some? ==> table == old(table) && arrays == old(arrays) && stashRefs == old(stashRefs)
      ensures old(stashRefs).None? ==>
        table == NEW && arrays == old(arrays) + [EMPTY] && stashRefs == Some(|old(arrays)|)
    {
      PushHeapStash();
      var has := HasRefs(-1);
      if has {
        Pop();
        return;
      }
      CreateRefs();
      Pop();
      NewIsSane();
      table := NEW;
    }

    /** With the heap stash on top of the stack: gives it an array with an empty free list. */
    method CreateRefs()
      requires stack != [] && stack[|stack| - 1] == HeapStash
      modifies this`stack, this`arrays, this`stashRefs
      ensures stack == old(stack) && arrays == old(arrays) + [EMPTY] && stashRefs == Some(|old(arrays)|)
    {
      ghost var base := stack;
      PushArray();
      PushInt(0);
      PutPropIndex(-2, 0);
      assert stack == base + [Array(|old(arrays)|)];
      assert Put([], 0, Number(0)) == EMPTY;
      PutRefs(-2);
      assert stack == base;
    }

    /** With the reference array on top of the stack: finds a cell and takes it out of the free list. */
    method TakeCell() returns (ref: int)
      requires stack != [] && IsArray(-1)
      requires 0 <= NewId(arrays[stack[|stack| - 1].handle])
      modifies this`stack, this`arrays
      ensures stack == old(stack)
      ensures var h := stack[|stack| - 1].handle;
              ref == NewId(old(arrays)[h]) && arrays == old(arrays)[h := Unlinked(old(arrays)[h])]
    {
      GetPropIndex(-1, 0);
      ref := GetIntAt(-1);
      Pop();
      assert stack == old(stack);
      if ref != 0 {
        GetPropIndex(-1, ref);
        PutPropIndex(-2, 0);
      } else {
        ref := GetLength(-1);
      }
    }

    /** With the array above a value: stores the value in cell `ref` and takes both off the stack. */
    method StoreInCell(ref: nat)
      requires |stack| >= 2 && IsArray(-1) && stack[|stack| - 2].Value?
      modifies this`stack, this`arrays
      ensures stack == old(stack)[..|old(stack)| - 2]
      ensures var h, v := old(stack[|stack| - 1]).handle, old(stack[|stack| - 2]).v;
              arrays == old(arrays)[h := Put(old(arrays)[h], ref, v)]
    {
      Insert(-2);
      PutPropIndex(-2, ref);
      Pop();
    }

    /** With the array on top of the stack: makes cell `ref` the first of the free list. */
    method FreeCell(ref: nat)
      requires stack != [] && IsArray(-1)
      modifies this`stack, this`arrays
      ensures stack == old(stack)
      ensures var h := stack[|stack| - 1].handle; arrays == old(arrays)[h := UnrefCells(old(arrays)[h], ref)]
    {
      ghost var base := stack;
      GetPropIndex(-1, 0);
      PutPropIndex(-2, ref);
      assert stack == base;
      PushInt(ref);
      PutPropIndex(-2, 0);
      assert stack == base;
    }

    /** Takes a value that is not undefined off the stack into the cell it found. */
    method RefValue() returns (ref: int)
      requires Ready() && stack != [] && stack[|stack| - 1].Value?
      requires 0 <= NewId(table.cells)
      modifies this`stack, this`arrays
      ensures stack == old(stack)[..|old(stack)| - 1]
      ensures ref == NewId(table.cells)
      ensures arrays == old(arrays)[stashRefs.value := RefCells(table.cells, old(stack[|stack| - 1]).v)]
    {
      ghost var base := stack;
      PushRefs();
      ref := TakeCell();
      StoreInCell(ref);
      assert stack == base[..|base| - 1];
    }

    /** Takes the value on top of the stack into the table. */
    method DuvRef() returns (ref: int)
      requires Ready() && stack != [] && stack[|stack| - 1].Value?
      modifies this`stack, this`arrays, this`table
      ensures Ready() && arrays == old(arrays)[stashRefs.value := table.cells]
      ensures stack == old(stack)[..|old(stack)| - 1]
      ensures var v := old(stack[|stack| - 1]).v;
              ref == RefId(old(table), v) && table == Apply(old(table), Ref(v))
      ensures var v := old(stack[|stack| - 1]).v;
        if v == Undefined then ref == 0 && table == old(table)
        else ref >= 1 && ref !in old(table).live && table.live == old(table).live[ref as nat := v]
    {
      ghost var v, t := stack[|stack| - 1].v, table;
      ApplyIsSane(t, Ref(v));
      RefIsExact(t, v);
      var undefined := IsUndefined(-1);
      if undefined {
        Pop();
        return 0;
      }
      ref := RefValue();
      table := Apply(t, Ref(v));
    }

    /** Pushes the value of a reference. */
    method DuvPushRef(ref: nat)
      requires Ready()
      modifies this`stack
      ensures stack == old(stack) + [Value(Read(table, ref))]
      ensures ref == 0 ==> stack == old(stack) + [Value(Undefined)]
      ensures ref in table.live ==> stack == old(stack) + [Value(table.live[ref])]
    {
      ReadsLive(table, ref);
      if ref == 0 {
        PushUndefined();
        return;
      }
      PushRefs();
      GetPropIndex(-1, ref);
      Remove(-2);
    }

    /** Makes a cell free. */
    method UnrefValue(ref: nat)
      requires Ready()
      modifies this`stack, this`arrays
      ensures stack == old(stack)
      ensures arrays == old(arrays)[stashRefs.value := UnrefCells(table.cells, ref)]
    {
      ghost var base := stack;
      PushRefs();
      FreeCell(ref);
      Pop();
      assert stack == base;
    }

    /** Gives a live reference back. */
    method DuvUnref(ref: nat)
      requires Ready() && Allowed(table, Unref(ref))
      modifies this`stack, this`arrays, this`table
      ensures Ready() && arrays == old(arrays)[stashRefs.value := table.cells]
      ensures stack == old(stack) && table == Apply(old(table), Unref(ref))
      ensures if ref == 0 then table == old(table) else table.live == old(table).live - {ref}
    {
      if ref == 0 { return; }
      ApplyIsSane(table, Unref(ref));
      UnrefValue(ref);
      table := Apply(table, Unref(ref));
    }
  }
}
