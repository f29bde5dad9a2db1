/**
 * The reference table: one array whose cells hold either a referenced value or a link of the free
 * list that starts in cell 0. Which of the two a cell holds cannot be seen from the cell alone, since
 * a referenced value may be a number as well.
 */
module RefTable {

  /** A value of the script engine, as far as the table looks at it. */
  datatype JsValue = Undefined | Number(n: int) | Opaque(tag: nat)

  /** `duk_get_int`: anything but a number reads as zero. */
  function GetInt(v: JsValue): int {
    if v.Number? then v.n else 0
  }

  type Cells = seq<JsValue>

  const EMPTY: Cells := [Number(0)]

  // ---------- the three operations on the array ----------

  /** A cell beyond the end reads as undefined. */
  function Get(cells: Cells, i: nat): JsValue {
    if i < |cells| then cells[i] else Undefined
  }

  /** A write beyond the end lengthens the array. */
  function Put(cells: Cells, i: nat, v: JsValue): (r: Cells)
    ensures i == |cells| ==> r == cells + [v]
    ensures i < |r| && r[i] == v
    ensures i < |cells| ==> |r| == |cells| && forall j :: 0 <= j < |cells| && j != i ==> r[j] == cells[j]
  {
    if i < |cells| then cells[i := v]
    else cells + seq(i - |cells|, _ => Undefined) + [v]
  }

  function NewId(cells: Cells): int {
    var first := GetInt(Get(cells, 0));
    if first != 0 then first else |cells|
  }

  /** The cells once the first free cell, if there is one, has been taken out of the free list. */
  function Unlinked(cells: Cells): Cells
    requires 0 <= NewId(cells)
  {
    if GetInt(Get(cells, 0)) != 0 then Put(cells, 0, Get(cells, NewId(cells))) else cells
  }

  function RefCells(cells: Cells, v: JsValue): Cells
    requires 0 <= NewId(cells)
  {
    Put(Unlinked(cells), NewId(cells), v)
  }

  function UnrefCells(cells: Cells, ref: nat): Cells {
    Put(Put(cells, ref, Get(cells, 0)), 0, Number(ref))
  }

  // ---------- the free list ----------

  function NextLink(chain: seq<nat>, i: nat): nat {
    if i + 1 < |chain| then chain[i + 1] else 0
  }

  /** `chain` is what one meets following the links from cell 0 until a link is zero. */
  ghost predicate Linked(cells: Cells, chain: seq<nat>) {
    && 0 < |cells|
    && (forall i :: 0 <= i < |chain| ==> 1 <= chain[i] < |cells|)
    && cells[0] == Number(if chain == [] then 0 else chain[0])
    && forall i {:trigger cells[chain[i]]} :: 0 <= i < |chain| ==> cells[chain[i]] == Number(NextLink(chain, i))
  }

  ghost predicate NoRepeats(chain: seq<nat>) {
    forall i, j :: 0 <= i < j < |chain| ==> chain[i] != chain[j]
  }

  /** There is at most one such chain: the array alone determines which cells are free. */
  lemma {:induction false} ChainIsUnique(cells: Cells, a: seq<nat>, b: seq<nat>, k: nat)
    requires Linked(cells, a) && Linked(cells, b) && k <= |a| && k <= |b|
    requires a[..k] == b[..k]
    ensures a == b
    decreases |a| - k
  {
    var at := if k == 0 then 0 else a[k - 1];
    assert k > 0 ==> a[k - 1] == a[..k][k - 1] == b[..k][k - 1] == b[k - 1];
    assert cells[at] == Number(if k < |a| then a[k] else 0);
    assert cells[at] == Number(if k < |b| then b[k] else 0);
    if k < |a| && k < |b| {
      assert a[..k + 1] == a[..k] + [a[k]] && b[..k + 1] == b[..k] + [b[k]];
      ChainIsUnique(cells, a, b, k + 1);
    } else {
      assert a == a[..k] && b == b[..k];
    }
  }

  // ---------- the table with what it stands for ----------

  /** `live` is the abstract table, `peak` the largest number of references it ever had at once. */
  datatype Table = Table(cells: Cells, live: map<nat, JsValue>, peak: nat)

  datatype TableOp = Ref(v: JsValue) | Unref(ref: nat)

  const NEW := Table(EMPTY, map[], 0)

  /** The id that `duv_ref` returns: zero for undefined, which is not stored. */
  function RefId(t: Table, v: JsValue): int {
    if v == Undefined then 0 else NewId(t.cells)
  }

  /** Only a live reference, or zero, may be given back. */
  predicate Allowed(t: Table, op: TableOp) {
    op.Unref? && op.ref != 0 ==> op.ref in t.live
  }

  function Apply(t: Table, op: TableOp): Table
    requires op.Ref? ==> 0 <= NewId(t.cells)
  {
    match op
    case Ref(v) =>
      if v == Undefined then t
      else
        var live := t.live[NewId(t.cells) as nat := v];
        Table(RefCells(t.cells, v), live, if |live| > t.peak then |live| else t.peak)
    case Unref(ref) =>
      if ref == 0 then t else t.(cells := UnrefCells(t.cells, ref), live := t.live - {ref})
  }

  /** What `duv_push_ref` pushes. */
  function Read(t: Table, ref: nat): JsValue {
    if ref == 0 then Undefined else Get(t.cells, ref)
  }

  /** Free and live cells share out the cells from 1 on, and a live cell holds its value. */
  ghost predicate Shares(cells: Cells, live: map<nat, JsValue>, chain: seq<nat>) {
    && (forall i :: 1 <= i < |cells| ==> (i in live <==> i !in chain))
    && (forall i <- live :: 1 <= i < |cells| && live[i] == cells[i] && live[i] != Undefined)
  }

  /** The chain and the live references make up the array, which has exactly as many cells as were ever needed. */
  ghost predicate Fits(t: Table, chain: seq<nat>) {
    && Linked(t.cells, chain) && NoRepeats(chain)
    && Shares(t.cells, t.live, chain)
    && |t.cells| - 1 == |t.live| + |chain| == t.peak
  }

  /** A cell that was not live gets a value. */
  lemma MoreShares(cells: Cells, live: map<nat, JsValue>, chain: seq<nat>, ref: nat, v: JsValue,
                   after: Cells, rest: seq<nat>)
    requires Shares(cells, live, chain) && v != Undefined && 1 <= ref <= |cells|
    requires |after| == if ref < |cells| then |cells| else |cells| + 1
    requires after[ref] == v && forall i :: 1 <= i < |after| && i != ref ==> after[i] == cells[i]
    requires ref !in rest && forall i :: i in chain <==> i in rest || (i == ref && ref < |cells|)
    ensures Shares(after, live[ref := v], rest)
  {
    var more := live[ref := v];
    forall i | 1 <= i < |after| ensures i in more <==> i !in rest {
      if i != ref { assert i in live <==> i !in chain; }
    }
    forall i <- more ensures 1 <= i < |after| && more[i] == after[i] && more[i] != Undefined {
      if i != ref { assert i in live && after[i] == cells[i]; }
    }
  }

  /** No free cell: the array grows by one. */
  lemma AppendFits(t: Table, v: JsValue)
    requires Fits(t, []) && v != Undefined
    ensures NewId(t.cells) == |t.cells| && Fits(Apply(t, Ref(v)), [])
  {
    var n, after := |t.cells|, t.cells + [v];
    assert RefCells(t.cells, v) == after && n !in t.live;
    MoreShares(t.cells, t.live, [], n, v, after, []);
    assert Linked(after, []);
  }

  lemma ChainShrinks(cells: Cells, chain: seq<nat>, v: JsValue)
    requires Linked(cells, chain) && NoRepeats(chain) && chain != []
    ensures NewId(cells) == chain[0] && RefCells(cells, v) == cells[0 := cells[chain[0]]][chain[0] := v]
    ensures Linked(RefCells(cells, v), chain[1..]) && NoRepeats(chain[1..])
  {
    var rest := chain[1..];
    var after := RefCells(cells, v);
    forall i | 0 <= i < |rest|
      ensures rest[i] != chain[0] && after[rest[i]] == Number(NextLink(rest, i))
    {
      assert rest[i] == chain[i + 1] && cells[chain[i + 1]] == Number(NextLink(chain, i + 1));
    }
  }

  /** The first free cell is taken out of the chain. */
  lemma ReuseFits(t: Table, chain: seq<nat>, v: JsValue)
    requires Fits(t, chain) && chain != [] && v != Undefined
    ensures NewId(t.cells) == chain[0] && Fits(Apply(t, Ref(v)), chain[1..])
  {
    var first, rest := chain[0], chain[1..];
    ChainShrinks(t.cells, chain, v);
    FirstOfChain(chain);
    MoreShares(t.cells, t.live, chain, first, v, RefCells(t.cells, v), rest);
  }

  lemma FirstOfChain(chain: seq<nat>)
    requires NoRepeats(chain) && chain != []
    ensures chain[0] in chain && chain[0] !in chain[1..]
    ensures forall i :: i in chain <==> i == chain[0] || i in chain[1..]
  {
    assert chain == [chain[0]] + chain[1..];
  }

  lemma RefFits(t: Table, chain: seq<nat>, v: JsValue)
    requires Fits(t, chain) && v != Undefined
    ensures NewId(t.cells) >= 1 && NewId(t.cells) !in t.live
    ensures Fits(Apply(t, Ref(v)), if chain == [] then [] else chain[1..])
  {
    if chain == [] { AppendFits(t, v); } else { ReuseFits(t, chain, v); assert chain[0] in chain; }
  }

  lemma ChainGrows(cells: Cells, chain: seq<nat>, ref: nat)
    requires Linked(cells, chain) && NoRepeats(chain) && 1 <= ref < |cells| && ref !in chain
    ensures UnrefCells(cells, ref) == cells[ref := cells[0]][0 := Number(ref)]
    ensures Linked(UnrefCells(cells, ref), [ref] + chain) && NoRepeats([ref] + chain)
  {
    var longer, after := [ref] + chain, UnrefCells(cells, ref);
    forall i | 0 < i < |longer| ensures longer[i] != ref && after[longer[i]] == Number(NextLink(longer, i)) {
      assert longer[i] == chain[i - 1] && chain[i - 1] in chain;
      assert cells[chain[i - 1]] == Number(NextLink(chain, i - 1));
    }
  }

  lemma UnrefFits(t: Table, chain: seq<nat>, ref: nat)
    requires Fits(t, chain) && ref in t.live
    ensures Fits(Apply(t, Unref(ref)), [ref] + chain)
  {
    ChainGrows(t.cells, chain, ref);
    var r, longer := Apply(t, Unref(ref)), [ref] + chain;
    assert t.live == r.live[ref := t.live[ref]];
    assert forall i :: i in longer <==> i == ref || i in chain;
  }

  ghost predicate Sane(t: Table) {
    exists chain :: Fits(t, chain)
  }

  // ---------- what the operations achieve ----------

  lemma LiveReadsBack(t: Table, chain: seq<nat>)
    requires Fits(t, chain)
    ensures forall ref <- t.live :: ref != 0 && Read(t, ref) == t.live[ref]
  {}

  lemma ReadsLive(t: Table, ref: nat)
    requires Sane(t)
    ensures ref in t.live ==> ref != 0 && Read(t, ref) == t.live[ref]
  {
    var chain :| Fits(t, chain);
    LiveReadsBack(t, chain);
  }

  /**
   * A value gets an id that is nobody's and that reads back this value; all other references read as before. Undefined
   * is not stored.
   */
  lemma RefIsExact(t: Table, v: JsValue)
    requires Sane(t)
    ensures 0 <= NewId(t.cells)
    ensures v == Undefined ==> RefId(t, v) == 0 && Apply(t, Ref(v)) == t && Read(t, 0) == v
    ensures v != Undefined ==>
      var id, r := RefId(t, v), Apply(t, Ref(v));
      && id >= 1 && id !in t.live && r.live == t.live[id as nat := v]
      && Read(r, id) == v && forall ref <- t.live :: Read(r, ref) == Read(t, ref) == t.live[ref]
  {
    var chain :| Fits(t, chain);
    if v != Undefined {
      RefFits(t, chain, v);
      LiveReadsBack(t, chain);
      LiveReadsBack(Apply(t, Ref(v)), if chain == [] then [] else chain[1..]);
    }
  }

  /** A reference given back is no longer live; the others read as before, and its id is the next to be given out. */
  lemma UnrefIsExact(t: Table, ref: nat, v: JsValue)
    requires Sane(t) && ref in t.live && v != Undefined
    ensures var r := Apply(t, Unref(ref));
      && r.live == t.live - {ref} && |r.cells| == |t.cells| && RefId(r, v) == ref
      && forall other <- r.live :: Read(r, other) == Read(t, other) == t.live[other]
  {
    var chain :| Fits(t, chain);
    var r := Apply(t, Unref(ref));
    UnrefFits(t, chain, ref);
    LiveReadsBack(t, chain);
    LiveReadsBack(r, [ref] + chain);
    assert r.cells[0] == Number(([ref] + chain)[0]);
  }

  // ---------- runs ----------

  lemma NewIsSane()
    ensures Sane(NEW)
  {
    assert Fits(NEW, []);
  }

  lemma LiveIsPositive(t: Table)
    requires Sane(t)
    ensures 0 !in t.live
  {
    var chain :| Fits(t, chain);
    assert Shares(t.cells, t.live, chain);
  }

  lemma ApplyIsSane(t: Table, op: TableOp)
    requires Sane(t) && Allowed(t, op)
    ensures 0 <= NewId(t.cells) && Sane(Apply(t, op))
    ensures op.Ref? && op.v != Undefined ==> NewId(t.cells) >= 1 && NewId(t.cells) !in t.live
  {
    var chain :| Fits(t, chain);
    match op
    case Ref(v) => if v != Undefined { RefFits(t, chain, v); }
    case Unref(ref) => if ref != 0 { UnrefFits(t, chain, ref); }
  }

  ghost predicate IsRun(t: Table, ops: seq<TableOp>)
    requires Sane(t)
    decreases |ops|
  {
    ops == [] || (Allowed(t, ops[0]) && (ApplyIsSane(t, ops[0]); IsRun(Apply(t, ops[0]), ops[1..])))
  }

  ghost function After(t: Table, ops: seq<TableOp>): Table
    requires Sane(t) && IsRun(t, ops)
    decreases |ops|
  {
    if ops == [] then t else (ApplyIsSane(t, ops[0]); After(Apply(t, ops[0]), ops[1..]))
  }

  /**
   * After any sequence of refs and of unrefs of live ids the links from cell 0 form one chain without
   * repetition that ends at zero; free and live cells share out the rest of the array, every live cell
   * reads back its value, and the array is no longer than the largest number of references ever live
   * at once requires.
   */
  lemma {:induction false} TableStaysSane(t: Table, ops: seq<TableOp>)
    requires Sane(t) && IsRun(t, ops)
    ensures Sane(After(t, ops))
    ensures var r := After(t, ops);
      |r.cells| - 1 == r.peak && forall ref <- r.live :: Read(r, ref) == r.live[ref]
    decreases |ops|
  {
    if ops == [] {
      var chain :| Fits(t, chain);
    } else {
      ApplyIsSane(t, ops[0]);
      TableStaysSane(Apply(t, ops[0]), ops[1..]);
    }
  }
}
