/**
 * `Ref` objects and the smart pointers that count them, in the source's own form and as one thread uses
 * them. `World` says what is true between two operations; module RefOwnership has the interleavings.
 */
module IntrusivePtr {
  import opened RefTable
  import opened RefStack

  /** Owns one cell of the reference table for as long as it lives. */
  class Ref {
    const ctx: DukContext
    const refId: nat
    var refCount: int
    ghost const value: JsValue
    ghost var deleted: bool

    /** Takes the value on top of the stack. */
    constructor (ctx: DukContext)
      requires ctx.Ready() && ctx.stack != [] && ctx.stack[|ctx.stack| - 1].Value?
      modifies ctx
      ensures ctx.Ready() && ctx.stack == old(ctx.stack)[..|old(ctx.stack)| - 1]
      ensures this.ctx == ctx && refCount == 0 && !deleted
      ensures value == old(ctx.stack[|ctx.stack| - 1]).v && refId == RefId(old(ctx.table), value)
      ensures ctx.table == Apply(old(ctx.table), RefTable.Ref(value))
    {
      this.ctx := ctx;
      ghost var v := ctx.stack[|ctx.stack| - 1].v;
      ApplyIsSane(ctx.table, RefTable.Ref(v));
      value := v;
      var id := ctx.DuvRef();
      refId := id;
      refCount := 0;
      deleted := false;
    }

    method Push()
      requires ctx.Ready()
      modifies ctx`stack
      ensures ctx.stack == old(ctx.stack) + [Value(Read(ctx.table, refId))]
    {
      ctx.DuvPushRef(refId);
    }

    method Retain()
      modifies this`refCount
      ensures refCount == old(refCount) + 1
    {
      refCount := refCount + 1;
    }

    /** The last release deletes the object, which gives its reference back. */
    method Release()
      requires refCount > 0 && !deleted
      requires ctx.Ready() && Allowed(ctx.table, Unref(refId))
      modifies this`refCount, this`deleted, ctx
      ensures refCount == old(refCount) - 1
      ensures deleted <==> refCount == 0
      ensures ctx.Ready() && ctx.stack == old(ctx.stack)
      ensures ctx.table == if deleted then Apply(old(ctx.table), Unref(refId)) else old(ctx.table)
    {
      refCount := refCount - 1;
      if refCount == 0 {
        ctx.DuvUnref(refId);
        deleted := true;
      }
    }
  }

  function Holders(ptrs: set<RefPtr>, r: Ref): set<RefPtr>
    reads ptrs
  {
    set p | p in ptrs && p.obj == r
  }

  /** Every count is the number of pointers to the object; an object is deleted when that is zero. */
  ghost predicate Counted(ptrs: set<RefPtr>, refs: set<Ref>)
    reads ptrs, refs
  {
    && (forall p <- ptrs :: p.obj != null ==> p.obj in refs)
    && (forall r <- refs :: r.refCount == |Holders(ptrs, r)|)
    && (forall r <- refs :: r.deleted <==> r.refCount == 0)
  }

  /** Every object that is not deleted has a live reference of its own, with its value. */
  ghost predicate OwnedIn(refs: set<Ref>, live: map<nat, JsValue>)
    reads refs`deleted
  {
    && (forall r <- refs :: !r.deleted ==>
          if r.refId == 0 then r.value == Undefined else r.refId in live && live[r.refId] == r.value)
    && (forall r, q :: r in refs && q in refs && r != q && !r.deleted && !q.deleted && r.refId != 0 ==>
          r.refId != q.refId)
  }

  ghost predicate Owned(refs: set<Ref>, ctx: DukContext)
    reads refs`deleted, ctx
  {
    ctx.Ready() && OwnedIn(refs, ctx.table.live) && forall r <- refs :: r.ctx == ctx
  }

  ghost predicate World(ptrs: set<RefPtr>, refs: set<Ref>, ctx: DukContext)
    reads ptrs, refs, ctx
  {
    Counted(ptrs, refs) && Owned(refs, ctx)
  }

  lemma OneHolderMore(ptrs: set<RefPtr>, p: RefPtr, r: Ref)
    requires p !in ptrs
    ensures |Holders(ptrs + {p}, r)| == |Holders(ptrs, r)| + if p.obj == r then 1 else 0
  {
    var a, b := Holders(ptrs, r), Holders(ptrs + {p}, r);
    assert b == if p.obj == r then a + {p} else a;
  }

  lemma OneHolderLess(ptrs: set<RefPtr>, refs: set<Ref>, p: RefPtr)
    requires Counted(ptrs, refs) && p in ptrs
    ensures p.obj != null ==> p.obj in refs && p.obj.refCount > 0 && !p.obj.deleted
    ensures forall r <- refs :: |Holders(ptrs - {p}, r)| == r.refCount - if p.obj == r then 1 else 0
  {
    assert ptrs == (ptrs - {p}) + {p};
    forall r <- refs ensures |Holders(ptrs - {p}, r)| == r.refCount - if p.obj == r then 1 else 0 {
      OneHolderMore(ptrs - {p}, p, r);
    }
    if p.obj != null { HolderCounts(ptrs, refs, p); }
  }

  lemma HolderCounts(ptrs: set<RefPtr>, refs: set<Ref>, p: RefPtr)
    requires Counted(ptrs, refs) && p in ptrs && p.obj != null
    ensures p.obj in refs && p.obj.refCount > 0 && !p.obj.deleted
  {
    assert p in Holders(ptrs, p.obj);
  }

  /** A new object owns the reference it was given. */
  lemma OneMoreOwned(refs: set<Ref>, live: map<nat, JsValue>, r: Ref)
    requires OwnedIn(refs, live) && r !in refs && r.refId !in live
    requires r.refId == 0 ==> r.value == Undefined
    ensures OwnedIn(refs + {r}, if r.refId == 0 then live else live[r.refId := r.value])
  {}

  class RefPtr {
    var obj: Ref?

    constructor Null(ghost ptrs: set<RefPtr>, ghost refs: set<Ref>)
      requires Counted(ptrs, refs)
      ensures obj == null && Counted(ptrs + {this}, refs)
    {
      obj := null;
      new;
      forall r <- refs ensures r.refCount == |Holders(ptrs + {this}, r)| { OneHolderMore(ptrs, this, r); }
    }

    /** From a plain pointer: to a new object, or to one that is being held anyway. */
    constructor Of(r: Ref, ghost ptrs: set<RefPtr>, ghost refs: set<Ref>)
      requires Counted(ptrs, refs)
      requires if r in refs then !r.deleted else r.refCount == 0 && !r.deleted
      modifies r`refCount
      ensures obj == r && r.refCount == old(r.refCount) + 1 && Counted(ptrs + {this}, refs + {r})
    {
      obj := r;
      new;
      if r !in refs { assert Holders(ptrs, r) == {}; }
      forall q <- refs + {r} ensures |Holders(ptrs + {this}, q)| == q.refCount + if q == r then 1 else 0 {
        OneHolderMore(ptrs, this, q);
      }
      obj.Retain();
    }

    constructor CopyOf(s: RefPtr, ghost ptrs: set<RefPtr>, ghost refs: set<Ref>)
      requires Counted(ptrs, refs) && s in ptrs
      modifies refs`refCount
      ensures obj == s.obj && Counted(ptrs + {this}, refs)
      ensures forall r <- refs :: r.refCount == old(r.refCount) + if r == obj then 1 else 0
    {
      obj := s.obj;
      new;
      if obj != null { HolderCounts(ptrs, refs, s); }
      forall r <- refs ensures |Holders(ptrs + {this}, r)| == r.refCount + if r == obj then 1 else 0 {
        OneHolderMore(ptrs, this, r);
      }
      if obj != null {
        obj.Retain();
      }
    }

    constructor MoveOf(s: RefPtr, ghost ptrs: set<RefPtr>, ghost refs: set<Ref>)
      requires Counted(ptrs, refs) && s in ptrs
      modifies s
      ensures obj == old(s.obj) && s.obj == null && Counted(ptrs + {this}, refs)
    {
      obj := s.obj;
      new;
      ghost var rest := ptrs - {s};
      assert ptrs == rest + {s} && ptrs + {this} == rest + {this} + {s};
      forall r <- refs ensures r.refCount == |Holders(rest, r)| + if obj == r then 1 else 0 {
        OneHolderMore(rest, s, r);
      }
      s.obj := null;
      forall r <- refs ensures r.refCount == |Holders(ptrs + {this}, r)| {
        OneHolderMore(rest, this, r);
        OneHolderMore(rest + {this}, s, r);
      }
    }

    method Swap(other: RefPtr, ghost ptrs: set<RefPtr>, ghost refs: set<Ref>)
      requires Counted(ptrs, refs) && this in ptrs && other in ptrs
      modifies this, other
      ensures obj == old(other.obj) && other.obj == old(obj) && Counted(ptrs, refs)
    {
      ghost var rest := ptrs - {this} - {other};
      if this != other {
        assert ptrs == rest + {this} + {other};
        forall r <- refs
          ensures r.refCount == |Holders(rest, r)| + (if obj == r then 1 else 0) + (if other.obj == r then 1 else 0)
        {
          OneHolderMore(rest, this, r);
          OneHolderMore(rest + {this}, other, r);
        }
      }
      var tmp := other.obj;
      other.obj := obj;
      obj := tmp;
      if this != other {
        forall r <- refs ensures r.refCount == |Holders(ptrs, r)| {
          OneHolderMore(rest, this, r);
          OneHolderMore(rest + {this}, other, r);
        }
      }
    }

    /** Gives up the hold on the object; the pointer still shows it but does not count any more. */
    method Release(ghost ptrs: set<RefPtr>, ghost refs: set<Ref>, ghost ctx: DukContext)
      requires World(ptrs, refs, ctx) && this in ptrs
      modifies refs`refCount, refs`deleted, ctx
      ensures World(ptrs - {this}, refs, ctx) && ctx.stack == old(ctx.stack)
      ensures forall r <- refs :: r.deleted <==> old(r.deleted) || (r == obj && old(r.refCount) == 1)
    {
      OneHolderLess(ptrs, refs, this);
      if obj != null {
        obj.Release();
        assert OwnedIn(refs, ctx.table.live);
      }
    }

    method Reset(ghost ptrs: set<RefPtr>, ghost refs: set<Ref>, ghost ctx: DukContext)
      requires World(ptrs, refs, ctx) && this in ptrs
      modifies this, refs`refCount, refs`deleted, ctx
      ensures obj == null && World(ptrs, refs, ctx) && ctx.stack == old(ctx.stack)
      ensures forall r <- refs :: r.deleted <==> old(r.deleted) || (r == old(obj) && old(r.refCount) == 1)
    {
      Release(ptrs, refs, ctx);
      obj := null;
      assert ptrs == (ptrs - {this}) + {this};
      forall r <- refs ensures r.refCount == |Holders(ptrs, r)| { OneHolderMore(ptrs - {this}, this, r); }
    }

    /** `*this = s`: the parameter is a copy, which is swapped in and destroyed. */
    method Assign(s: RefPtr, ghost ptrs: set<RefPtr>, ghost refs: set<Ref>, ghost ctx: DukContext)
      requires World(ptrs, refs, ctx) && this in ptrs && s in ptrs
      modifies this, refs`refCount, refs`deleted, ctx
      ensures obj == old(s.obj) && World(ptrs, refs, ctx) && ctx.stack == old(ctx.stack)
      ensures forall r <- refs ::
        r.deleted <==> old(r.deleted) || (r == old(obj) && r != obj && old(r.refCount) == 1)
    {
      var tmp := new RefPtr.CopyOf(s, ptrs, refs);
      Swap(tmp, ptrs + {tmp}, refs);
      tmp.Release(ptrs + {tmp}, refs, ctx);
      assert (ptrs + {tmp}) - {tmp} == ptrs;
    }
  }
  /** `new Ref(ctx)`: the value on top of the stack goes into the table, in a cell of its own. */
  method NewRef(ctx: DukContext, ghost refs: set<Ref>) returns (r: Ref)
    requires Owned(refs, ctx) && ctx.stack != [] && ctx.stack[|ctx.stack| - 1].Value?
    modifies ctx
    ensures fresh(r) && r.refCount == 0 && !r.deleted && r.value == old(ctx.stack[|ctx.stack| - 1]).v
    ensures ctx.stack == old(ctx.stack)[..|old(ctx.stack)| - 1]
    ensures Owned(refs + {r}, ctx)
  {
    ghost var live := ctx.table.live;
    ApplyIsSane(ctx.table, RefTable.Ref(ctx.stack[|ctx.stack| - 1].v));
    LiveIsPositive(ctx.table);
    r := new Ref(ctx);
    OneMoreOwned(refs, live, r);
  }

  /** `Ref::Ptr(new Ref(ctx))`: the new object is held by one pointer. */
  method MakeRef(ctx: DukContext, ghost ptrs: set<RefPtr>, ghost refs: set<Ref>) returns (p: RefPtr)
    requires World(ptrs, refs, ctx) && ctx.stack != [] && ctx.stack[|ctx.stack| - 1].Value?
    modifies ctx
    ensures fresh(p) && p.obj != null && fresh(p.obj) && p.obj.value == old(ctx.stack[|ctx.stack| - 1]).v
    ensures ctx.stack == old(ctx.stack)[..|old(ctx.stack)| - 1]
    ensures World(ptrs + {p}, refs + {p.obj}, ctx)
  {
    var r := NewRef(ctx, refs);
    p := new RefPtr.Of(r, ptrs, refs);
  }

  /** Whoever holds an object reads back the value it was made from. */
  method PushThrough(p: RefPtr, ghost ptrs: set<RefPtr>, ghost refs: set<Ref>, ctx: DukContext)
    requires World(ptrs, refs, ctx) && p in ptrs && p.obj != null
    modifies ctx`stack
    ensures ctx.stack == old(ctx.stack) + [Value(p.obj.value)]
  {
    HolderCounts(ptrs, refs, p);
    TableStaysSane(ctx.table, []);
    p.obj.Push();
  }
}
