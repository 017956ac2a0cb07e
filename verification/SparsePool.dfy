/** The pool and its counted pointers as they are stored: slot arrays, a counter per slot and the
    raw handle in every pointer variable. Every operation does what LeasePool says. */
module SparsePools {
  import opened Handles
  import opened SparseSets
  import LP = LeasePool

  class SparsePool<A(==)> {
    const slots: SparseSet
    const refCount: array<nat>
    /** Pointers stored inside the object of each slot, for its deleter. */
    const owned: seq<seq<A>>
    /** The handle in each pointer variable whose pool is not null. */
    var ptrs: map<A, Word64>

    ghost predicate Valid()
      reads this, refCount, slots, slots.where, slots.generation, slots.state, slots.dense, slots.cursor
    {
      && slots.Valid() && refCount.Length == slots.n == |owned|
      && refCount != slots.where && refCount != slots.state && refCount != slots.dense && refCount != slots.cursor
      && refCount as object != slots.generation
    }

    ghost function View(): (p: LP.Pool<A>)
      reads this, refCount, slots, slots.state, slots.generation
    {
      LP.Pool(slots.View(), refCount[..], Decoded(ptrs), owned)
    }

    static ghost function Decoded(m: map<A, Word64>): map<A, Handle>
    {
      map a | a in m :: Decode(m[a])
    }

    constructor (n: nat, stateCount: nat, owned: seq<seq<A>>)
      requires n < WORD && stateCount >= 1 && |owned| == n
      ensures Valid() && slots.stateCount == stateCount && LP.WF(View())
      ensures View().ptrs == map[] && View().owned == owned
      ensures forall i :: 0 <= i < n ==> View().refs[i] == 0 && View().slots.states[i] == 0
    {
      var s := new SparseSet(n, stateCount);
      var r := new nat[n](_ => 0);
      slots, refCount, ptrs := s, r, map[];
      this.owned := owned;
    }

    method AddRef(raw: Word64) returns (ok: bool)
      requires Valid()
      modifies refCount
      ensures Valid() && ok == Live(old(View()).slots, Decode(raw))
      ensures View() == LP.AddRef(old(View()), Decode(raw))
    {
      if !slots.IsValid(raw) {
        return false;
      }
      var idx := Decode(raw).idx;
      refCount[idx] := refCount[idx] + 1;
      return true;
    }

    /** fetch_sub on a counter; answers the value before. */
    method FetchSub(idx: nat) returns (before: nat)
      requires Valid() && idx < slots.n
      modifies refCount
      ensures Valid() && before == old(refCount[idx]) && View() == LP.DecRef(old(View()), idx)
    {
      before := refCount[idx];
      refCount[idx] := if before == 0 then LP.COUNT_MAX else before - 1;
    }

    method Null(a: A)
      requires Valid()
      modifies this`ptrs
      ensures Valid() && View() == old(View()).(ptrs := old(View()).ptrs - {a})
    {
      ptrs := ptrs - {a};
      assert View().ptrs == old(View()).ptrs - {a};
    }

    method Set(a: A, raw: Word64)
      requires Valid()
      modifies this`ptrs
      ensures Valid() && View() == old(View()).(ptrs := old(View()).ptrs[a := Decode(raw)])
    {
      ptrs := ptrs[a := raw];
      assert View().ptrs == old(View()).ptrs[a := Decode(raw)];
    }

    /** The deleter: resets the pointers stored inside the object of slot idx. */
    method Delete(inside: seq<A>)
      requires Valid()
      modifies this`ptrs, refCount
      ensures Valid() && View() == LP.InnerResets(old(View()), inside)
    {
      var k := 0;
      assert inside[0..] == inside;
      while k < |inside|
        invariant 0 <= k <= |inside| && Valid()
        invariant LP.InnerResets(View(), inside[k..]) == LP.InnerResets(old(View()), inside)
      {
        var a := inside[k];
        assert inside[k..][0] == a && inside[k..][1..] == inside[k + 1..];
        if a in ptrs && slots.IsValid(ptrs[a]) {
          var before := FetchSub(Decode(ptrs[a]).idx);
          Null(a);
        }
        k := k + 1;
      }
    }

    /** Answers whether this was the last reference. */
    method ReleaseRef(raw: Word64) returns (last: bool)
      requires Valid()
      modifies this`ptrs, refCount, slots.where, slots.generation, slots.state, slots.dense, slots.cursor
      ensures Valid() && last == LP.Last(old(View()), Decode(raw))
      ensures View() == LP.ReleaseRef(old(View()), Decode(raw))
    {
      if !slots.IsValid(raw) {
        return false;
      }
      var idx := Decode(raw).idx;
      var before := FetchSub(idx);
      if before == 1 {
        Delete(owned[idx]);
        var pushed := slots.Push(raw);
        return true;
      }
      return false;
    }

    /** Acquire into fresh storage: a null pointer when the state does not exist or nothing is idle. */
    method Acquire(a: A, newState: nat) returns (raw: Word64)
      requires Valid()
      modifies this`ptrs, refCount, slots.where, slots.state, slots.dense, slots.cursor
      ensures Valid()
      ensures raw == INVALID_HANDLE <==>
        newState >= slots.stateCount || forall i :: 0 <= i < slots.n ==> old(slots.state[i]) != 0
      ensures raw == INVALID_HANDLE ==> View() == old(View()).(ptrs := old(View()).ptrs - {a})
      ensures raw != INVALID_HANDLE ==>
        && Live(old(View()).slots, Decode(raw)) && old(View()).slots.states[Decode(raw).idx] == 0
        && View() == LP.Acquire(old(View()), a, Decode(raw).idx, newState)
    {
      raw := slots.Pop(newState);
      if raw == INVALID_HANDLE {
        Null(a);
        return;
      }
      Set(a, raw);
      var ok := AddRef(raw);
    }

    method CopyConstruct(a: A, b: A)
      requires Valid()
      modifies this`ptrs, refCount
      ensures Valid() && View() == LP.CopyConstruct(old(View()), a, b)
    {
      if b in ptrs {
        var raw := ptrs[b];
        Set(a, raw);
        var ok := AddRef(raw);
      } else {
        Null(a);
      }
    }

    method CopyAssign(a: A, b: A)
      requires Valid()
      modifies this`ptrs, refCount, slots.where, slots.generation, slots.state, slots.dense, slots.cursor
      ensures Valid() && View() == LP.CopyAssign(old(View()), a, b)
    {
      if a == b {
        return;
      }
      var had := a in ptrs;
      var current := if had then ptrs[a] else INVALID_HANDLE;
      CopyConstruct(a, b);
      if had {
        var last := ReleaseRef(current);
      }
    }

    method MoveConstruct(a: A, b: A)
      requires Valid()
      modifies this`ptrs
      ensures Valid() && View() == LP.MoveConstruct(old(View()), a, b)
    {
      if b in ptrs {
        var raw := ptrs[b];
        Null(b);
        Set(a, raw);
      } else {
        Null(a);
      }
    }

    method MoveAssign(a: A, b: A)
      requires Valid()
      modifies this`ptrs, refCount, slots.where, slots.generation, slots.state, slots.dense, slots.cursor
      ensures Valid() && View() == LP.MoveAssign(old(View()), a, b)
    {
      if a == b {
        return;
      }
      if a in ptrs {
        var last := ReleaseRef(ptrs[a]);
      }
      MoveConstruct(a, b);
    }

    method Destroy(a: A)
      requires Valid()
      modifies this`ptrs, refCount, slots.where, slots.generation, slots.state, slots.dense, slots.cursor
      ensures Valid() && View() == LP.Destroy(old(View()), a)
    {
      if a in ptrs && slots.IsValid(ptrs[a]) {
        var last := ReleaseRef(ptrs[a]);
      }
      Null(a);
    }

    method Reset(a: A) returns (last: bool)
      requires Valid()
      modifies this`ptrs, refCount, slots.where, slots.generation, slots.state, slots.dense, slots.cursor
      ensures Valid() && View() == LP.Reset(old(View()), a)
      ensures last == (LP.Counted(old(View()), a) && LP.Last(old(View()), old(View()).ptrs[a]))
    {
      last := false;
      if a in ptrs && slots.IsValid(ptrs[a]) {
        last := ReleaseRef(ptrs[a]);
        if !last {
          Null(a);
        }
      }
    }
  }
}
