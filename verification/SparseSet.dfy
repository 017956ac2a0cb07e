/** The dense-array slot set and the index-to-state map that it implements. */
module SparseSets {
  import opened Handles

  /** What a slot set means: a state and a generation for every slot. */
  datatype Slots = Slots(states: seq<nat>, gens: seq<Word32>)

  ghost predicate WellFormed(m: Slots)
  {
    |m.states| == |m.gens| < WORD
  }

  ghost predicate Live(m: Slots, h: Handle)
  {
    h.idx < |m.gens| && m.gens[h.idx] == h.gen
  }

  ghost function Moved(m: Slots, who: nat, state: nat): (r: Slots)
    requires who < |m.states|
  {
    m.(states := m.states[who := state])
  }

  ghost function Recycled(m: Slots, who: nat): (r: Slots)
    requires WellFormed(m) && who < |m.states|
  {
    m.(states := m.states[who := 0], gens := m.gens[who := NextGen(m.gens[who])])
  }

  class SparseSet {
    const n: nat
    const stateCount: nat
    const where: array<nat>
    const generation: array<Word32>
    const state: array<nat>
    const dense: array<nat>
    const cursor: array<nat>

    ghost predicate Shape()
      reads this
    {
      && n < WORD && stateCount >= 1
      && where.Length == generation.Length == state.Length == dense.Length == n
      && cursor.Length == stateCount + 1
      && where != state && where != dense && where != cursor
      && state != dense && state != cursor && dense != cursor
      && generation as object != where && generation as object != state
      && generation as object != dense && generation as object != cursor
    }

    /** dense is a permutation and where its inverse. */
    ghost predicate Permutation()
      requires Shape()
      reads this, where, dense
    {
      && (forall p :: 0 <= p < n ==> dense[p] < n && where[dense[p]] == p)
      && (forall i :: 0 <= i < n ==> where[i] < n && dense[where[i]] == i)
    }

    ghost predicate CursorsOrdered()
      requires Shape()
      reads this, cursor
    {
      && cursor[0] == 0 && cursor[stateCount] == n
      && (forall s, t :: 0 <= s <= t <= stateCount ==> cursor[s] <= cursor[t])
    }

    /** Slot i lies in the stretch of dense that belongs to its state. */
    ghost predicate Partitioned()
      requires Shape()
      reads this, where, state, cursor
    {
      forall i :: 0 <= i < n ==>
        state[i] < stateCount && cursor[state[i]] <= where[i] < cursor[state[i] + 1]
    }

    ghost predicate Valid()
      reads this, where, generation, state, dense, cursor
    {
      Shape() && Permutation() && CursorsOrdered() && Partitioned()
    }

    ghost function View(): (m: Slots)
      reads this, state, generation
    {
      Slots(state[..], generation[..])
    }

    constructor (n: nat, stateCount: nat)
      requires n < WORD && stateCount >= 1
      ensures Valid() && this.n == n && this.stateCount == stateCount
      ensures |View().states| == |View().gens| == n
      ensures forall i :: 0 <= i < n ==> View().states[i] == 0 && View().gens[i] == 0
      ensures fresh(where) && fresh(generation) && fresh(state) && fresh(dense) && fresh(cursor)
    {
      this.n := n;
      this.stateCount := stateCount;
      var w := Iota(n);
      var d := Iota(n);
      var c := Cursors(n, stateCount);
      var g := new Word32[n](_ => 0);
      var st := new nat[n](_ => 0);
      where, dense, cursor, generation, state := w, d, c, g, st;
    }

    static method Iota(n: nat) returns (a: array<nat>)
      ensures fresh(a) && a.Length == n && forall i :: 0 <= i < n ==> a[i] == i
    {
      a := new nat[n];
      for i := 0 to n
        invariant forall j :: 0 <= j < i ==> a[j] == j
      {
        a[i] := i;
      }
    }

    static method Cursors(n: nat, stateCount: nat) returns (c: array<nat>)
      ensures fresh(c) && c.Length == stateCount + 1 && c[0] == 0
      ensures forall s :: 1 <= s <= stateCount ==> c[s] == n
    {
      c := new nat[stateCount + 1];
      for s := 0 to stateCount + 1
        invariant forall t :: 0 <= t < s ==> c[t] == n
      {
        c[s] := n;
      }
      c[0] := 0;
    }

    predicate IsValid(raw: Word64)
      requires Shape()
      reads this, generation, state
      ensures IsValid(raw) <==> Live(View(), Decode(raw))
    {
      var h := Decode(raw);
      h.idx < n && generation[h.idx] == h.gen
    }

    function GetHandle(who: nat): (raw: Word64)
      requires Shape() && who < n
      reads this, generation
      ensures Decode(raw) == Handle(who, generation[who])
    {
      EncodeDecode(Handle(who, generation[who]));
      Encode(Handle(who, generation[who]))
    }

    /** The valid words are exactly those that GetHandle gives out, one for each slot. */
    lemma ValidIffIssued(raw: Word64)
      requires Shape()
      ensures IsValid(raw) <==> exists who: nat :: who < n && GetHandle(who) == raw
    {
      DecodeEncode(raw);
      if IsValid(raw) {
        assert GetHandle(Decode(raw).idx) == raw;
      }
    }

    /** The state of a live handle; the source answers the all-ones word for a dead one. */
    function GetState(raw: Word64): (r: int)
      requires Valid()
      reads this, where, generation, state, dense, cursor
      ensures r == if IsValid(raw) then View().states[Decode(raw).idx] else INVALID_HANDLE
    {
      if IsValid(raw) then state[Decode(raw).idx] else INVALID_HANDLE
    }

    /** Exchanges two positions of dense and repairs where. */
    method SwapPositions(p: nat, q: nat)
      requires Shape() && Permutation() && p < n && q < n
      modifies where, dense
      ensures Permutation()
      ensures dense[q] == old(dense[p]) && dense[p] == old(dense[q])
      ensures forall r :: 0 <= r < n && r != p && r != q ==> dense[r] == old(dense[r])
      ensures forall i :: 0 <= i < n ==>
        where[i] == if old(where[i]) == p then q else if old(where[i]) == q then p else old(where[i])
    {
      dense[p], dense[q] := dense[q], dense[p];
      where[dense[p]] := p;
      where[dense[q]] := q;
    }

    method IncrementState(raw: Word64) returns (ok: bool)
      requires Valid() && Decode(raw).idx < n
      modifies where, state, dense, cursor
      ensures Valid()
      ensures ok <==> old(state[Decode(raw).idx]) + 1 < stateCount
      ensures ok ==> View() == Moved(old(View()), Decode(raw).idx, old(state[Decode(raw).idx]) + 1)
      ensures !ok ==> View() == old(View())
    {
      var who := Decode(raw).idx;
      var current := state[who];
      if current >= stateCount - 1 {
        return false;
      }
      var next := current + 1;
      var at := where[who];
      var swapWith := cursor[next] - 1;
      SwapPositions(at, swapWith);
      cursor[next] := cursor[next] - 1;
      state[who] := next;
      return true;
    }

    method DecrementState(raw: Word64) returns (ok: bool)
      requires Valid() && Decode(raw).idx < n
      modifies where, state, dense, cursor
      ensures Valid()
      ensures ok <==> old(state[Decode(raw).idx]) > 0
      ensures ok ==> View() == Moved(old(View()), Decode(raw).idx, old(state[Decode(raw).idx]) - 1)
      ensures !ok ==> View() == old(View())
    {
      var who := Decode(raw).idx;
      var current := state[who];
      if current == 0 {
        return false;
      }
      var prev := current - 1;
      var at := where[who];
      var swapWith := cursor[current];
      SwapPositions(at, swapWith);
      cursor[current] := cursor[current] + 1;
      state[who] := prev;
      assert CursorsOrdered();
      assert state[..] == old(state[..])[who := prev];
      return true;
    }

    method MoveToState(raw: Word64, newState: nat) returns (ok: bool)
      requires Valid()
      modifies where, state, dense, cursor
      ensures Valid()
      ensures ok <==> newState < stateCount && old(Live(View(), Decode(raw)))
      ensures View() == if ok then Moved(old(View()), Decode(raw).idx, newState) else old(View())
    {
      if newState >= stateCount {
        return false;
      }
      if !IsValid(raw) {
        return false;
      }
      var who := Decode(raw).idx;
      while state[who] < newState
        invariant Valid()
        invariant View() == Moved(old(View()), who, state[who])
        decreases newState - state[who]
      {
        var stepped := IncrementState(raw);
        if !stepped {
          return false;
        }
      }
      while state[who] > newState
        invariant Valid() && state[who] >= newState
        invariant View() == Moved(old(View()), who, state[who])
        decreases state[who]
      {
        var stepped := DecrementState(raw);
        if !stepped {
          return false;
        }
      }
      return true;
    }

    method Push(raw: Word64) returns (ok: bool)
      requires Valid()
      modifies where, generation, state, dense, cursor
      ensures Valid()
      ensures ok <==> old(Live(View(), Decode(raw)))
      ensures View() == if ok then Recycled(old(View()), Decode(raw).idx) else old(View())
    {
      if !IsValid(raw) {
        return false;
      }
      var who := Decode(raw).idx;
      var moved := MoveToState(raw, 0);
      generation[who] := NextGen(generation[who]);
      return true;
    }

    /** Leases an idle slot, if there is one, and puts it in the requested state. */
    method Pop(newState: nat) returns (raw: Word64)
      requires Valid()
      modifies where, state, dense, cursor
      ensures Valid()
      ensures raw == INVALID_HANDLE <==>
        newState >= stateCount || forall i :: 0 <= i < n ==> old(state[i]) != 0
      ensures raw == INVALID_HANDLE ==> View() == old(View())
      ensures raw != INVALID_HANDLE ==>
        && old(Live(View(), Decode(raw))) && old(View()).states[Decode(raw).idx] == 0
        && View() == Moved(old(View()), Decode(raw).idx, newState)
    {
      if newState >= stateCount {
        return INVALID_HANDLE;
      }
      if cursor[0] == cursor[1] {
        return INVALID_HANDLE;
      }
      var who := dense[cursor[0]];
      assert state[who] == 0;
      raw := GetHandle(who);
      assert raw != INVALID_HANDLE by {
        assert Decode(INVALID_HANDLE).idx == WORD - 1;
      }
      var moved := MoveToState(raw, newState);
    }

    /** Every slot in the given state, once, by its live handle. */
    method GetIndicesInState(wanted: nat) returns (r: seq<Word64>)
      requires Valid()
      ensures forall k :: 0 <= k < |r| ==> Live(View(), Decode(r[k])) && View().states[Decode(r[k]).idx] == wanted
      ensures forall j, k :: 0 <= j < k < |r| ==> Decode(r[j]).idx != Decode(r[k]).idx
      ensures forall i :: 0 <= i < n && wanted == state[i] ==> GetHandle(i) in r
    {
      r := [];
      if wanted >= stateCount {
        return;
      }
      for p := cursor[wanted] to cursor[wanted + 1]
        invariant |r| == p - cursor[wanted]
        invariant forall k :: 0 <= k < |r| ==> r[k] == GetHandle(dense[cursor[wanted] + k])
      {
        r := r + [GetHandle(dense[p])];
      }
      forall p | cursor[wanted] <= p < cursor[wanted + 1]
        ensures p < n && state[dense[p]] == wanted
      {
        PositionHasState(p, wanted);
      }
      forall i | 0 <= i < n && wanted == state[i]
        ensures GetHandle(i) in r
      {
        assert r[where[i] - cursor[wanted]] == GetHandle(dense[where[i]]);
      }
    }

    /** A position inside the stretch of a state holds a slot in that state. */
    lemma PositionHasState(p: nat, s: nat)
      requires Valid() && s < stateCount && cursor[s] <= p < cursor[s + 1]
      ensures p < n && state[dense[p]] == s
    {
      assert cursor[s + 1] <= cursor[stateCount];
    }
  }
}
