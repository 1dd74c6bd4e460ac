/** The packed hash on the GPU: threads in any order, first over the inputs and then over the outputs, which
  * may be the same buffer.
  */
module Pc2Kernels {
  import opened RingMath
  import opened Pc2Blocks

  /** The first kernel's element of a thread: the domain tag, or an input of the thread's hash. */
  function Loads(input: seq<int>, tag: int, arity: nat, tid: nat): int {
    SlotIsMod(tid, arity + 1);
    var hash, i := tid / (arity + 1), tid % (arity + 1);
    if i == 0 then tag else Element(input, hash * arity + (i - 1))
  }

  /** Every thread runs, in some order. */
  ghost predicate AllThreads(order: seq<nat>, n: nat) {
    (forall i :: 0 <= i < |order| ==> order[i] < n) && forall t: nat :: t < n ==> t in order
  }

  /** The first kernel: one thread for each element of the state, domain tag included. */
  method LoadStates(input: array<int>, aux: array<int>, tag: int, arity: nat, order: seq<nat>)
    requires aux != input && AllThreads(order, aux.Length)
    modifies aux
    ensures forall t: nat :: t < aux.Length ==> aux[t] == Loads(input[..], tag, arity, t)
  {
    for k := 0 to |order|
      invariant forall i :: 0 <= i < k ==> aux[order[i]] == Loads(input[..], tag, arity, order[i])
    {
      hide Loads;
      aux[order[k]] := Loads(input[..], tag, arity, order[k]);
    }
    forall t: nat | t < aux.Length ensures aux[t] == Loads(input[..], tag, arity, t) {
      assert t in order;
      var i :| 0 <= i < |order| && order[i] == t;
    }
  }

  /** The state of a hash: the elements of its own threads. */
  function State(aux: seq<int>, arity: nat, hash: nat): (r: seq<int>)
    ensures |r| == arity + 1
  {
    seq(arity + 1, i requires 0 <= i < arity + 1 => Element(aux, hash * (arity + 1) + i))
  }

  /** The last kernel: one thread for each hash. What the kernels between make of a state is the hash. */
  method StoreHashes(aux: array<int>, out: array<int>, g: seq<int> -> int, arity: nat, hashes: nat, order: seq<nat>)
    requires aux != out && hashes <= out.Length && AllThreads(order, hashes)
    modifies out
    ensures forall h: nat :: h < hashes ==> out[h] == g(State(aux[..], arity, h))
    ensures forall i :: hashes <= i < out.Length ==> out[i] == old(out[i])
  {
    for k := 0 to |order|
      invariant forall i :: 0 <= i < k ==> out[order[i]] == g(State(aux[..], arity, order[i]))
      invariant forall i :: hashes <= i < out.Length ==> out[i] == old(out[i])
    {
      hide State;
      out[order[k]] := g(State(aux[..], arity, order[k]));
    }
    forall h: nat | h < hashes ensures out[h] == g(State(aux[..], arity, h)) {
      assert h in order;
      var i :| 0 <= i < |order| && order[i] == h;
    }
  }

  lemma StatePlace(arity: nat, hash: nat, i: nat)
    requires i <= arity
    ensures
      var tid := hash * (arity + 1) + i;
      tid / (arity + 1) == hash && tid % (arity + 1) == i
  {
    EuclidUnique(hash * (arity + 1) + i, arity + 1, hash, i);
  }

  /** Once all elements are loaded, a hash's state is the domain tag and then the hash's inputs. */
  lemma StateLoaded(input: seq<int>, aux: seq<int>, tag: int, arity: nat, hashes: nat, h: nat)
    requires |aux| == hashes * (arity + 1) && h < hashes
    requires forall t: nat :: t < |aux| ==> aux[t] == Loads(input, tag, arity, t)
    ensures State(aux, arity, h) == [tag] + Packed(input, h, arity)
  {
    hide Loads;
    forall i: nat | i < arity + 1 ensures State(aux, arity, h)[i] == ([tag] + Packed(input, h, arity))[i] {
      InBlock(hashes, arity + 1, h, i);
      LoadedAt(input, tag, arity, h, i);
    }
  }

  lemma LoadedAt(input: seq<int>, tag: int, arity: nat, h: nat, i: nat)
    requires i <= arity
    ensures Loads(input, tag, arity, h * (arity + 1) + i)
            == if i == 0 then tag else Element(input, h * arity + (i - 1))
  {
    StatePlace(arity, h, i);
  }

  /** Main result: whatever order the threads run in, a hash over its own buffer reads nothing that it has
    * overwritten, because the tag and all inputs are in the states before the first output is stored.
    */
  method HashInPlace(u: Setup, g: seq<int> -> int, tag: int, buffer: array<int>, aux: array<int>, loads: seq<nat>,
                     stores: seq<nat>)
    requires u.Ok() && aux != buffer && aux.Length == u.sectors * u.group * (u.arity + 1)
    requires u.sectors * u.group <= buffer.Length
    requires AllThreads(loads, aux.Length) && AllThreads(stores, u.sectors * u.group)
    modifies buffer, aux
    ensures buffer[..] == Over(old(buffer[..]), HashPacked(u, inputs => g([tag] + inputs), old(buffer[..])))
  {
    hide Loads, State;
    var hashes := u.sectors * u.group;
    ghost var before := buffer[..];
    LoadStates(buffer, aux, tag, u.arity, loads);
    ghost var states := aux[..];
    forall h: nat | h < hashes ensures State(states, u.arity, h) == [tag] + Packed(before, h, u.arity) {
      StateLoaded(before, states, tag, u.arity, hashes, h);
    }
    StoreHashes(aux, buffer, g, u.arity, hashes, stores);
    assert buffer[..hashes] == HashPacked(u, inputs => g([tag] + inputs), before);
    assert buffer[hashes..] == before[hashes..];
  }
}
