/** Inputs on which the tree builders reach in front of their buffers. */
module TreeFailures {
  import opened RingMath
  import opened TreeRows
  import opened TreeChunks
  import opened TreeBuilding

  lemma EightPowers()
    ensures Pow(8, 1) == 8 && Pow(8, 2) == 64 && Pow(8, 3) == 512 && Pow(8, 4) == 4096
  {
    PowNext(8, 0);
    PowNext(8, 1);
    PowNext(8, 2);
    PowNext(8, 3);
  }

  /** 128 threads make 512 chunks, 129 threads 4096. */
  lemma ManyChunks()
    ensures TopLevels(8, 128, 3) && TopLevels(8, 129, 4)
  {
    EightPowers();
    hide Pow;
  }

  /** An 8 MiB sector's tree R has 8^6 leaves and discards two rows. On 128 threads its chunks have 512
    * leaves, so their last row is the first stored one, and the root comes out.
    */
  method EightMiB(hash: seq<int> -> int, out: array<int>, input: array<int>, order: seq<nat>)
    returns (r: Outcome)
    requires input != out && input.Length >= Pow(8, 6) && out.Length >= Offset(8, 6, 3, 7)
    requires forall i, j :: 0 <= i < j < |order| ==> order[i] != order[j]
    requires forall c :: c in order <==> 0 <= c < Pow(8, 3)
    modifies out
    ensures
      var leaves := input[..Pow(8, 6)];
      |Row(hash, 8, leaves, 6, 6)| == 1 && r == Root(Row(hash, 8, leaves, 6, 6)[0])
  {
    hide Pow, Offset, Row, Stored;
    ManyChunks();
    var builder := new TreeBuilder(1, 8, 2, hash, hash);
    r := builder.BuildTreeParallel(Pow(8, 6), out, input, 128, false, false, order, 6, 3);
  }

  /** An 8 MiB sector's tree R has 8^6 leaves and discards two rows. On 129 threads its chunks have 64
    * leaves, so their last row is a discarded one, and whatever the leaves are the merge would start in front
    * of the buffer.
    */
  method EightMiBOnManyThreads(hash: seq<int> -> int, out: array<int>, input: array<int>, order: seq<nat>)
    returns (r: Outcome)
    requires input != out && input.Length >= Pow(8, 6) && out.Length >= Offset(8, 6, 3, 7)
    requires forall i, j :: 0 <= i < j < |order| ==> order[i] != order[j]
    requires forall c :: c in order <==> 0 <= c < Pow(8, 4)
    modifies out
    ensures r == BeforeBuffer
  {
    hide Pow, Offset, Row, Stored;
    ManyChunks();
    var builder := new TreeBuilder(1, 8, 2, hash, hash);
    r := builder.BuildTreeParallel(Pow(8, 6), out, input, 129, false, false, order, 6, 4);
  }

  /** With as many discarded rows as levels nothing is stored, and the node in front of the cursor is not in
    * the buffer.
    */
  method OneLevelDiscarded(hash: seq<int> -> int, out: array<int>, input: array<int>) returns (r: Outcome)
    requires input != out && input.Length == 8
    modifies out
    ensures r == BeforeBuffer
  {
    EightPowers();
    assert Offset(8, 1, 2, 2) == 0;
    hide Pow, Offset, Row, Stored;
    var builder := new TreeBuilder(1, 8, 1, hash, hash);
    r := builder.BuildTree(8, out, 0, input, 0, false, false, 1);
  }
}
