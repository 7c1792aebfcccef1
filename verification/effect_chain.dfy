/** The calls a mixing channel makes into its collaborators (the audio
    source and the processors in its slot table), recorded as a trace. A
    processor is named by the slot number it occupies, or is about to occupy. */
module EffectChain {
  import opened OrderedKeys

  /** The address of the caller-owned sample buffer. */
  type BufferRef = nat

  datatype Call =
    | SourceProcess(buffer: BufferRef, sampleCount: nat)
    | ProcessorProcess(slot: nat, input: BufferRef, output: BufferRef, sampleCount: nat)
    | SourceSetSampleRate(rate: nat)
    | ProcessorSetSampleRate(slot: nat, rate: nat)

  /** Walking the slots in `order`, run every slot in `active` over `buffer`
      in place. */
  function ChainCalls(order: seq<nat>, active: set<nat>, buffer: BufferRef, sampleCount: nat): seq<Call>
  {
    if order == [] then []
    else
      var k := order[|order| - 1];
      ChainCalls(order[..|order| - 1], active, buffer, sampleCount)
        + (if k in active then [ProcessorProcess(k, buffer, buffer, sampleCount)] else [])
  }

  /** Extending the order by one slot extends the chain by that slot's run, if it is active. */
  lemma ChainCallsAppend(order: seq<nat>, k: nat, active: set<nat>, buffer: BufferRef, sampleCount: nat)
    ensures ChainCalls(order + [k], active, buffer, sampleCount)
         == ChainCalls(order, active, buffer, sampleCount)
            + (if k in active then [ProcessorProcess(k, buffer, buffer, sampleCount)] else [])
  {
    assert (order + [k])[..|order|] == order;
  }

  /** `calls` runs exactly the slots in `slots`, each once, in ascending slot
      order, each in place over `buffer` for `sampleCount` frames. */
  ghost predicate RunsInSlotOrder(calls: seq<Call>, slots: set<nat>, buffer: BufferRef, sampleCount: nat)
  {
    && (forall i :: 0 <= i < |calls| ==>
          && calls[i].ProcessorProcess?
          && calls[i].slot in slots
          && calls[i].input == buffer && calls[i].output == buffer
          && calls[i].sampleCount == sampleCount)
    && (forall i, j :: 0 <= i < j < |calls| ==> calls[i].slot < calls[j].slot)
    && (forall k :: k in slots ==> exists i :: 0 <= i < |calls| && calls[i].slot == k)
  }

  /** The slots of `order` that are in `active`. */
  function ActiveIn(order: seq<nat>, active: set<nat>): set<nat>
  {
    set k | k in order && k in active
  }

  /** An order that visits every key of the table visits every active slot. */
  lemma ActiveInAll(order: seq<nat>, keys: set<nat>, active: set<nat>)
    requires forall k :: k in order <==> k in keys
    requires active <= keys
    ensures ActiveIn(order, active) == active
  {
  }

  /** Running one more slot, larger than every slot run so far, keeps the
      runs in slot order. */
  lemma RunsExtend(calls: seq<Call>, slots: set<nat>, k: nat, buffer: BufferRef, sampleCount: nat)
    requires RunsInSlotOrder(calls, slots, buffer, sampleCount)
    requires forall x :: x in slots ==> x < k
    ensures RunsInSlotOrder(calls + [ProcessorProcess(k, buffer, buffer, sampleCount)], slots + {k}, buffer, sampleCount)
  {
    var more := calls + [ProcessorProcess(k, buffer, buffer, sampleCount)];
    forall x | x in slots + {k}
      ensures exists i :: 0 <= i < |more| && more[i].slot == x
    {
      if x == k {
        assert more[|calls|].slot == x;
      } else {
        var i :| 0 <= i < |calls| && calls[i].slot == x;
        assert more[i].slot == x;
      }
    }
  }

  /** Over an ascending order, the chain runs exactly the active slots that
      the order visits, smallest slot first. */
  lemma {:induction false} ChainCallsInOrder(order: seq<nat>, active: set<nat>, buffer: BufferRef, sampleCount: nat)
    requires Ascending(order)
    ensures RunsInSlotOrder(ChainCalls(order, active, buffer, sampleCount),
                            ActiveIn(order, active), buffer, sampleCount)
  {
    if order != [] {
      var front, last := order[..|order| - 1], order[|order| - 1];
      var before, slotsBefore := ChainCalls(front, active, buffer, sampleCount), ActiveIn(front, active);
      assert Ascending(front);
      ChainCallsInOrder(front, active, buffer, sampleCount);
      assert forall i :: 0 <= i < |front| ==> front[i] < last;
      assert order == front + [last];
      if last in active {
        var run := ProcessorProcess(last, buffer, buffer, sampleCount);
        assert ActiveIn(order, active) == slotsBefore + {last};
        assert ChainCalls(order, active, buffer, sampleCount) == before + [run];
        RunsExtend(before, slotsBefore, last, buffer, sampleCount);
      } else {
        assert ActiveIn(order, active) == slotsBefore;
        assert ChainCalls(order, active, buffer, sampleCount) == before;
      }
    }
  }

  /** Walking the slots in `order`, hand `rate` to every processor. */
  function RateCalls(order: seq<nat>, rate: nat): seq<Call>
  {
    if order == [] then []
    else RateCalls(order[..|order| - 1], rate) + [ProcessorSetSampleRate(order[|order| - 1], rate)]
  }

  /** Extending the order by one slot extends the fan-out by that slot. */
  lemma RateCallsAppend(order: seq<nat>, k: nat, rate: nat)
    ensures RateCalls(order + [k], rate) == RateCalls(order, rate) + [ProcessorSetSampleRate(k, rate)]
  {
    assert (order + [k])[..|order|] == order;
  }

  /** The fan-out reaches every slot of the order once, in that order, with
      the same rate. */
  lemma {:induction false} RateCallsReachAll(order: seq<nat>, rate: nat)
    ensures |RateCalls(order, rate)| == |order|
    ensures forall i :: 0 <= i < |order| ==> RateCalls(order, rate)[i] == ProcessorSetSampleRate(order[i], rate)
    ensures forall k :: k in order ==> ProcessorSetSampleRate(k, rate) in RateCalls(order, rate)
  {
    if order != [] {
      RateCallsReachAll(order[..|order| - 1], rate);
    }
    forall k | k in order
      ensures ProcessorSetSampleRate(k, rate) in RateCalls(order, rate)
    {
      var i :| 0 <= i < |order| && order[i] == k;
      assert RateCalls(order, rate)[i] == ProcessorSetSampleRate(k, rate);
    }
  }
}
