/** A mixing channel: the per-track node of the audio graph. It wraps one
    upstream audio source, keeps a gain level and a balance per stream of
    that source, and runs the source's output through an ordered chain of
    effect processors. */
module Mixer {
  import opened OrderedKeys
  import opened StreamMaps
  import opened EffectChain

  /** The upstream producer, shared with other owners. Its channel count may
      change at any time; what it does with the calls the channel makes into it
      is not part of this model. */
  class AudioSource {
    var channelsCount: nat

    constructor (channelsCount: nat)
      ensures this.channelsCount == channelsCount
    {
      this.channelsCount := channelsCount;
    }
  }

  /** An effect. Its stream count is fixed per instance; it marks itself
      active or inactive. */
  class AudioProcessor {
    const streamCount: nat
    var active: bool

    constructor (streamCount: nat, active: bool)
      ensures this.streamCount == streamCount && this.active == active
    {
      this.streamCount := streamCount;
      this.active := active;
    }
  }

  class MixerChannel {
    var source: AudioSource?
    /** Gain per stream index. */
    var level: map<nat, real>
    /** Balance per stream index. */
    var balance: map<nat, Complex>
    /** The effect chain, by slot number; run in ascending slot order. */
    var processorList: map<nat, AudioProcessor>
    var active: bool
    var sampleRate: nat
    /** Every source whose channel-count notification reaches this channel.
        Installing a new source does not drop the previous subscriptions. */
    var subscriptions: set<AudioSource>

    /** An unconfigured channel: no source, empty tables, no processors. */
    constructor ()
      ensures source == null && subscriptions == {}
      ensures level == map[] && balance == map[] && processorList == map[]
    {
      source := null;
      level := map[];
      balance := map[];
      processorList := map[];
      subscriptions := {};
    }

    /** The source's channel count; 0 when no source is installed (the
        assertion-failure path). */
    function AudioChannelsCount(): (n: nat)
      reads this, source
      ensures source == null ==> n == 0
      ensures source != null ==> n == source.channelsCount
    {
      if source == null then 0 else source.channelsCount
    }

    /** Re-run reconciliation only when the level table's size disagrees with
        the source's channel count. With no source and an empty table there is
        nothing to do; with no source and a non-empty table the source would
        dereference the missing source. */
    method CheckStreams()
      requires source != null || |level| == 0
      modifies this`level, this`balance
      ensures AudioChannelsCount() == |old(level)| ==> level == old(level) && balance == old(balance)
      ensures AudioChannelsCount() != |old(level)| ==>
        && level == ReconciledLevels(old(level), AudioChannelsCount())
        && balance == ReconciledBalances(old(balance), AudioChannelsCount())
    {
      if AudioChannelsCount() != |level| {
        UpdateBalanceLevelMaps();
      }
    }

    /** The slots of the chain whose processor currently reports itself active. */
    ghost function ActiveSlots(): (slots: set<nat>)
      reads this, processorList.Values
    {
      set k | k in processorList && processorList[k].active
    }

    /** Pull `sampleCount` frames from the source into `buffer`, then run every
        active processor over `buffer` in place, in ascending slot order. With
        no source nothing is called. */
    method Process(buffer: BufferRef, sampleCount: nat) returns (calls: seq<Call>)
      ensures source == null ==> calls == []
      ensures source != null ==>
        calls == [SourceProcess(buffer, sampleCount)]
                 + ChainCalls(SortedKeys(processorList.Keys), ActiveSlots(), buffer, sampleCount)
      ensures source != null ==>
        && |calls| >= 1 && calls[0] == SourceProcess(buffer, sampleCount)
        && RunsInSlotOrder(calls[1..], ActiveSlots(), buffer, sampleCount)
    {
      if source == null {
        return [];
      }
      calls := [SourceProcess(buffer, sampleCount)];
      var remaining := processorList.Keys;
      ghost var done: seq<nat> := [];
      while remaining != {}
        invariant remaining <= processorList.Keys
        invariant done + SortedKeys(remaining) == SortedKeys(processorList.Keys)
        invariant calls == [SourceProcess(buffer, sampleCount)] + ChainCalls(done, ActiveSlots(), buffer, sampleCount)
        decreases remaining
      {
        MinExists(remaining);
        var k :| IsMin(k, remaining);
        SortedKeysStep(remaining, k);
        ChainCallsAppend(done, k, ActiveSlots(), buffer, sampleCount);
        assert (done + [k]) + SortedKeys(remaining - {k}) == done + SortedKeys(remaining);
        if processorList[k].active {
          calls := calls + [ProcessorProcess(k, buffer, buffer, sampleCount)];
        }
        done := done + [k];
        remaining := remaining - {k};
      }
      assert done == SortedKeys(processorList.Keys);
      SortedKeysSpec(processorList.Keys);
      ghost var slots := ActiveSlots();
      ChainCallsInOrder(done, slots, buffer, sampleCount);
      ActiveInAll(done, processorList.Keys, slots);
      assert calls[1..] == ChainCalls(done, slots, buffer, sampleCount);
    }

    /** Store `rate`; with a source installed, hand it to the source and then
        to every processor in the chain, active or not, in ascending slot
        order. */
    method SetSampleRate(rate: nat) returns (calls: seq<Call>)
      modifies this`sampleRate
      ensures sampleRate == rate
      ensures source == null ==> calls == []
      ensures source != null ==> calls == [SourceSetSampleRate(rate)] + RateCalls(SortedKeys(processorList.Keys), rate)
      ensures source != null ==>
        && |calls| == 1 + |processorList|
        && calls[0] == SourceSetSampleRate(rate)
        && forall k :: k in processorList ==> ProcessorSetSampleRate(k, rate) in calls[1..]
    {
      sampleRate := rate;
      if source == null {
        return [];
      }
      calls := [SourceSetSampleRate(rate)];
      var remaining := processorList.Keys;
      ghost var done: seq<nat> := [];
      while remaining != {}
        invariant remaining <= processorList.Keys
        invariant done + SortedKeys(remaining) == SortedKeys(processorList.Keys)
        invariant calls == [SourceSetSampleRate(rate)] + RateCalls(done, rate)
        invariant sampleRate == rate
        decreases remaining
      {
        MinExists(remaining);
        var k :| IsMin(k, remaining);
        SortedKeysStep(remaining, k);
        RateCallsAppend(done, k, rate);
        assert (done + [k]) + SortedKeys(remaining - {k}) == done + SortedKeys(remaining);
        calls := calls + [ProcessorSetSampleRate(k, rate)];
        done := done + [k];
        remaining := remaining - {k};
      }
      assert done == SortedKeys(processorList.Keys);
      SortedKeysSpec(processorList.Keys);
      RateCallsReachAll(done, rate);
      assert calls[1..] == RateCalls(done, rate);
    }

    /** Install `s` as the channel's source, reconcile the tables with its
        channel count, subscribe to its channel-count notification and mark
        the channel active. */
    method SetSource(s: AudioSource)
      modifies this`source, this`level, this`balance, this`subscriptions, this`active
      ensures source == s && active
      ensures level == ReconciledLevels(old(level), s.channelsCount)
      ensures balance == ReconciledBalances(old(balance), s.channelsCount)
      ensures subscriptions == old(subscriptions) + {s}
    {
      source := s;
      UpdateBalanceLevelMaps();
      subscriptions := subscriptions + {s};
      SetActive(true);
    }

    /** The channel-count notification of any subscribed source: reconcile the
        tables with the channel count of the source installed now. */
    method OnAudioChannelsCountChanged(sender: AudioSource)
      requires sender in subscriptions && source != null
      modifies this`level, this`balance
      ensures level == ReconciledLevels(old(level), source.channelsCount)
      ensures balance == ReconciledBalances(old(balance), source.channelsCount)
    {
      UpdateBalanceLevelMaps();
    }

    function Active(): (a: bool)
      reads this
      ensures a == active
    {
      active
    }

    method SetActive(a: bool)
      modifies this`active
      ensures active == a
    {
      active := a;
    }

    /** The level of stream `streamId`, or 0 (not the unity default) when the
        table has no entry for it. */
    function Level(streamId: nat): (v: real)
      reads this
      ensures streamId in level ==> v == level[streamId]
      ensures streamId !in level ==> v == 0.0
    {
      if streamId in level then level[streamId] else 0.0
    }

    /** Set every stream already in the table to `value`. */
    method SetLevel(value: real)
      modifies this`level
      ensures level.Keys == old(level).Keys
      ensures forall k :: k in level ==> level[k] == value
    {
      var remaining := level.Keys;
      while remaining != {}
        invariant remaining <= level.Keys == old(level).Keys
        invariant forall k :: k in level && k !in remaining ==> level[k] == value
        decreases remaining
      {
        var k :| k in remaining;
        level := level[k := value];
        remaining := remaining - {k};
      }
    }

    /** Set the level of one stream, adding the entry if it is missing. */
    method SetStreamLevel(streamId: nat, value: real)
      modifies this`level
      ensures level == old(level)[streamId := value]
      ensures Level(streamId) == value
    {
      level := level[streamId := value];
    }

    /** The balance of stream `streamId`, or 0 when the table has no entry
        for it. */
    function Balance(streamId: nat): (v: Complex)
      reads this
      ensures streamId in balance ==> v == balance[streamId]
      ensures streamId !in balance ==> v == Complex(0.0, 0.0)
    {
      if streamId in balance then balance[streamId] else Complex(0.0, 0.0)
    }

    /** Set every stream already in the table to `value`. */
    method SetBalance(value: Complex)
      modifies this`balance
      ensures balance.Keys == old(balance).Keys
      ensures forall k :: k in balance ==> balance[k] == value
    {
      var remaining := balance.Keys;
      while remaining != {}
        invariant remaining <= balance.Keys == old(balance).Keys
        invariant forall k :: k in balance && k !in remaining ==> balance[k] == value
        decreases remaining
      {
        var k :| k in remaining;
        balance := balance[k := value];
        remaining := remaining - {k};
      }
    }

    /** Set the balance of one stream, adding the entry if it is missing. */
    method SetStreamBalance(streamId: nat, value: Complex)
      modifies this`balance
      ensures balance == old(balance)[streamId := value]
      ensures Balance(streamId) == value
    {
      balance := balance[streamId := value];
    }

    /** The processor in slot `number`, or null when the slot is empty. */
    function Processor(number: nat): (p: AudioProcessor?)
      reads this
      ensures number in processorList ==> p == processorList[number]
      ensures number !in processorList ==> p == null
    {
      if number in processorList then processorList[number] else null
    }

    /** Install `proc` at slot `number`, replacing any occupant, after handing
        it the stored sample rate; a processor whose stream count differs from
        the channel count is rejected and nothing is called. */
    method SetProcessor(number: nat, proc: AudioProcessor) returns (calls: seq<Call>)
      modifies this`processorList
      ensures proc.streamCount != AudioChannelsCount() ==> processorList == old(processorList) && calls == []
      ensures proc.streamCount == AudioChannelsCount() ==>
        && processorList == old(processorList)[number := proc]
        && Processor(number) == proc
        && calls == [ProcessorSetSampleRate(number, sampleRate)]
    {
      if proc.streamCount != AudioChannelsCount() {
        return [];
      }
      calls := [ProcessorSetSampleRate(number, sampleRate)];
      processorList := processorList[number := proc];
    }

    /** Write unity gain and the reference balance for every stream of the
        source, leaving every other entry as it is. */
    method UpdateBalanceLevelMaps()
      requires source != null
      modifies this`level, this`balance
      ensures level == ReconciledLevels(old(level), source.channelsCount)
      ensures balance == ReconciledBalances(old(balance), source.channelsCount)
    {
      var n := source.channelsCount;
      ghost var levels0, balances0 := level, balance;
      ReconcileNone(levels0, balances0, n);
      for c := 0 to n
        invariant level == ReconciledLevels(levels0, c)
        invariant balance == SpreadBalances(balances0, c, n)
      {
        LevelsStep(levels0, c);
        BalancesStep(balances0, c, n);
        level := level[c := 1.0];
        balance := balance[c := Complex(BalanceOf(c, n), 0.0)];
      }
    }
  }

  /** A client: a stereo source shrinks to mono. The entry of the vanished
      right stream survives, so the level table no longer matches the channel
      count and every later CheckStreams reconciles anew. */
  method ShrinkScenario()
  {
    var src := new AudioSource(2);
    var channel := new MixerChannel();
    channel.SetSource(src);
    ReconciledMeaning(map[], map[], 2);
    BalanceEnds(0, 2);
    assert channel.Active();
    assert channel.Level(0) == 1.0 && channel.Level(1) == 1.0;
    assert channel.Balance(0) == Complex(-1.0, 0.0) && channel.Balance(1) == Complex(1.0, 0.0);

    src.channelsCount := 1;
    channel.OnAudioChannelsCountChanged(src);
    ShrinkKeepsStale(map[], map[], 2, 1);
    assert channel.Level(1) == 1.0 && channel.Balance(1) == Complex(1.0, 0.0);

    assert channel.AudioChannelsCount() != |channel.level|;
  }
}
