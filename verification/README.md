# MixerChannel — a verified model of MuseScore's per-track mixing channel

This project models `MixerChannel`, the node of MuseScore's audio worker that
wraps one upstream audio source. It keeps a gain level and a balance (stereo
position) per stream of that source. It also runs the source's output through an
ordered chain of effect processors, keyed by slot number.

The model is imperative, like the original: `Mixer.MixerChannel` is a class
whose fields are the original's members:

- `source` for `m_source`, which may be null
- `level` for `m_level`, a `map<nat, real>`
- `balance` for `m_balance`, a `map<nat, Complex>`
- `processorList` for `m_processorList`, a `map<nat, AudioProcessor>`
- `active` for `m_active` and `sampleRate` for the inherited sample rate
- `subscriptions`, the sources whose channel-count notification reaches the channel

Each method changes only the fields named in its `modifies` clause.

The source and the processors are shared objects that the channel does not own.
They are modelled as two small classes, `AudioSource` and `AudioProcessor`,
which hold only the state the channel reads:

- the source's `channelsCount`, which other owners may change at any time;
- a processor's fixed `streamCount`;
- a processor's `active` flag, which the processor sets itself.

The channel's calls into these collaborators (`process`, `setSampleRate`) are
foreign code. `Process`, `SetSampleRate` and `SetProcessor` return them as a
trace of `EffectChain.Call` values. A processor is named in the trace by its slot
number.

The modules:

- `OrderedKeys`: the ascending key order in which an ordered map is walked (`SortedKeys`), and its proof.
- `StreamMaps`: the reconciliation of the level and balance tables with a channel count (`ReconciledLevels`, `ReconciledBalances`, `BalanceOf`), and its properties.
- `EffectChain`: the call traces of the effect chain (`ChainCalls`) and of the sample-rate fan-out (`RateCalls`).
- `Mixer`: the two collaborator classes and the `MixerChannel` class. It also holds a client, `ShrinkScenario`, in which a stereo source becomes mono.

Where the written design of the component and the code disagree, the model
follows the code:

- Reconciliation writes only stream indices `0 .. N-1` and never removes an entry.
  The design describes a full rebuild that drops indices at `N` and above. In the
  code, entries of streams that went away survive, so the level table can stay
  larger than the channel count (`ShrinkKeepsStale`, `ShrinkScenario`).
- `setSource` subscribes to the new source's notification but never drops the
  old one. A notification from any source ever installed reconciles the tables
  against the source installed now (`OnAudioChannelsCountChanged`).
- The design says the tables hold exactly one entry per current stream. The code
  does not keep this invariant: the indexed setters insert any index, and
  reconciliation does not remove entries. The model keeps no such invariant
  either.

## Model

| member | source | states |
|---|---|---|
| `Mixer.MixerChannel.constructor` | src/framework/audio/internal/worker/mixerchannel.cpp:29-31 | A new channel has no source, empty level and balance tables, an empty slot table and no subscriptions |
| `Mixer.MixerChannel.AudioChannelsCount` | src/framework/audio/internal/worker/mixerchannel.cpp:33-39 | 0 when no source is installed (the assertion path), the source's current channel count otherwise |
| `Mixer.MixerChannel.CheckStreams` | src/framework/audio/internal/worker/mixerchannel.cpp:41-46 | When the channel count equals the level table's size, nothing changes; otherwise exactly one reconciliation happens. The source must be present unless the table is empty, because reconciliation dereferences it |
| `Mixer.MixerChannel.Process` | src/framework/audio/internal/worker/mixerchannel.cpp:48-60 | With no source nothing is called. Otherwise the source is called once, then exactly the processors that report themselves active, each once, in ascending slot order, each with the same buffer as input and output and the same frame count |
| `Mixer.MixerChannel.SetSampleRate` | src/framework/audio/internal/worker/mixerchannel.cpp:62-72 | The rate is always stored. With a source, the rate goes to the source first and then to every slot, active or not, once each in ascending slot order. Without a source nothing is called |
| `Mixer.MixerChannel.SetSource` | src/framework/audio/internal/worker/mixerchannel.cpp:74-82 | The source is installed, the tables are reconciled with its channel count, it joins the subscriptions (earlier ones are kept), and the channel is active |
| `Mixer.MixerChannel.OnAudioChannelsCountChanged` | src/framework/audio/internal/worker/mixerchannel.cpp:78-80 | A notification from any subscribed source reconciles the tables with the channel count of the source installed now |
| `Mixer.MixerChannel.Active` | src/framework/audio/internal/worker/mixerchannel.cpp:84-87 | Returns the stored active flag |
| `Mixer.MixerChannel.SetActive` | src/framework/audio/internal/worker/mixerchannel.cpp:89-92 | Stores the flag and changes nothing else |
| `Mixer.MixerChannel.Level` | src/framework/audio/internal/worker/mixerchannel.cpp:94-100 | The stored level when the stream has an entry, 0 otherwise (not the unity default) |
| `Mixer.MixerChannel.SetLevel` | src/framework/audio/internal/worker/mixerchannel.cpp:102-107 | Every stream already in the level table gets the value; the key set does not change |
| `Mixer.MixerChannel.SetStreamLevel` | src/framework/audio/internal/worker/mixerchannel.cpp:109-112 | Inserts or overwrites that one key and leaves every other entry untouched; `Level` then reads the value back |
| `Mixer.MixerChannel.Balance` | src/framework/audio/internal/worker/mixerchannel.cpp:114-120 | The stored balance when the stream has an entry, 0 otherwise |
| `Mixer.MixerChannel.SetBalance` | src/framework/audio/internal/worker/mixerchannel.cpp:122-127 | Every stream already in the balance table gets the value; the key set does not change |
| `Mixer.MixerChannel.SetStreamBalance` | src/framework/audio/internal/worker/mixerchannel.cpp:129-132 | Inserts or overwrites that one key and leaves every other entry untouched; `Balance` then reads the value back |
| `Mixer.MixerChannel.Processor` | src/framework/audio/internal/worker/mixerchannel.cpp:134-140 | The processor in the slot, or null when the slot is empty |
| `Mixer.MixerChannel.SetProcessor` | src/framework/audio/internal/worker/mixerchannel.cpp:142-150 | A processor whose stream count differs from the channel count leaves the slot table unchanged and receives nothing. Otherwise it receives the stored sample rate, the slot maps to it, and every other slot is unchanged |
| `Mixer.MixerChannel.UpdateBalanceLevelMaps` | src/framework/audio/internal/worker/mixerchannel.cpp:152-163 | The new tables are the old ones reconciled with the source's channel count |
| `StreamMaps.ReconciledMeaning` | src/framework/audio/internal/worker/mixerchannel.cpp:152-163 | After reconciliation with N streams: level 1 and balance (BalanceOf(c, N), 0) for every c < N, every entry at N or above exactly as before, and the keys are the old keys plus 0..N-1 |
| `StreamMaps.KeysOnlyGrow` | src/framework/audio/internal/worker/mixerchannel.cpp:154-162 | Reconciliation never removes a key: the old keys are kept, and the table has at least as many entries as before and at least N |
| `StreamMaps.ReconciledSizeExact` | src/framework/audio/internal/worker/mixerchannel.cpp:41-46 | The reconciled level table has exactly N entries if and only if no key at N or above was present, which is when a later check does nothing |
| `StreamMaps.ReconcileIdempotent` | src/framework/audio/internal/worker/mixerchannel.cpp:154-161 | Reconciling twice with the same channel count gives the same tables as reconciling once |
| `StreamMaps.ShrinkKeepsStale` | src/framework/audio/internal/worker/mixerchannel.cpp:152-163 | After the channel count shrinks, the entries of the vanished streams survive with their old values, and the level table stays larger than the new count |
| `StreamMaps.BalanceEnds` | src/framework/audio/internal/worker/mixerchannel.cpp:157-158 | With two or more channels, stream 0 is at -1 and the last stream at +1, and every stream lies in [-1, 1] |
| `StreamMaps.BalanceIncreasing` | src/framework/audio/internal/worker/mixerchannel.cpp:158 | Balances strictly increase with the stream index |
| `StreamMaps.BalanceEvenlySpaced` | src/framework/audio/internal/worker/mixerchannel.cpp:158 | Neighbouring streams are 2/(N-1) apart, and the layout is mirror-symmetric: the balance of N-1-c is minus that of c |
| `OrderedKeys.SortedKeysSpec` | src/framework/audio/internal/worker/mixerchannel.cpp:55 | Walking the slot table visits every slot exactly once, in strictly ascending order |
| `EffectChain.ChainCallsInOrder` | src/framework/audio/internal/worker/mixerchannel.cpp:55-59 | Over an ascending walk, the chain runs exactly the visited active slots, once each, smallest first, in place |
| `EffectChain.RateCallsReachAll` | src/framework/audio/internal/worker/mixerchannel.cpp:69-71 | The fan-out hands the same rate to every slot of the walk, once each, in walk order |

## Left out

- Audio data is not modelled. The samples that the source and the processors write into the buffer are not part of the model: those are foreign calls. The buffer is an address, and each call appears only as a trace entry.
- Floating point is not modelled. Levels are `real`. Balances are pairs of reals standing for `std::complex<float>`, and reconciliation writes a zero imaginary part. IEEE rounding of `2.f * c / (N - 1) - 1.f` is not modelled.
- Stream indices, slot numbers, frame counts, channel counts and sample rates are unbounded `nat`s, not 32-bit unsigned values. The only subtraction, `N - 1`, happens only when `N > 1`, so it cannot wrap.
- The diagnostics of `IF_ASSERT_FAILED` and `LOGE` are not modelled. Only what the code does on those paths is: return 0, return null, do nothing, or reject the processor.
- Ownership through `shared_ptr` and object lifetimes are not modelled. `setSource` and `setProcessor` receive non-null objects, because the code dereferences them unconditionally.
- The base class `AbstractAudioSource` is not modelled: its `setSampleRate` becomes the `sampleRate` field. The initial values of `m_active` and of the sample rate come from `mixerchannel.h`, which is not part of this model, so the constructor promises nothing about them.
- The notification mechanism is not modelled: asynchronous delivery, the thread it runs on, and its count argument, which the handler ignores. A notification is a call to `OnAudioChannelsCountChanged` by a subscribed source.
- Concurrency between `process` on the real-time thread and the setup calls is not modelled, because the code has no locking to model.
- Process: the active flags are read as they stand when `process` runs. A processor that changes some processor's active flag during its own `process` call is not modelled.
