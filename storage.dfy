/**
  * The browser's `localStorage` as the panels use it: one usage counter per tool
  * (stored with `toString` and read back with `parseInt(... || '0', 10)`, so a
  * missing key reads as 0) and the audio enhancer's list of custom presets.
  */
module Storage {
  import opened Text

  type Counters = map<string, nat>

  const DUBBING_JOBS: string := "dubbingJobsRun"
  const PODCAST_JOBS: string := "podcastJobsRun"
  const SUBTITLE_JOBS: string := "subtitleJobsRun"
  const ENHANCER_JOBS: string := "enhancerJobsRun"
  const STEM_SPLITTER_JOBS: string := "stemSplitterJobsRun"

  /** The value of a counter; a key that was never written reads as 0. */
  function Read(m: Counters, key: string): nat {
    if key in m then m[key] else 0
  }

  /** The end-of-run update `if (k > 0) setItem(key, getItem(key) + k)`: the counter
      under `key` grows by exactly `k`, no other counter changes, and when `k` is 0
      storage is not written at all (not even a key holding 0 is created). */
  function AddedJobs(m: Counters, key: string, k: nat): (r: Counters)
    ensures Read(r, key) == Read(m, key) + k
    ensures forall other :: other != key ==> Read(r, other) == Read(m, other)
    ensures r.Keys == if k > 0 then m.Keys + {key} else m.Keys
    ensures k == 0 ==> r == m
  {
    if k > 0 then m[key := Read(m, key) + k] else m
  }

  /** Counters never decrease, whatever sequence of runs updates them. */
  lemma {:induction false} CountersNeverDecrease(m: Counters, key: string, ks: seq<nat>, watched: string)
    ensures Read(Replay(m, key, ks), watched) >= Read(m, watched)
    ensures watched == key ==> Read(Replay(m, key, ks), key) == Read(m, key) + Sum(ks)
    decreases |ks|
  {
    if ks != [] {
      CountersNeverDecrease(AddedJobs(m, key, ks[0]), key, ks[1..], watched);
    }
  }

  /** The state after a series of runs of one tool adding `ks[0]`, `ks[1]`, ... */
  function Replay(m: Counters, key: string, ks: seq<nat>): Counters
    decreases |ks|
  {
    if ks == [] then m else Replay(AddedJobs(m, key, ks[0]), key, ks[1..])
  }

  function Sum(ks: seq<nat>): nat
    decreases |ks|
  {
    if ks == [] then 0 else ks[0] + Sum(ks[1..])
  }

  /** The origin's local storage. */
  class LocalStorage {
    var counters: Counters
    /** The list stored under 'audioEnhancerCustomPresets'; None when never written. */
    var customPresets: Option<seq<string>>
    /** Whether a write of the preset list throws (storage full or disabled). */
    const failing: bool

    constructor (failing: bool)
      ensures counters == map[] && customPresets == None && this.failing == failing
    {
      counters := map[];
      customPresets := None;
      this.failing := failing;
    }

    /** A tool's end-of-run counter update. */
    method AddJobs(key: string, k: nat)
      modifies this`counters
      ensures counters == AddedJobs(old(counters), key, k)
    {
      counters := AddedJobs(counters, key, k);
    }

    /** `setItem('audioEnhancerCustomPresets', JSON.stringify(list))`: the list is stored
        unless the write throws, which `written` reports. */
    method SavePresets(list: seq<string>) returns (written: bool)
      modifies this`customPresets
      ensures written <==> !failing
      ensures written ==> customPresets == Some(list)
      ensures !written ==> customPresets == old(customPresets)
    {
      if failing {
        return false;
      }
      customPresets := Some(list);
      written := true;
    }
  }
}
