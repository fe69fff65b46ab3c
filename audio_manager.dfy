/** Audio bookkeeping: audio objects with a playing flag, a bounded register
    of them, and the manager's notion of the current music track. The mixer
    is outside the model: what its load and play calls return is passed in. */
module AudioManager {
  import opened Handles

  datatype AudioType = Music | Sfx | Voice | Ambient

  /** The observable fields of an `Audio`. `handle` is the loaded mixer
      object (music or chunk), `channel` the last channel an effect got. */
  datatype AudioState = AudioState(
    path: string, kind: AudioType, volume: int, loop: int,
    isPlaying: bool, handle: Ptr, channel: int)

  /** `play_audio_raw` on one audio. `load` is what the mixer's loader
      returns if the audio has no handle yet; `result` is what the play call
      returns: -1 on failure, otherwise a status (music) or the channel
      (effects). A playing audio and an ambient one are left alone. */
  function Played(a: AudioState, load: Ptr, result: int): (r: AudioState)
    ensures r.path == a.path && r.kind == a.kind && r.volume == a.volume && r.loop == a.loop
    ensures a.isPlaying || a.kind == Ambient ==> r == a
    ensures r.isPlaying <==> a.isPlaying || (a.kind != Ambient && (a.handle != Null || load != Null) && result != -1)
    ensures a.handle != Null ==> r.handle == a.handle
    ensures !a.isPlaying && a.kind != Ambient && a.handle == Null ==> r.handle == load
    ensures r.channel != a.channel ==> a.kind in {Sfx, Voice} && r.handle != Null && r.channel == result
  {
    if a.isPlaying then a
    else
      var h := if a.handle == Null then load else a.handle;
      match a.kind
      case Music =>
        if h == Null then a.(handle := h)
        else if result == -1 then a.(handle := h)
        else a.(handle := h, isPlaying := true)
      case Sfx | Voice =>
        if h == Null then a.(handle := h)
        else a.(handle := h, channel := result, isPlaying := result != -1)
      case Ambient => a
  }

  /** `stop_audio_raw` on one audio: a playing audio ends up not playing and
      nothing else about it changes; one that is not playing is untouched. */
  function Stopped(a: AudioState): (r: AudioState)
    ensures !r.isPlaying && r.(isPlaying := a.isPlaying) == a
  {
    if !a.isPlaying then a else a.(isPlaying := false)
  }

  /** Once playing, further play requests change nothing until a stop, and a
      stop always ends the playing state. */
  lemma PlayStopCycle(a: AudioState, l1: Ptr, r1: int, l2: Ptr, r2: int)
    ensures Played(a, l1, r1).isPlaying ==> Played(Played(a, l1, r1), l2, r2) == Played(a, l1, r1)
    ensures !Stopped(Played(a, l1, r1)).isPlaying
    ensures Stopped(Stopped(a)) == Stopped(a)
  {
  }

  /** Only a music or effect audio with a loaded handle is ever playing. */
  predicate Consistent(a: AudioState) {
    a.isPlaying ==> a.kind != Ambient && a.handle != Null
  }

  /** Creation, play and stop keep an audio consistent. */
  lemma ConsistentKept(a: AudioState, load: Ptr, result: int)
    requires Consistent(a)
    ensures Consistent(Played(a, load, result)) && Consistent(Stopped(a))
    ensures Consistent(AudioState(a.path, a.kind, a.volume, a.loop, false, Null, 0))
  {
  }

  /** After a stop a consistent audio can be started again: its loaded
      handle is reused without the loader, and success depends only on the
      play call. */
  lemma ReplayAfterStop(a: AudioState, l1: Ptr, r1: int, l2: Ptr, r2: int)
    requires Consistent(a) && Played(a, l1, r1).isPlaying
    ensures var replay := Played(Stopped(Played(a, l1, r1)), l2, r2);
      replay.handle == Played(a, l1, r1).handle && (replay.isPlaying <==> r2 != -1)
  {
  }

  /** `Audio`. */
  class Audio {
    var path: string
    var kind: AudioType
    var volume: int
    var loop: int
    var isPlaying: bool
    var handle: Ptr
    var channel: int

    function Snapshot(): AudioState
      reads this
    {
      AudioState(path, kind, volume, loop, isPlaying, handle, channel)
    }

    /** The zero-filled object `calloc` gives, with the copied fields set. */
    constructor (path: string, kind: AudioType, volume: int, loop: int)
      ensures Snapshot() == AudioState(path, kind, volume, loop, false, Null, 0)
    {
      this.path := path;
      this.kind := kind;
      this.volume := volume;
      this.loop := loop;
      isPlaying := false;
      handle := Null;
      channel := 0;
    }
  }

  /** `audio_create`: no path gives no audio; otherwise a new audio that
      records the path, type, volume and loop flag and is not playing. */
  method AudioCreate(path: Option<string>, kind: AudioType, volume: int, loop: int) returns (a: Audio?)
    ensures path.None? <==> a == null
    ensures a != null ==> fresh(a) && a.Snapshot() == AudioState(path.value, kind, volume, loop, false, Null, 0)
  {
    if path.None? {
      return null;
    }
    a := new Audio(path.value, kind, volume, loop);
  }

  /** `play_audio_raw`: no audio is ignored. */
  method PlayRaw(a: Audio?, load: Ptr, result: int)
    modifies a
    ensures a != null ==> a.Snapshot() == Played(old(a.Snapshot()), load, result)
  {
    if a == null || a.isPlaying {
      return;
    }
    match a.kind {
      case Music =>
        if a.handle == Null {
          a.handle := load;
          if a.handle == Null {
            return;
          }
        }
        if result == -1 {
          return;
        }
        a.isPlaying := true;
      case Sfx | Voice =>
        if a.handle == Null {
          a.handle := load;
          if a.handle == Null {
            return;
          }
        }
        a.channel := result;
        if a.channel == -1 {
          return;
        }
        a.isPlaying := true;
      case Ambient =>
    }
  }

  /** `stop_audio_raw`: no audio is ignored. */
  method StopRaw(a: Audio?)
    modifies a
    ensures a != null ==> a.Snapshot() == Stopped(old(a.Snapshot()))
  {
    if a == null || !a.isPlaying {
      return;
    }
    a.isPlaying := false;
  }

  /** `AudioManager`: `audios` has `maxCount` slots (none when the requested
      count is negative), of which the first `count` are registered. The
      current music, when set, is a music audio. */
  class Manager {
    var audios: array<Audio?>
    var count: int
    var maxCount: int
    var currentMusic: Audio?

    ghost predicate Valid()
      reads this, currentMusic
    {
      0 <= count && audios.Length == (if maxCount >= 0 then maxCount else 0) &&
      (count <= maxCount || count == 0) &&
      (currentMusic != null ==> currentMusic.kind == Music)
    }

    constructor (maxCount: int)
      ensures Valid() && fresh(audios) && count == 0 && this.maxCount == maxCount && currentMusic == null
      ensures forall i :: 0 <= i < audios.Length ==> audios[i] == null
    {
      audios := new Audio?[if maxCount >= 0 then maxCount else 0](_ => null);
      count := 0;
      this.maxCount := maxCount;
      currentMusic := null;
    }

    /** `am_create`: no manager when the mixer could not be opened. */
    static method Create(maxCount: int, mixerReady: bool) returns (m: Manager?)
      ensures !mixerReady <==> m == null
      ensures m != null ==> (fresh(m) && fresh(m.audios) && m.Valid() && m.count == 0 &&
        m.maxCount == maxCount && m.currentMusic == null &&
        forall i :: 0 <= i < m.audios.Length ==> m.audios[i] == null)
    {
      if !mixerReady {
        return null;
      }
      m := new Manager(maxCount);
    }

    /** `am_register`: a full register refuses with -1 and changes nothing;
        otherwise the audio goes into slot `count`, whose index is returned. */
    method Register(audio: Audio?) returns (index: int)
      requires Valid()
      modifies this, audios
      ensures Valid() && audios == old(audios) && maxCount == old(maxCount) && currentMusic == old(currentMusic)
      ensures old(count) >= maxCount ==> index == -1 && count == old(count) && audios[..] == old(audios[..])
      ensures old(count) < maxCount ==>
        index == old(count) && count == old(count) + 1 && audios[..] == old(audios[..])[index := audio]
    {
      if count >= maxCount {
        return -1;
      }
      audios[count] := audio;
      count := count + 1;
      index := count - 1;
    }

    /** `am_play`: starting a music audio first stops the current music if it
        is playing and makes the new audio the current music; then the audio
        is played. Replaying the current music restarts it. */
    method Play(a: Audio, load: Ptr, result: int)
      requires Valid()
      modifies this, a, currentMusic
      ensures Valid() && audios == old(audios) && count == old(count) && maxCount == old(maxCount)
      ensures currentMusic == if a.kind == Music then a else old(currentMusic)
      ensures a.Snapshot() == Played(
        if a.kind == Music && old(currentMusic) == a then Stopped(old(a.Snapshot())) else old(a.Snapshot()),
        load, result)
      ensures old(currentMusic) != null && old(currentMusic) != a ==>
        old(currentMusic).Snapshot() ==
          (if a.kind == Music then Stopped(old(currentMusic.Snapshot())) else old(currentMusic.Snapshot()))
    {
      if a.kind == Music && currentMusic != null && currentMusic.isPlaying {
        StopRaw(currentMusic);
        currentMusic.isPlaying := false;
      }
      if a.kind == Music {
        currentMusic := a;
      }
      PlayRaw(a, load, result);
    }

    /** `am_stop`: stops the audio, and forgets it as the current music if it
        was that. */
    method Stop(a: Audio?)
      requires Valid()
      modifies this, a
      ensures Valid() && audios == old(audios) && count == old(count) && maxCount == old(maxCount)
      ensures a != null ==> a.Snapshot() == Stopped(old(a.Snapshot()))
      ensures currentMusic == if a == old(currentMusic) then null else old(currentMusic)
    {
      StopRaw(a);
      if a == currentMusic {
        currentMusic := null;
      }
    }
  }
}
