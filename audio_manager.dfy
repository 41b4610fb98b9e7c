/**
 * The music-selection state of the audio manager: a sound map in which the
 * first sound of each name wins, one audio source per sound (abstracted to a
 * playing flag), the name of the music track now playing, and the mapping
 * from scene names to tracks.
 */
module Audio {
  datatype AudioType = Music | SFX

  datatype Sound = Sound(name: string, kind: AudioType)

  /** The map `Awake` builds: each name present maps to the first sound of that name. */
  ghost predicate IsSoundMap(sounds: seq<Sound>, m: map<string, nat>) {
    && (forall n :: n in m <==> exists i :: 0 <= i < |sounds| && sounds[i].name == n)
    && (forall n :: n in m ==> m[n] < |sounds| && sounds[m[n]].name == n)
    && (forall n, j :: n in m && 0 <= j < m[n] ==> sounds[j].name != n)
  }

  /** The sound map of a sound list is unique: "first wins" determines every entry. */
  lemma SoundMapUnique(sounds: seq<Sound>, m1: map<string, nat>, m2: map<string, nat>)
    requires IsSoundMap(sounds, m1) && IsSoundMap(sounds, m2)
    ensures m1 == m2
  {
    forall n | n in m1
      ensures n in m2 && m1[n] == m2[n]
    {
      assert sounds[m1[n]].name == n;
    }
  }

  /** The loop of `Awake` that fills the sound map, skipping names already present. */
  method BuildSoundMap(sounds: seq<Sound>) returns (m: map<string, nat>)
    ensures IsSoundMap(sounds, m)
  {
    m := map[];
    for i := 0 to |sounds|
      invariant IsSoundMap(sounds[..i], m)
    {
      SoundMapStep(sounds, i, m);
      if sounds[i].name !in m {
        m := m[sounds[i].name := i];
      }
    }
    assert sounds[..|sounds|] == sounds;
  }

  /** Scanning one more sound adds its name, unless a sound of that name came earlier. */
  lemma SoundMapStep(sounds: seq<Sound>, i: nat, m: map<string, nat>)
    requires i < |sounds| && IsSoundMap(sounds[..i], m)
    ensures IsSoundMap(sounds[..i + 1], if sounds[i].name in m then m else m[sounds[i].name := i])
  {
    assert sounds[..i + 1] == sounds[..i] + [sounds[i]];
  }

  /** The music-side state: the track now playing (`""` for none) and each source's playing flag. */
  datatype MusicState = MusicState(current: string, playing: seq<bool>)

  /** Every music source stopped; sound-effect sources as they were. */
  function StopMusic(sounds: seq<Sound>, playing: seq<bool>): (r: seq<bool>)
    requires |playing| == |sounds|
    ensures |r| == |sounds|
    ensures forall j :: 0 <= j < |sounds| && sounds[j].kind == Music ==> !r[j]
    ensures forall j :: 0 <= j < |sounds| && sounds[j].kind == SFX ==> r[j] == playing[j]
  {
    seq(|sounds|, j requires 0 <= j < |sounds| => if sounds[j].kind == Music then false else playing[j])
  }

  /** `StopAllMusic`: no track is current and no music source plays. */
  function AfterStopAll(sounds: seq<Sound>, st: MusicState): (r: MusicState)
    requires |st.playing| == |sounds|
    ensures r.current == "" && |r.playing| == |sounds|
    ensures forall j :: 0 <= j < |sounds| && sounds[j].kind == Music ==> !r.playing[j]
    ensures forall j :: 0 <= j < |sounds| && sounds[j].kind == SFX ==> r.playing[j] == st.playing[j]
  {
    MusicState("", StopMusic(sounds, st.playing))
  }

  /** The name is in the map and its sound is a music track. */
  predicate IsMusicTrack(sounds: seq<Sound>, m: map<string, nat>, name: string) {
    name in m && m[name] < |sounds| && sounds[m[name]].kind == Music
  }

  /**
   * `PlayMusic(name)`: the track already current is left alone; a known
   * music track stops all music and becomes the only music playing; any other
   * name changes nothing.
   */
  function AfterPlayMusic(sounds: seq<Sound>, m: map<string, nat>, st: MusicState, name: string): (r: MusicState)
    requires |st.playing| == |sounds|
    ensures |r.playing| == |sounds|
    ensures name == st.current ==> r == st
    ensures name != st.current && !IsMusicTrack(sounds, m, name) ==> r == st
    ensures name != st.current && IsMusicTrack(sounds, m, name) ==>
      && r.current == name
      && (forall j :: 0 <= j < |sounds| && sounds[j].kind == Music ==> (r.playing[j] <==> j == m[name]))
      && (forall j :: 0 <= j < |sounds| && sounds[j].kind == SFX ==> r.playing[j] == st.playing[j])
  {
    if name == st.current then st
    else if IsMusicTrack(sounds, m, name) then MusicState(name, StopMusic(sounds, st.playing)[m[name] := true])
    else st
  }

  /** What a scene change asks for: a track, or silence. */
  datatype SceneMusic = Track(name: string) | Silence

  function SceneTrack(scene: string): SceneMusic {
    match scene
    case "Main_Menu" => Track("Back_Ground")
    case "MAP1" => Track("Music_Map1")
    case "MAP2" => Track("Music_Map2")
    case "MAP3" => Track("Music_Map3")
    case "MAP4" => Track("Music_Map4")
    case "MAP5" => Track("Music_Map5")
    case _ => Silence
  }

  function AfterSceneChange(sounds: seq<Sound>, m: map<string, nat>, st: MusicState, scene: string): (r: MusicState)
    requires |st.playing| == |sounds|
    ensures |r.playing| == |sounds|
  {
    match SceneTrack(scene)
    case Track(t) => AfterPlayMusic(sounds, m, st, t)
    case Silence => AfterStopAll(sounds, st)
  }

  /**
   * Entering a scene twice in a row is the same as entering it once: the
   * second entry finds its track already current, or finds the music already
   * stopped.
   */
  lemma SceneChangeIdempotent(sounds: seq<Sound>, m: map<string, nat>, st: MusicState, scene: string)
    requires |st.playing| == |sounds|
    ensures AfterSceneChange(sounds, m, AfterSceneChange(sounds, m, st, scene), scene) == AfterSceneChange(sounds, m, st, scene)
  {
    var once := AfterSceneChange(sounds, m, st, scene);
    if SceneTrack(scene).Silence? {
      assert StopMusic(sounds, once.playing) == once.playing;
    }
  }

  /** Every scene other than the main menu and the five maps silences the music. */
  lemma OtherScenesSilence(sounds: seq<Sound>, m: map<string, nat>, st: MusicState, scene: string)
    requires |st.playing| == |sounds|
    requires scene !in {"Main_Menu", "MAP1", "MAP2", "MAP3", "MAP4", "MAP5"}
    ensures AfterSceneChange(sounds, m, st, scene) == AfterStopAll(sounds, st)
  {
  }

  class AudioManager {
    const sounds: seq<Sound>
    const soundMap: map<string, nat>
    var currentMusicPlaying: string
    /** `playing[i]`: whether the audio source of `sounds[i]` is playing. */
    var playing: seq<bool>
    /** The one-shot plays requested, by index into `sounds`. */
    var oneShots: seq<nat>

    function State(): MusicState
      reads this
    {
      MusicState(currentMusicPlaying, playing)
    }

    ghost predicate Valid()
      reads this
    {
      |playing| == |sounds| && IsSoundMap(sounds, soundMap)
    }

    /** `Awake`: one silent source per sound, the sound map, and no current track. */
    constructor(sounds: seq<Sound>)
      ensures Valid() && this.sounds == sounds
      ensures currentMusicPlaying == "" && oneShots == []
      ensures forall j :: 0 <= j < |sounds| ==> !playing[j]
    {
      this.sounds := sounds;
      var m := BuildSoundMap(sounds);
      soundMap := m;
      currentMusicPlaying := "";
      playing := seq(|sounds|, _ => false);
      oneShots := [];
    }

    method StopAllMusic()
      requires Valid()
      modifies this
      ensures Valid() && oneShots == old(oneShots)
      ensures State() == AfterStopAll(sounds, old(State()))
    {
      currentMusicPlaying := "";
      ghost var before := playing;
      for i := 0 to |sounds|
        invariant |playing| == |sounds| && oneShots == old(oneShots) && currentMusicPlaying == ""
        invariant forall j :: 0 <= j < |sounds| ==>
          playing[j] == if j < i && sounds[j].kind == Music then false else before[j]
      {
        if sounds[i].kind == Music && playing[i] {
          playing := playing[i := false];
        }
      }
      assert playing == StopMusic(sounds, before);
    }

    method PlayMusic(name: string)
      requires Valid()
      modifies this
      ensures Valid() && oneShots == old(oneShots)
      ensures State() == AfterPlayMusic(sounds, soundMap, old(State()), name)
    {
      if name == currentMusicPlaying {
        return;
      }
      if name in soundMap {
        var i := soundMap[name];
        if sounds[i].kind == Music {
          StopAllMusic();
          playing := playing[i := true];
          currentMusicPlaying := name;
        }
      }
    }

    /** A known sound effect is played once; music is never touched. */
    method PlaySFX(name: string)
      requires Valid()
      modifies this
      ensures Valid() && State() == old(State())
      ensures oneShots == old(oneShots) +
        if name in soundMap && sounds[soundMap[name]].kind == SFX then [soundMap[name]] else []
    {
      if name in soundMap {
        var i := soundMap[name];
        if sounds[i].kind == SFX {
          oneShots := oneShots + [i];
        }
      }
    }

    method OnSceneChanged(scene: string)
      requires Valid()
      modifies this
      ensures Valid() && oneShots == old(oneShots)
      ensures State() == AfterSceneChange(sounds, soundMap, old(State()), scene)
    {
      match SceneTrack(scene)
      case Track(t) => PlayMusic(t);
      case Silence => StopAllMusic();
    }
  }
}
