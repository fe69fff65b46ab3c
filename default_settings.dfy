/** The settings the game registers at startup (`initialize_default_settings`). */
module DefaultSettings {
  import opened Handles
  import opened Settings

  const FULLSCREEN: Setting :=
    Setting("fullscreen", "video", "Fullscreen Mode", Some("Run the game in fullscreen mode"),
            TypeBool, Checkbox, BoolV(false), NoConstraint, BoolV(false), [])
  const RESOLUTION_W: Setting :=
    Setting("resolution_w", "video", "Resolution Width", Some("Screen width in pixels"),
            TypeInt, Slider, IntV(1280), IntRange(800, 3840, 1), IntV(1280), [])
  const RESOLUTION_H: Setting :=
    Setting("resolution_h", "video", "Resolution Height", Some("Screen height in pixels"),
            TypeInt, Slider, IntV(720), IntRange(600, 2160, 1), IntV(720), [])
  const MASTER_VOLUME: Setting :=
    Setting("master_volume", "audio", "Master Volume", Some("Main volume control"),
            TypeFloat, Slider, FloatV(1.0), FloatRange(0.0, 1.0, 0.1), FloatV(1.0), [])
  const MUSIC_VOLUME: Setting :=
    Setting("music_volume", "audio", "Music Volume", Some("Music volume level"),
            TypeFloat, Slider, FloatV(0.8), FloatRange(0.0, 1.0, 0.1), FloatV(0.8), [])
  const SFX_VOLUME: Setting :=
    Setting("sfx_volume", "audio", "Sound Effects Volume", Some("Sound effects volume level"),
            TypeFloat, Slider, FloatV(1.0), FloatRange(0.0, 1.0, 0.1), FloatV(1.0), [])
  const DIFFICULTY_OPTIONS: seq<string> := ["Easy", "Normal", "Hard", "Nightmare"]
  const DIFFICULTY: Setting :=
    Setting("difficulty", "gameplay", "Difficulty", Some("Game difficulty setting"),
            TypeEnum, Dropdown, EnumV(1), EnumOptions(DIFFICULTY_OPTIONS), EnumV(1), [])

  /** The four default categories holding the given settings. */
  function Filled(video: seq<Setting>, audio: seq<Setting>, gameplay: seq<Setting>): seq<Category> {
    [Category("video", "Video Settings", video), Category("audio", "Audio Settings", audio),
     Category("controls", "Control Settings", []), Category("gameplay", "Gameplay Settings", gameplay)]
  }

  /** The table a fresh manager holds after the defaults are registered. */
  const DEFAULT_TABLE: seq<Category> :=
    Filled([FULLSCREEN, RESOLUTION_W, RESOLUTION_H], [MASTER_VOLUME, MUSIC_VOLUME, SFX_VOLUME], [DIFFICULTY])

  /** The category block of `initialize_default_settings`. */
  function CategoryRegistrations(cats: seq<Category>): seq<Category> {
    var c1 := WithCategory(cats, Some("video"), Some("Video Settings"));
    var c2 := WithCategory(c1, Some("audio"), Some("Audio Settings"));
    var c3 := WithCategory(c2, Some("controls"), Some("Control Settings"));
    WithCategory(c3, Some("gameplay"), Some("Gameplay Settings"))
  }

  /** The video block. */
  function VideoRegistrations(cats: seq<Category>): seq<Category> {
    var c1 := WithSetting(cats, Some("video"), Some("fullscreen"), Some("Fullscreen Mode"),
                          Some("Run the game in fullscreen mode"), TypeBool, Checkbox, BoolV(false), NoConstraint);
    var c2 := WithSetting(c1, Some("video"), Some("resolution_w"), Some("Resolution Width"),
                          Some("Screen width in pixels"), TypeInt, Slider, IntV(1280), IntRange(800, 3840, 1));
    WithSetting(c2, Some("video"), Some("resolution_h"), Some("Resolution Height"),
                Some("Screen height in pixels"), TypeInt, Slider, IntV(720), IntRange(600, 2160, 1))
  }

  /** The audio block. */
  function AudioRegistrations(cats: seq<Category>): seq<Category> {
    var c1 := WithSetting(cats, Some("audio"), Some("master_volume"), Some("Master Volume"),
                          Some("Main volume control"), TypeFloat, Slider, FloatV(1.0), FloatRange(0.0, 1.0, 0.1));
    var c2 := WithSetting(c1, Some("audio"), Some("music_volume"), Some("Music Volume"),
                          Some("Music volume level"), TypeFloat, Slider, FloatV(0.8), FloatRange(0.0, 1.0, 0.1));
    WithSetting(c2, Some("audio"), Some("sfx_volume"), Some("Sound Effects Volume"),
                Some("Sound effects volume level"), TypeFloat, Slider, FloatV(1.0), FloatRange(0.0, 1.0, 0.1))
  }

  /** The gameplay block. */
  function GameplayRegistrations(cats: seq<Category>): seq<Category> {
    WithSetting(cats, Some("gameplay"), Some("difficulty"), Some("Difficulty"),
                Some("Game difficulty setting"), TypeEnum, Dropdown, EnumV(1), EnumOptions(DIFFICULTY_OPTIONS))
  }

  /** Every registration of `initialize_default_settings`, in order. */
  function DefaultRegistrations(cats: seq<Category>): seq<Category> {
    GameplayRegistrations(AudioRegistrations(VideoRegistrations(CategoryRegistrations(cats))))
  }

  /** `initialize_default_settings`: registers the four categories and then
      the seven settings, each through its register function; no manager
      does nothing. Loading the settings file afterwards is not part of this
      model. */
  method InitializeDefaults(settings: SettingsManager?)
    requires settings != null ==> settings.Valid()
    modifies settings
    ensures settings != null ==> settings.Valid() && settings.categories == DefaultRegistrations(old(settings.categories))
  {
    if settings == null {
      return;
    }
    settings.RegisterCategory(Some("video"), Some("Video Settings"));
    settings.RegisterCategory(Some("audio"), Some("Audio Settings"));
    settings.RegisterCategory(Some("controls"), Some("Control Settings"));
    settings.RegisterCategory(Some("gameplay"), Some("Gameplay Settings"));

    settings.RegisterBoolSetting(Some("video"), Some("fullscreen"), Some("Fullscreen Mode"),
                                 Some("Run the game in fullscreen mode"), false);
    settings.RegisterIntSetting(Some("video"), Some("resolution_w"), Some("Resolution Width"),
                                Some("Screen width in pixels"), 1280, 800, 3840, 1, Slider);
    settings.RegisterIntSetting(Some("video"), Some("resolution_h"), Some("Resolution Height"),
                                Some("Screen height in pixels"), 720, 600, 2160, 1, Slider);

    settings.RegisterFloatSetting(Some("audio"), Some("master_volume"), Some("Master Volume"),
                                  Some("Main volume control"), 1.0, 0.0, 1.0, 0.1, Slider);
    settings.RegisterFloatSetting(Some("audio"), Some("music_volume"), Some("Music Volume"),
                                  Some("Music volume level"), 0.8, 0.0, 1.0, 0.1, Slider);
    settings.RegisterFloatSetting(Some("audio"), Some("sfx_volume"), Some("Sound Effects Volume"),
                                  Some("Sound effects volume level"), 1.0, 0.0, 1.0, 0.1, Slider);

    settings.RegisterEnumSetting(Some("gameplay"), Some("difficulty"), Some("Difficulty"),
                                 Some("Game difficulty setting"), 1, DIFFICULTY_OPTIONS);
  }

  // ---- from an empty manager -------------------------------------------------

  lemma AppendedVideo(v: seq<Setting>, a: seq<Setting>, g: seq<Setting>, s: Setting)
    ensures Filled(v, a, g)[0 := Filled(v, a, g)[0].(settings := v + [s])] == Filled(v + [s], a, g)
  {
  }

  lemma AppendedAudio(v: seq<Setting>, a: seq<Setting>, g: seq<Setting>, s: Setting)
    ensures Filled(v, a, g)[1 := Filled(v, a, g)[1].(settings := a + [s])] == Filled(v, a + [s], g)
  {
  }

  /** "audio" is found as the second category. */
  lemma AudioIndexed(v: seq<Setting>, a: seq<Setting>, g: seq<Setting>)
    ensures CategoryIndex(Filled(v, a, g), "audio") == 1
  {
    var f := Filled(v, a, g);
    assert f[1..][0].name == "audio";
    assert CategoryIndex(f[1..], "audio") == 0;
  }

  lemma AppendedGameplay(v: seq<Setting>, a: seq<Setting>, g: seq<Setting>, s: Setting)
    ensures Filled(v, a, g)[3 := Filled(v, a, g)[3].(settings := g + [s])] == Filled(v, a, g + [s])
  {
  }

  lemma CategoriesFromEmpty()
    ensures CategoryRegistrations([]) == Filled([], [], [])
  {
    VideoCategoryStep();
    AudioCategoryStep();
    ControlsCategoryStep();
    GameplayCategoryStep();
  }

  const VIDEO_CATEGORY := Category("video", "Video Settings", [])
  const AUDIO_CATEGORY := Category("audio", "Audio Settings", [])
  const CONTROLS_CATEGORY := Category("controls", "Control Settings", [])

  lemma VideoCategoryStep()
    ensures WithCategory([], Some("video"), Some("Video Settings")) == [VIDEO_CATEGORY]
  {
  }

  lemma AudioCategoryStep()
    ensures WithCategory([VIDEO_CATEGORY], Some("audio"), Some("Audio Settings")) == [VIDEO_CATEGORY, AUDIO_CATEGORY]
  {
    assert CategoryIndex([VIDEO_CATEGORY], "audio") == 1;
  }

  lemma ControlsCategoryStep()
    ensures WithCategory([VIDEO_CATEGORY, AUDIO_CATEGORY], Some("controls"), Some("Control Settings")) ==
            [VIDEO_CATEGORY, AUDIO_CATEGORY, CONTROLS_CATEGORY]
  {
    assert CategoryIndex([VIDEO_CATEGORY, AUDIO_CATEGORY], "controls") == 2;
  }

  lemma GameplayCategoryStep()
    ensures WithCategory([VIDEO_CATEGORY, AUDIO_CATEGORY, CONTROLS_CATEGORY], Some("gameplay"), Some("Gameplay Settings")) ==
            Filled([], [], [])
  {
    assert CategoryIndex([VIDEO_CATEGORY, AUDIO_CATEGORY, CONTROLS_CATEGORY], "gameplay") == 3;
  }

  lemma FullscreenStep()
    ensures WithSetting(Filled([], [], []), Some("video"), Some("fullscreen"), Some("Fullscreen Mode"),
                        Some("Run the game in fullscreen mode"), TypeBool, Checkbox, BoolV(false), NoConstraint) ==
            Filled([FULLSCREEN], [], [])
  {
    assert AcceptsSetting(Filled([], [], []), Some("video"), Some("fullscreen"));
    AppendedVideo([], [], [], FULLSCREEN);
    assert [] + [FULLSCREEN] == [FULLSCREEN];
  }

  lemma ResolutionWStep()
    ensures WithSetting(Filled([FULLSCREEN], [], []), Some("video"), Some("resolution_w"), Some("Resolution Width"),
                        Some("Screen width in pixels"), TypeInt, Slider, IntV(1280), IntRange(800, 3840, 1)) ==
            Filled([FULLSCREEN, RESOLUTION_W], [], [])
  {
    assert AcceptsSetting(Filled([FULLSCREEN], [], []), Some("video"), Some("resolution_w"));
    AppendedVideo([FULLSCREEN], [], [], RESOLUTION_W);
    assert [FULLSCREEN] + [RESOLUTION_W] == [FULLSCREEN, RESOLUTION_W];
  }

  lemma ResolutionHStep()
    ensures WithSetting(Filled([FULLSCREEN, RESOLUTION_W], [], []), Some("video"), Some("resolution_h"),
                        Some("Resolution Height"), Some("Screen height in pixels"), TypeInt, Slider, IntV(720),
                        IntRange(600, 2160, 1)) ==
            Filled([FULLSCREEN, RESOLUTION_W, RESOLUTION_H], [], [])
  {
    assert AcceptsSetting(Filled([FULLSCREEN, RESOLUTION_W], [], []), Some("video"), Some("resolution_h"));
    AppendedVideo([FULLSCREEN, RESOLUTION_W], [], [], RESOLUTION_H);
    assert [FULLSCREEN, RESOLUTION_W] + [RESOLUTION_H] == [FULLSCREEN, RESOLUTION_W, RESOLUTION_H];
  }

  lemma MasterVolumeStep()
    ensures WithSetting(Filled([FULLSCREEN, RESOLUTION_W, RESOLUTION_H], [], []), Some("audio"), Some("master_volume"),
                        Some("Master Volume"), Some("Main volume control"), TypeFloat, Slider, FloatV(1.0),
                        FloatRange(0.0, 1.0, 0.1)) ==
            Filled([FULLSCREEN, RESOLUTION_W, RESOLUTION_H], [MASTER_VOLUME], [])
  {
    var v := [FULLSCREEN, RESOLUTION_W, RESOLUTION_H];
    AudioIndexed(v, [], []);
    assert AcceptsSetting(Filled(v, [], []), Some("audio"), Some("master_volume"));
    AppendedAudio(v, [], [], MASTER_VOLUME);
    assert [] + [MASTER_VOLUME] == [MASTER_VOLUME];
  }

  lemma MusicVolumeStep()
    ensures WithSetting(Filled([FULLSCREEN, RESOLUTION_W, RESOLUTION_H], [MASTER_VOLUME], []), Some("audio"),
                        Some("music_volume"), Some("Music Volume"), Some("Music volume level"), TypeFloat, Slider,
                        FloatV(0.8), FloatRange(0.0, 1.0, 0.1)) ==
            Filled([FULLSCREEN, RESOLUTION_W, RESOLUTION_H], [MASTER_VOLUME, MUSIC_VOLUME], [])
  {
    var v := [FULLSCREEN, RESOLUTION_W, RESOLUTION_H];
    AudioIndexed(v, [MASTER_VOLUME], []);
    assert AcceptsSetting(Filled(v, [MASTER_VOLUME], []), Some("audio"), Some("music_volume"));
    AppendedAudio(v, [MASTER_VOLUME], [], MUSIC_VOLUME);
    assert [MASTER_VOLUME] + [MUSIC_VOLUME] == [MASTER_VOLUME, MUSIC_VOLUME];
  }

  lemma SfxVolumeStep()
    ensures WithSetting(Filled([FULLSCREEN, RESOLUTION_W, RESOLUTION_H], [MASTER_VOLUME, MUSIC_VOLUME], []), Some("audio"),
                        Some("sfx_volume"), Some("Sound Effects Volume"), Some("Sound effects volume level"), TypeFloat,
                        Slider, FloatV(1.0), FloatRange(0.0, 1.0, 0.1)) ==
            Filled([FULLSCREEN, RESOLUTION_W, RESOLUTION_H], [MASTER_VOLUME, MUSIC_VOLUME, SFX_VOLUME], [])
  {
    var v := [FULLSCREEN, RESOLUTION_W, RESOLUTION_H];
    AudioIndexed(v, [MASTER_VOLUME, MUSIC_VOLUME], []);
    assert AcceptsSetting(Filled(v, [MASTER_VOLUME, MUSIC_VOLUME], []), Some("audio"), Some("sfx_volume"));
    AppendedAudio(v, [MASTER_VOLUME, MUSIC_VOLUME], [], SFX_VOLUME);
    assert [MASTER_VOLUME, MUSIC_VOLUME] + [SFX_VOLUME] == [MASTER_VOLUME, MUSIC_VOLUME, SFX_VOLUME];
  }

  lemma DifficultyStep()
    ensures GameplayRegistrations(Filled([FULLSCREEN, RESOLUTION_W, RESOLUTION_H],
                                         [MASTER_VOLUME, MUSIC_VOLUME, SFX_VOLUME], [])) == DEFAULT_TABLE
  {
    var v := [FULLSCREEN, RESOLUTION_W, RESOLUTION_H];
    var au := [MASTER_VOLUME, MUSIC_VOLUME, SFX_VOLUME];
    var f := Filled(v, au, []);
    assert f[1..][1..][1..] == [Category("gameplay", "Gameplay Settings", [])];
    assert CategoryIndex(f[1..][1..][1..], "gameplay") == 0;
    assert CategoryIndex(f[1..][1..], "gameplay") == 1;
    assert CategoryIndex(f[1..], "gameplay") == 2;
    assert AcceptsSetting(Filled(v, au, []), Some("gameplay"), Some("difficulty"));
    AppendedGameplay(v, au, [], DIFFICULTY);
    assert [] + [DIFFICULTY] == [DIFFICULTY];
  }

  /** On a manager without categories every default registration is
      accepted, in order, and the result is `DEFAULT_TABLE`. */
  lemma DefaultsFromEmpty()
    ensures DefaultRegistrations([]) == DEFAULT_TABLE
  {
    CategoriesFromEmpty();
    FullscreenStep();
    ResolutionWStep();
    ResolutionHStep();
    MasterVolumeStep();
    MusicVolumeStep();
    SfxVolumeStep();
    DifficultyStep();
  }

  /** The default table is a valid settings table: distinct category names,
      distinct keys, every setting well typed. */
  lemma DefaultTableValid()
    ensures ValidTable(DEFAULT_TABLE)
  {
    DefaultsFromEmpty();
    RegistrationsKeepValid([]);
  }

  /** Each block of registrations keeps any valid table valid. */
  lemma CategoryRegistrationsKeepValid(cats: seq<Category>)
    requires ValidTable(cats)
    ensures ValidTable(CategoryRegistrations(cats))
  {
    var c1 := WithCategory(cats, Some("video"), Some("Video Settings"));
    var c2 := WithCategory(c1, Some("audio"), Some("Audio Settings"));
    var c3 := WithCategory(c2, Some("controls"), Some("Control Settings"));
    WithCategoryEffect(cats, Some("video"), Some("Video Settings"));
    WithCategoryEffect(c1, Some("audio"), Some("Audio Settings"));
    WithCategoryEffect(c2, Some("controls"), Some("Control Settings"));
    WithCategoryEffect(c3, Some("gameplay"), Some("Gameplay Settings"));
  }

  lemma VideoRegistrationsKeepValid(cats: seq<Category>)
    requires ValidTable(cats)
    ensures ValidTable(VideoRegistrations(cats))
  {
    var v1 := WithSetting(cats, Some("video"), Some("fullscreen"), Some("Fullscreen Mode"),
                          Some("Run the game in fullscreen mode"), TypeBool, Checkbox, BoolV(false), NoConstraint);
    var v2 := WithSetting(v1, Some("video"), Some("resolution_w"), Some("Resolution Width"),
                          Some("Screen width in pixels"), TypeInt, Slider, IntV(1280), IntRange(800, 3840, 1));
    WithSettingKeepsValid(cats, Some("video"), Some("fullscreen"), Some("Fullscreen Mode"),
                      Some("Run the game in fullscreen mode"), TypeBool, Checkbox, BoolV(false), NoConstraint);
    WithSettingKeepsValid(v1, Some("video"), Some("resolution_w"), Some("Resolution Width"),
                      Some("Screen width in pixels"), TypeInt, Slider, IntV(1280), IntRange(800, 3840, 1));
    WithSettingKeepsValid(v2, Some("video"), Some("resolution_h"), Some("Resolution Height"),
                      Some("Screen height in pixels"), TypeInt, Slider, IntV(720), IntRange(600, 2160, 1));
  }

  lemma AudioRegistrationsKeepValid(cats: seq<Category>)
    requires ValidTable(cats)
    ensures ValidTable(AudioRegistrations(cats))
  {
    var a1 := WithSetting(cats, Some("audio"), Some("master_volume"), Some("Master Volume"),
                          Some("Main volume control"), TypeFloat, Slider, FloatV(1.0), FloatRange(0.0, 1.0, 0.1));
    var a2 := WithSetting(a1, Some("audio"), Some("music_volume"), Some("Music Volume"),
                          Some("Music volume level"), TypeFloat, Slider, FloatV(0.8), FloatRange(0.0, 1.0, 0.1));
    WithSettingKeepsValid(cats, Some("audio"), Some("master_volume"), Some("Master Volume"),
                      Some("Main volume control"), TypeFloat, Slider, FloatV(1.0), FloatRange(0.0, 1.0, 0.1));
    WithSettingKeepsValid(a1, Some("audio"), Some("music_volume"), Some("Music Volume"),
                      Some("Music volume level"), TypeFloat, Slider, FloatV(0.8), FloatRange(0.0, 1.0, 0.1));
    WithSettingKeepsValid(a2, Some("audio"), Some("sfx_volume"), Some("Sound Effects Volume"),
                      Some("Sound effects volume level"), TypeFloat, Slider, FloatV(1.0), FloatRange(0.0, 1.0, 0.1));
  }

  lemma GameplayRegistrationsKeepValid(cats: seq<Category>)
    requires ValidTable(cats)
    ensures ValidTable(GameplayRegistrations(cats))
  {
    WithSettingKeepsValid(cats, Some("gameplay"), Some("difficulty"), Some("Difficulty"), Some("Game difficulty setting"),
                          TypeEnum, Dropdown, EnumV(1), EnumOptions(DIFFICULTY_OPTIONS));
  }

  /** The registrations keep any valid table valid. */
  lemma RegistrationsKeepValid(cats: seq<Category>)
    requires ValidTable(cats)
    ensures ValidTable(DefaultRegistrations(cats))
  {
    var c := CategoryRegistrations(cats);
    CategoryRegistrationsKeepValid(cats);
    var v := VideoRegistrations(c);
    VideoRegistrationsKeepValid(c);
    AudioRegistrationsKeepValid(v);
    GameplayRegistrationsKeepValid(AudioRegistrations(v));
  }

  // ---- the defaults --------------------------------------------------------------

  /** Right after startup the video settings read back their defaults. */
  lemma VideoReadBack()
    ensures GetBool(DEFAULT_TABLE, "fullscreen") == false
    ensures GetInt(DEFAULT_TABLE, "resolution_w") == 1280 && GetInt(DEFAULT_TABLE, "resolution_h") == 720
  {
    DefaultTableValid();
    FindKeyOfMember(DEFAULT_TABLE, 0, 0);
    FindKeyOfMember(DEFAULT_TABLE, 0, 1);
    FindKeyOfMember(DEFAULT_TABLE, 0, 2);
  }

  /** Right after startup the volumes read back their defaults. */
  lemma AudioReadBack()
    ensures GetFloat(DEFAULT_TABLE, "master_volume") == 1.0 && GetFloat(DEFAULT_TABLE, "music_volume") == 0.8
    ensures GetFloat(DEFAULT_TABLE, "sfx_volume") == 1.0
  {
    DefaultTableValid();
    FindKeyOfMember(DEFAULT_TABLE, 1, 0);
    FindKeyOfMember(DEFAULT_TABLE, 1, 1);
    FindKeyOfMember(DEFAULT_TABLE, 1, 2);
  }

  /** Right after startup the difficulty is "Normal", option 1. */
  lemma GameplayReadBack()
    ensures GetEnum(DEFAULT_TABLE, "difficulty") == 1 && GetEnumString(DEFAULT_TABLE, "difficulty") == "Normal"
  {
    DefaultTableValid();
    FindKeyOfMember(DEFAULT_TABLE, 3, 0);
  }

  /** Each default setting already satisfies its own constraint. */
  lemma DefaultsAreFixed()
    ensures forall i, a :: 0 <= i < |DEFAULT_TABLE| && 0 <= a < |DEFAULT_TABLE[i].settings| ==>
      Reset(DEFAULT_TABLE[i].settings[a]) == DEFAULT_TABLE[i].settings[a]
  {
    assert Trunc(0.8 / 0.1) == 8;
    assert Trunc(1.0 / 0.1) == 10;
  }

  /** Resetting to defaults right after startup changes nothing and fires no
      callback. */
  lemma DefaultsSurviveReset()
    ensures ResetTable(DEFAULT_TABLE) == DEFAULT_TABLE && AllResetCalls(DEFAULT_TABLE) == []
  {
    DefaultsAreFixed();
    ResetTableFixed(DEFAULT_TABLE);
  }
}
