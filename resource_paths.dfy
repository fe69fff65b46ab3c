/** Resource path getters: the executable's base directory, a fixed
    resource sub-directory and the file name, written into a 1024-byte buffer
    (so at most 1023 characters survive). Each getter owns one static buffer
    that its next call overwrites. The base directory is a parameter; `None`
    is a base the platform could not report. */
module ResourcePaths {
  import opened Handles

  const PATH_BUFFER_SIZE: nat := 1024

  const FONT_DIR: string := "resources/fonts/"
  const MUSIC_DIR: string := "resources/audio/music/"
  const IMAGE_DIR: string := "resources/images/"
  const SFX_DIR: string := "resources/audio/sfx/"

  /** base + dir + file as `snprintf` leaves it in the buffer: the longest
      prefix that fits beside the terminating zero. A missing base counts as
      empty. */
  function ResourcePath(base: Option<string>, dir: string, file: string): (r: string)
    ensures var full := base.GetOr("") + dir + file;
      |r| == (if |full| < PATH_BUFFER_SIZE then |full| else PATH_BUFFER_SIZE - 1) && r == full[..|r|]
  {
    Truncate(base.GetOr("") + dir + file, PATH_BUFFER_SIZE - 1)
  }

  function FontPath(base: Option<string>, file: string): string {
    ResourcePath(base, FONT_DIR, file)
  }

  function MusicPath(base: Option<string>, file: string): string {
    ResourcePath(base, MUSIC_DIR, file)
  }

  function ImagePath(base: Option<string>, file: string): string {
    ResourcePath(base, IMAGE_DIR, file)
  }

  function SfxPath(base: Option<string>, file: string): string {
    ResourcePath(base, SFX_DIR, file)
  }

  /** A path that fits is exactly base + directory + file; a missing base
      leaves the path starting with the directory. */
  lemma PathWhenItFits(base: Option<string>, dir: string, file: string)
    requires |base.GetOr("") + dir + file| < PATH_BUFFER_SIZE
    ensures ResourcePath(base, dir, file) == base.GetOr("") + dir + file
    ensures base.None? ==> ResourcePath(base, dir, file) == dir + file
  {
    assert "" + dir + file == dir + file;
  }

  /** Below the limit a getter is one-to-one in the file name, so two
      different files never share a path. */
  lemma FileRecoverable(base: Option<string>, dir: string, f: string, g: string)
    requires |base.GetOr("") + dir + f| < PATH_BUFFER_SIZE && |base.GetOr("") + dir + g| < PATH_BUFFER_SIZE
    requires ResourcePath(base, dir, f) == ResourcePath(base, dir, g)
    ensures f == g
  {
    var prefix := base.GetOr("") + dir;
    assert (prefix + f)[|prefix|..] == f;
    assert (prefix + g)[|prefix|..] == g;
  }

  /** Once base + directory fills the buffer, every file gets the same path. */
  lemma LongBaseCollides(base: Option<string>, dir: string, f: string, g: string)
    requires |base.GetOr("") + dir| >= PATH_BUFFER_SIZE - 1
    ensures ResourcePath(base, dir, f) == ResourcePath(base, dir, g)
  {
    var prefix := base.GetOr("") + dir;
    assert (prefix + f)[..PATH_BUFFER_SIZE - 1] == prefix[..PATH_BUFFER_SIZE - 1];
    assert (prefix + g)[..PATH_BUFFER_SIZE - 1] == prefix[..PATH_BUFFER_SIZE - 1];
  }

  /** Music and sound effects share one cache table, but below the limit a
      music path and an effect path never coincide: their directories part
      at "resources/audio/m" versus "resources/audio/s". */
  lemma SoundPathsDiffer(base: Option<string>, f: string, g: string)
    requires |base.GetOr("")| + 16 < PATH_BUFFER_SIZE - 1
    ensures MusicPath(base, f) != SfxPath(base, g)
  {
    var b := base.GetOr("");
    var p := |b| + 16;
    assert (b + MUSIC_DIR + f)[p] == MUSIC_DIR[16] == 'm';
    assert (b + SFX_DIR + g)[p] == SFX_DIR[16] == 's';
    assert MusicPath(base, f)[p] == 'm';
    assert SfxPath(base, g)[p] == 's';
  }

  /** The four static buffers. Each holds its getter's last result (zeroed,
      that is empty, before the first call). */
  class PathBuffers {
    var font: string
    var music: string
    var image: string
    var sfx: string

    constructor ()
      ensures font == "" && music == "" && image == "" && sfx == ""
    {
      font, music, image, sfx := "", "", "", "";
    }

    /** `get_font_path`: overwrites the font buffer only. */
    method GetFontPath(base: Option<string>, file: string) returns (p: string)
      modifies this
      ensures p == FontPath(base, file) && font == p
      ensures music == old(music) && image == old(image) && sfx == old(sfx)
    {
      font := FontPath(base, file);
      p := font;
    }

    /** `get_music_path`: overwrites the music buffer only. */
    method GetMusicPath(base: Option<string>, file: string) returns (p: string)
      modifies this
      ensures p == MusicPath(base, file) && music == p
      ensures font == old(font) && image == old(image) && sfx == old(sfx)
    {
      music := MusicPath(base, file);
      p := music;
    }

    /** `get_image_path`: overwrites the image buffer only. */
    method GetImagePath(base: Option<string>, file: string) returns (p: string)
      modifies this
      ensures p == ImagePath(base, file) && image == p
      ensures font == old(font) && music == old(music) && sfx == old(sfx)
    {
      image := ImagePath(base, file);
      p := image;
    }

    /** `get_sfx_path`: overwrites the sound-effect buffer only. */
    method GetSfxPath(base: Option<string>, file: string) returns (p: string)
      modifies this
      ensures p == SfxPath(base, file) && sfx == p
      ensures font == old(font) && music == old(music) && image == old(image)
    {
      sfx := SfxPath(base, file);
      p := sfx;
    }
  }
}
