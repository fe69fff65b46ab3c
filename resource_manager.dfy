/** The memoising resource loader. Each `load_*` builds its cache key from
    the resource path, returns a cached handle when there is one, and
    otherwise asks the platform loader and remembers a successful result.
    Loader results are parameters (`Null` is a failed load); whether the
    loader was consulted at all is returned as `loaded`. */
module ResourceManager {
  import opened Handles
  import opened ResourceCache
  import opened ResourcePaths

  // ---- decimal text, as `%d` prints it ------------------------------------------------

  function DigitChar(d: int): char
    requires 0 <= d < 10
  {
    "0123456789"[d]
  }

  function Digits(n: nat): (s: string)
    ensures |s| >= 1 && forall i :: 0 <= i < |s| ==> '0' <= s[i] <= '9'
    ensures n < 10 <==> |s| == 1
  {
    if n < 10 then [DigitChar(n)] else Digits(n / 10) + [DigitChar(n % 10)]
  }

  function IntText(n: int): (s: string)
    ensures forall i :: 0 <= i < |s| ==> s[i] != '_'
  {
    if n < 0 then "-" + Digits(-n) else Digits(n)
  }

  lemma {:induction false} DigitsInjective(m: nat, n: nat)
    requires Digits(m) == Digits(n)
    ensures m == n
  {
    if m >= 10 && n >= 10 {
      var s := Digits(m);
      assert s[..|s| - 1] == Digits(m / 10) && s[..|s| - 1] == Digits(n / 10);
      DigitsInjective(m / 10, n / 10);
      assert DigitChar(m % 10) == s[|s| - 1] == DigitChar(n % 10);
    }
  }

  /** The text starts with '-' exactly for a negative number. */
  lemma IntTextSign(n: int)
    ensures |IntText(n)| >= 1 && (IntText(n)[0] == '-' <==> n < 0)
  {
    if n >= 0 {
      assert IntText(n)[0] == Digits(n)[0];
    }
  }

  /** Different numbers print differently. */
  lemma IntTextInjective(m: int, n: int)
    requires IntText(m) == IntText(n)
    ensures m == n
  {
    IntTextSign(m);
    IntTextSign(n);
    if m < 0 && n < 0 {
      assert IntText(m)[1..] == Digits(-m) && IntText(n)[1..] == Digits(-n);
      DigitsInjective(-m, -n);
    } else if m >= 0 && n >= 0 {
      DigitsInjective(m, n);
    }
  }

  // ---- font keys --------------------------------------------------------------------

  /** Size of the key buffer in `load_font`. */
  const FONT_KEY_BUFFER: nat := 256

  /** The font key as `load_font` writes it: "<path>_<size>" cut to the 255
      characters its buffer holds. */
  function FontKeyAsWritten(path: string, size: int): (key: string)
    ensures var full := path + "_" + IntText(size);
      |key| == (if |full| < FONT_KEY_BUFFER then |full| else FONT_KEY_BUFFER - 1) && key == full[..|key|]
  {
    Truncate(path + "_" + IntText(size), FONT_KEY_BUFFER - 1)
  }

  /** With a font path of 255 characters or more the size no longer reaches
      the key: 12-point and 24-point requests for one file share an entry. */
  lemma FontKeyAsWrittenCollides(path: string)
    requires |path| >= FONT_KEY_BUFFER - 1
    ensures FontKeyAsWritten(path, 12) == FontKeyAsWritten(path, 24)
  {
    assert (path + "_" + IntText(12))[..FONT_KEY_BUFFER - 1] == path[..FONT_KEY_BUFFER - 1];
    assert (path + "_" + IntText(24))[..FONT_KEY_BUFFER - 1] == path[..FONT_KEY_BUFFER - 1];
  }

  /** Such a path is a real font path: a base directory of 239 characters
      puts it at the limit. */
  lemma LongBaseFontCollision(base: string, file: string)
    requires |base| >= FONT_KEY_BUFFER - 1 - |FONT_DIR|
    ensures FontKeyAsWritten(FontPath(Some(base), file), 12) == FontKeyAsWritten(FontPath(Some(base), file), 24)
  {
    FontKeyAsWrittenCollides(FontPath(Some(base), file));
  }

  /** The key the cache is meant to use: the whole of "<path>_<size>". */
  function FontKey(path: string, size: int): string {
    path + "_" + IntText(size)
  }

  /** In path + "_" + t, with no '_' in t, the '_' at |path| is the last. */
  lemma UnderscoreSplits(path: string, t: string)
    requires forall i :: 0 <= i < |t| ==> t[i] != '_'
    ensures (path + "_" + t)[|path|] == '_'
    ensures forall i :: |path| < i < |path + "_" + t| ==> (path + "_" + t)[i] != '_'
  {
    forall i | |path| < i < |path + "_" + t|
      ensures (path + "_" + t)[i] != '_'
    {
      assert (path + "_" + t)[i] == t[i - |path| - 1];
    }
  }

  /** Distinct (path, size) pairs have distinct keys, so one file at two
      sizes gets two entries. The size text has no '_', so the last '_'
      marks where the path ends. */
  lemma FontKeyInjective(p: string, m: int, q: string, n: int)
    requires FontKey(p, m) == FontKey(q, n)
    ensures p == q && m == n
  {
    var key := FontKey(p, m);
    UnderscoreSplits(p, IntText(m));
    UnderscoreSplits(q, IntText(n));
    if |p| == |q| {
      assert p == key[..|p|] == q;
      assert IntText(m) == key[|p| + 1..] == IntText(n);
      IntTextInjective(m, n);
    }
  }

  // ---- cache-through ------------------------------------------------------------------

  /** A table never holds the null handle: only successful loads are stored. */
  ghost predicate NoNulls(table: map<string, Ptr>) {
    forall k :: k in table ==> table[k] != Null
  }

  /** What one `load_*` returns, whether it consulted the loader, and the
      table afterwards. */
  datatype Outcome = Outcome(handle: Ptr, loaded: bool, table: map<string, Ptr>)

  /** A cached key is returned as is; otherwise the loader's result
      `fetched` is returned and, unless it is null, stored under the key. */
  function CacheThrough(table: map<string, Ptr>, key: string, fetched: Ptr): Outcome {
    if key in table then Outcome(table[key], false, table)
    else if fetched == Null then Outcome(Null, true, table)
    else Outcome(fetched, true, table[key := fetched])
  }

  /** A hit returns the cached handle without calling the loader; a failed
      load returns null and leaves the table; a successful one stores its
      handle, so the next request for the key is a hit on that handle. */
  lemma CacheThroughCases(table: map<string, Ptr>, key: string, fetched: Ptr, again: Ptr)
    requires NoNulls(table)
    ensures var o := CacheThrough(table, key, fetched);
      NoNulls(o.table) && (o.loaded <==> key !in table) &&
      (key in table ==> o.handle == table[key] && o.table == table) &&
      (key !in table && fetched == Null ==> o.handle == Null && o.table == table) &&
      (o.handle != Null ==> CacheThrough(o.table, key, again) == Outcome(o.handle, false, o.table))
  {
  }

  /** Loading under one key neither changes what another key returns nor
      whether the loader is called for it. */
  lemma OtherKeysUnaffected(table: map<string, Ptr>, k1: string, x: Ptr, k2: string, y: Ptr)
    requires k1 != k2
    ensures var later := CacheThrough(CacheThrough(table, k1, x).table, k2, y);
      later.handle == CacheThrough(table, k2, y).handle && later.loaded == CacheThrough(table, k2, y).loaded
  {
  }

  /** Music and effects share the sounds table, yet loading an effect named
      `f` never answers a request for the music named `g`. */
  lemma ChunkDoesNotShadowMusic(table: map<string, Ptr>, base: Option<string>, f: string, x: Ptr, g: string, y: Ptr)
    requires |base.GetOr("")| + 16 < PATH_BUFFER_SIZE - 1
    ensures var later := CacheThrough(CacheThrough(table, SfxPath(base, f), x).table, MusicPath(base, g), y);
      later.handle == CacheThrough(table, MusicPath(base, g), y).handle &&
      later.loaded == CacheThrough(table, MusicPath(base, g), y).loaded
  {
    SoundPathsDiffer(base, g, f);
    OtherKeysUnaffected(table, SfxPath(base, f), x, MusicPath(base, g), y);
  }

  /** Textures and surfaces share the textures table and the key: whichever
      of the two loads a sub-path first, the other one returns that handle. */
  lemma FirstImageLoadWins(table: map<string, Ptr>, base: Option<string>, subPath: string, first: Ptr, second: Ptr)
    requires NoNulls(table)
    ensures var o := CacheThrough(table, ImagePath(base, subPath), first);
      o.handle != Null ==> CacheThrough(o.table, ImagePath(base, subPath), second) == Outcome(o.handle, false, o.table)
  {
    CacheThroughCases(table, ImagePath(base, subPath), first, second);
  }

  /** `ResourceManager`. */
  class Manager {
    var cache: Cache

    ghost predicate Valid()
      reads this, cache, cache.textures, cache.fonts, cache.sounds
      reads cache.textures.entries, cache.fonts.entries, cache.sounds.entries
    {
      cache.Valid() &&
      NoNulls(cache.textures.contents) && NoNulls(cache.fonts.contents) && NoNulls(cache.sounds.contents)
    }

    /** `resource_manager_create`: all three tables empty. */
    constructor ()
      ensures Valid() && fresh(cache) && fresh(cache.textures) && fresh(cache.fonts) && fresh(cache.sounds)
      ensures fresh(cache.textures.entries) && fresh(cache.fonts.entries) && fresh(cache.sounds.entries)
      ensures cache.textures.contents == map[] && cache.fonts.contents == map[] && cache.sounds.contents == map[]
    {
      cache := new Cache();
    }

    /** Runs one cache-through step on `table`. */
    static method Through(table: HashMap, key: string, fetched: Ptr) returns (r: Ptr, loaded: bool)
      requires table.Valid() && NoNulls(table.contents)
      modifies table, table.entries
      ensures table.Valid() && NoNulls(table.contents) && table.entries == old(table.entries)
      ensures Outcome(r, loaded, table.contents) == CacheThrough(old(table.contents), key, fetched)
    {
      var cached := table.Get(Some(key));
      if cached != Null {
        return cached, false;
      }
      if fetched == Null {
        return Null, true;
      }
      table.Put(Some(key), fetched);
      return fetched, true;
    }

    /** `load_texture`: keyed by the image path; `surface` stands for what
        the image decoder returns, `created` for the texture made from it. */
    method LoadTexture(paths: PathBuffers, base: Option<string>, subPath: string, surface: Ptr, created: Ptr)
      returns (r: Ptr, loaded: bool)
      requires Valid()
      modifies paths, cache.textures, cache.textures.entries
      ensures Valid()
      ensures Outcome(r, loaded, cache.textures.contents) ==
        CacheThrough(old(cache.textures.contents), ImagePath(base, subPath), if surface == Null then Null else created)
      ensures paths.image == ImagePath(base, subPath)
      ensures paths.font == old(paths.font) && paths.music == old(paths.music) && paths.sfx == old(paths.sfx)
    {
      var path := paths.GetImagePath(base, subPath);
      r, loaded := Through(cache.textures, path, if surface == Null then Null else created);
    }

    /** `load_font`: keyed by the font path and the point size; `face`
        stands for what the font loader returns. */
    method LoadFont(paths: PathBuffers, base: Option<string>, fileName: string, size: int, face: Ptr)
      returns (r: Ptr, loaded: bool)
      requires Valid()
      modifies paths, cache.fonts, cache.fonts.entries
      ensures Valid()
      ensures Outcome(r, loaded, cache.fonts.contents) ==
        CacheThrough(old(cache.fonts.contents), FontKey(FontPath(base, fileName), size), face)
      ensures paths.font == FontPath(base, fileName)
      ensures paths.music == old(paths.music) && paths.image == old(paths.image) && paths.sfx == old(paths.sfx)
    {
      var path := paths.GetFontPath(base, fileName);
      r, loaded := Through(cache.fonts, FontKey(path, size), face);
    }

    /** `load_chunk`: keyed by the effect path in the shared sounds table. */
    method LoadChunk(paths: PathBuffers, base: Option<string>, subPath: string, decoded: Ptr)
      returns (r: Ptr, loaded: bool)
      requires Valid()
      modifies paths, cache.sounds, cache.sounds.entries
      ensures Valid()
      ensures Outcome(r, loaded, cache.sounds.contents) ==
        CacheThrough(old(cache.sounds.contents), SfxPath(base, subPath), decoded)
      ensures paths.sfx == SfxPath(base, subPath)
      ensures paths.font == old(paths.font) && paths.music == old(paths.music) && paths.image == old(paths.image)
    {
      var path := paths.GetSfxPath(base, subPath);
      r, loaded := Through(cache.sounds, path, decoded);
    }

    /** `load_music`: keyed by the music path in the shared sounds table. */
    method LoadMusic(paths: PathBuffers, base: Option<string>, subPath: string, decoded: Ptr)
      returns (r: Ptr, loaded: bool)
      requires Valid()
      modifies paths, cache.sounds, cache.sounds.entries
      ensures Valid()
      ensures Outcome(r, loaded, cache.sounds.contents) ==
        CacheThrough(old(cache.sounds.contents), MusicPath(base, subPath), decoded)
      ensures paths.music == MusicPath(base, subPath)
      ensures paths.font == old(paths.font) && paths.image == old(paths.image) && paths.sfx == old(paths.sfx)
    {
      var path := paths.GetMusicPath(base, subPath);
      r, loaded := Through(cache.sounds, path, decoded);
    }

    /** `load_surface`: the same table and key as `load_texture`. */
    method LoadSurface(paths: PathBuffers, base: Option<string>, subPath: string, surface: Ptr)
      returns (r: Ptr, loaded: bool)
      requires Valid()
      modifies paths, cache.textures, cache.textures.entries
      ensures Valid()
      ensures Outcome(r, loaded, cache.textures.contents) ==
        CacheThrough(old(cache.textures.contents), ImagePath(base, subPath), surface)
      ensures paths.image == ImagePath(base, subPath)
      ensures paths.font == old(paths.font) && paths.music == old(paths.music) && paths.sfx == old(paths.sfx)
    {
      var path := paths.GetImagePath(base, subPath);
      r, loaded := Through(cache.textures, path, surface);
    }
  }
}
