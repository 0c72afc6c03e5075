/**
 * The two texture providers (Providers/FolderTextureProvider.cs and
 * Providers/ContentTextureProvider.cs). Each caches the textures it loaded in a
 * dictionary of weak references whose keys compare without regard to case; a cache
 * entry is used while its texture is still alive and not disposed, and is replaced
 * on the next load otherwise. Loading itself (a file stream, the content manager)
 * is outside the model: the texture it produces is a parameter.
 */
module TextureProviders {
  import opened Wrappers
  import opened TextureHelper

  /** Windows' directory separators. */
  const DirectorySeparatorChar := '\\'
  const AltDirectorySeparatorChar := '/'

  /** What a weak reference holds: its texture, or nothing once the garbage collector has taken it. */
  datatype WeakTexture = Alive(texture: Texture2D) | Collected

  /*
   * Case-insensitive keys.
   */

  /** A character as a case-insensitive comparison sees it (ASCII letters only). */
  function FoldCase(c: char): char
  {
    if 'a' <= c <= 'z' then (c as int - 'a' as int + 'A' as int) as char else c
  }

  /** Two names the cache treats as one key. */
  predicate SameIgnoringCase(a: string, b: string)
  {
    |a| == |b| && forall i :: 0 <= i < |a| ==> FoldCase(a[i]) == FoldCase(b[i])
  }

  /** The cache's key for a name. */
  function CacheKey(name: string): (r: string)
    ensures |r| == |name|
    ensures forall i :: 0 <= i < |name| ==> r[i] == FoldCase(name[i])
  {
    seq(|name|, i requires 0 <= i < |name| => FoldCase(name[i]))
  }

  /** Two names reach the same cache entry exactly when they are equal up to case. */
  lemma CacheKeyIgnoresCase(a: string, b: string)
    ensures CacheKey(a) == CacheKey(b) <==> SameIgnoringCase(a, b)
  {
    if CacheKey(a) == CacheKey(b) {
      forall i | 0 <= i < |a|
        ensures FoldCase(a[i]) == FoldCase(b[i])
      {
        assert CacheKey(a)[i] == FoldCase(a[i]) && CacheKey(b)[i] == FoldCase(b[i]);
      }
    }
    if SameIgnoringCase(a, b) {
      assert forall i :: 0 <= i < |a| ==> CacheKey(a)[i] == CacheKey(b)[i];
    }
  }

  /** The texture under `key` when the cache may hand it out: the entry exists, is alive and its texture is not disposed. */
  function CachedTexture(cache: map<string, WeakTexture>, key: string): (r: Option<Texture2D>)
    reads if key in cache && cache[key].Alive? then {cache[key].texture} else {}
    ensures r.Some? <==> key in cache && cache[key].Alive? && !cache[key].texture.isDisposed
    ensures r.Some? ==> r.value == cache[key].texture
  {
    if key in cache && cache[key].Alive? && !cache[key].texture.isDisposed then Some(cache[key].texture) else Option.None
  }

  /** The textures the cache still reaches. */
  function LiveTextures(cache: map<string, WeakTexture>): set<Texture2D>
  {
    set key | key in cache && cache[key].Alive? :: cache[key].texture
  }

  /** Disposes every texture in `textures`, touching nothing else of them. */
  method DisposeAll(textures: set<Texture2D>)
    modifies textures
    ensures forall t :: t in textures ==> t.isDisposed && t.data == old(t.data)
  {
    var remaining := textures;
    while remaining != {}
      invariant remaining <= textures
      invariant forall t :: t in textures - remaining ==> t.isDisposed
      invariant forall t :: t in textures ==> t.data == old(t.data)
      decreases remaining
    {
      var t :| t in remaining;
      t.isDisposed := true;
      remaining := remaining - {t};
    }
  }

  /*
   * Paths.
   */

  predicate EndsWithSeparator(path: string)
  {
    |path| > 0 && path[|path| - 1] == DirectorySeparatorChar
  }

  /** The folder provider's root: the given path, with a separator appended when it does not already end with one. */
  function WithTrailingSeparator(path: string): (r: string)
    ensures EndsWithSeparator(r)
    ensures EndsWithSeparator(path) ==> r == path
    ensures !EndsWithSeparator(path) ==> r == path + [DirectorySeparatorChar]
  {
    if EndsWithSeparator(path) then path else path + [DirectorySeparatorChar]
  }

  /** Normalising the root twice appends nothing more. */
  lemma TrailingSeparatorIsIdempotent(path: string)
    ensures WithTrailingSeparator(WithTrailingSeparator(path)) == WithTrailingSeparator(path)
  {
  }

  /** A Windows path that stands on its own: it starts with a separator or names a drive. */
  predicate IsPathRooted(path: string)
  {
    (|path| >= 1 && (path[0] == DirectorySeparatorChar || path[0] == AltDirectorySeparatorChar))
    || (|path| >= 2 && path[1] == ':')
  }

  /** Combining a root that ends with a separator with a file name: the name itself when rooted, else the two joined. */
  function Combine(root: string, filename: string): (r: string)
    requires EndsWithSeparator(root)
    ensures IsPathRooted(filename) ==> r == filename
    ensures !IsPathRooted(filename) ==> |r| == |root| + |filename| && r[..|root|] == root && r[|root|..] == filename
  {
    if IsPathRooted(filename) then filename else root + filename
  }

  /** A separator of either kind. */
  predicate IsSeparator(c: char)
  {
    c == DirectorySeparatorChar || c == AltDirectorySeparatorChar
  }

  /** Leading separators of either kind removed: what is removed is all separators, and what is left does not start with one. */
  function TrimLeadingSeparators(s: string): (r: string)
    ensures |r| <= |s| && r == s[|s| - |r|..]
    ensures r != [] ==> !IsSeparator(r[0])
    ensures forall i :: 0 <= i < |s| - |r| ==> IsSeparator(s[i])
  {
    if s != [] && IsSeparator(s[0]) then
      var r := TrimLeadingSeparators(s[1..]);
      assert forall i :: 1 <= i < |s| - |r| ==> s[i] == s[1..][i - 1];
      r
    else s
  }

  predicate StartsWith(s: string, prefix: string)
  {
    |prefix| <= |s| && s[..|prefix|] == prefix
  }

  /**
   * The content provider's asset name for a file name: when the name starts with the
   * root path it is cut down to its first `|rootPath|` characters (that is, to the root
   * path itself), then leading separators are trimmed.
   */
  function ContentName(filename: string, rootPath: string): string
  {
    var name := if StartsWith(filename, rootPath) then filename[..|rootPath|] else filename;
    TrimLeadingSeparators(name)
  }

  /**
   * Because the cut keeps the root path rather than what follows it, every file under
   * the root path gets the same asset name, the trimmed root path; an empty root path
   * gives every file the empty name.
   */
  lemma FilesUnderRootShareOneName(a: string, b: string, rootPath: string)
    requires StartsWith(a, rootPath) && StartsWith(b, rootPath)
    ensures ContentName(a, rootPath) == ContentName(b, rootPath) == TrimLeadingSeparators(rootPath)
    ensures rootPath == [] ==> ContentName(a, rootPath) == []
  {
  }

  /** Names outside the root path keep everything but their leading separators. */
  lemma OtherNamesAreTrimmedOnly(filename: string, rootPath: string)
    requires !StartsWith(filename, rootPath)
    ensures ContentName(filename, rootPath) == TrimLeadingSeparators(filename)
    ensures ContentName(filename, rootPath) == filename[|filename| - |ContentName(filename, rootPath)|..]
  {
  }

  /*
   * The providers.
   */

  /** Loads textures from files under a folder, premultiplying the alpha of colour textures. */
  class FolderTextureProvider {
    var cache: map<string, WeakTexture>
    const rootPath: string

    ghost predicate Valid()
      reads this
    {
      EndsWithSeparator(rootPath)
    }

    constructor (rootPath: string)
      ensures Valid() && this.rootPath == WithTrailingSeparator(rootPath) && cache == map[]
    {
      this.rootPath := WithTrailingSeparator(rootPath);
      cache := map[];
    }

    /** Disposes every texture the cache still reaches and empties the cache. */
    method Dispose()
      modifies LiveTextures(cache), this
      ensures cache == map[]
      ensures forall t :: t in LiveTextures(old(cache)) ==> t.isDisposed && t.data == old(t.data)
    {
      DisposeAll(LiveTextures(cache));
      cache := map[];
    }

    /**
     * A usable cached texture is returned as it is; otherwise `loaded`, the texture read
     * from the root path combined with the name, is post-processed and cached under the name.
     */
    method GetTexture(filename: string, loaded: Texture2D) returns (texture: Texture2D, loadedFrom: Option<string>)
      requires Valid()
      modifies this, loaded
      ensures Valid()
      ensures var hit := CachedTexture(old(cache), CacheKey(filename));
        && (hit.Some? ==> texture == hit.value && loadedFrom == Option.None && cache == old(cache) && unchanged(loaded))
        && (hit.None? ==>
              && texture == loaded && loadedFrom == Some(Combine(rootPath, filename))
              && cache == old(cache)[CacheKey(filename) := Alive(loaded)]
              && loaded.data == (if loaded.format == ColorFormat then Premultiplied(old(loaded.data)) else old(loaded.data))
              && loaded.isDisposed == old(loaded.isDisposed))
    {
      var cached := CachedTexture(cache, CacheKey(filename));
      if cached.Some? {
        return cached.value, Option.None;
      }
      var fullPath := Combine(rootPath, filename);
      texture := PremultiplyLoadedTexture(loaded);
      cache := cache[CacheKey(filename) := Alive(texture)];
      loadedFrom := Some(fullPath);
    }

    /** The size of the texture for a name, loading it if need be. */
    method GetTextureInfo(filename: string, loaded: Texture2D) returns (width: nat, height: nat)
      requires Valid()
      modifies this, loaded
      ensures Valid()
      ensures var hit := CachedTexture(old(cache), CacheKey(filename));
        && (hit.Some? ==> width == hit.value.width && height == hit.value.height && cache == old(cache))
        && (hit.None? ==> width == loaded.width && height == loaded.height && cache == old(cache)[CacheKey(filename) := Alive(loaded)])
    {
      var texture, _ := GetTexture(filename, loaded);
      width, height := texture.width, texture.height;
    }

    /**
     * The UI texture for a name. Wrapping never succeeds: a usable cached texture is live,
     * so it fails at the native pointer, and so does a loaded one unless it was already disposed.
     */
    method LoadTexture(filename: string, loaded: Texture2D) returns (r: Result<Option<NoesisTexture>, TextureError>)
      requires Valid()
      modifies this, loaded
      ensures Valid()
      ensures var hit := CachedTexture(old(cache), CacheKey(filename));
        r == if hit.None? && old(loaded.isDisposed) then Failure(DisposedTexture) else Failure(NativeTexturePointerNotImplemented)
      ensures var hit := CachedTexture(old(cache), CacheKey(filename));
        cache == if hit.Some? then old(cache) else old(cache)[CacheKey(filename) := Alive(loaded)]
    {
      var texture, _ := GetTexture(filename, loaded);
      WrappingNeverYieldsTexture(texture);
      r := CreateNoesisTexture(texture);
    }
  }

  /** Loads textures through the game's content manager. */
  class ContentTextureProvider {
    var cache: map<string, WeakTexture>
    const rootPath: string

    constructor (rootPath: string)
      ensures this.rootPath == rootPath && cache == map[]
    {
      this.rootPath := rootPath;
      cache := map[];
    }

    /** Disposes every texture the cache still reaches and empties the cache. */
    method Dispose()
      modifies LiveTextures(cache), this
      ensures cache == map[]
      ensures forall t :: t in LiveTextures(old(cache)) ==> t.isDisposed && t.data == old(t.data)
    {
      DisposeAll(LiveTextures(cache));
      cache := map[];
    }

    /**
     * The name is normalised by `ContentName`; a usable cached texture is returned as it
     * is; otherwise `loaded`, what the content manager loads for the normalised name, is
     * cached under that name.
     */
    method GetTexture(filename: string, loaded: Texture2D) returns (texture: Texture2D, loadedAsset: Option<string>)
      modifies this
      ensures var name := ContentName(filename, rootPath);
        var hit := CachedTexture(old(cache), CacheKey(name));
        && (hit.Some? ==> texture == hit.value && loadedAsset == Option.None && cache == old(cache))
        && (hit.None? ==> texture == loaded && loadedAsset == Some(name) && cache == old(cache)[CacheKey(name) := Alive(loaded)])
    {
      var name := filename;
      if StartsWith(name, rootPath) {
        name := name[..|rootPath|];
      }
      name := TrimLeadingSeparators(name);
      var cached := CachedTexture(cache, CacheKey(name));
      if cached.Some? {
        return cached.value, Option.None;
      }
      cache := cache[CacheKey(name) := Alive(loaded)];
      return loaded, Some(name);
    }

    /** The size of the texture for a name, loading it if need be. */
    method GetTextureInfo(filename: string, loaded: Texture2D) returns (width: nat, height: nat)
      modifies this
      ensures var hit := CachedTexture(old(cache), CacheKey(ContentName(filename, rootPath)));
        && (hit.Some? ==> width == hit.value.width && height == hit.value.height && cache == old(cache))
        && (hit.None? ==> width == loaded.width && height == loaded.height
                          && cache == old(cache)[CacheKey(ContentName(filename, rootPath)) := Alive(loaded)])
    {
      var texture, _ := GetTexture(filename, loaded);
      width, height := texture.width, texture.height;
    }

    /**
     * The UI texture for a name. Wrapping never succeeds: a usable cached texture fails at
     * the native pointer, and so does a loaded one unless the content manager handed back
     * an asset that was disposed (as it does after `Dispose`), which is refused as disposed.
     */
    method LoadTexture(filename: string, loaded: Texture2D) returns (r: Result<Option<NoesisTexture>, TextureError>)
      modifies this
      ensures var hit := CachedTexture(old(cache), CacheKey(ContentName(filename, rootPath)));
        r == if hit.None? && loaded.isDisposed then Failure(DisposedTexture) else Failure(NativeTexturePointerNotImplemented)
      ensures var hit := CachedTexture(old(cache), CacheKey(ContentName(filename, rootPath)));
        cache == if hit.Some? then old(cache) else old(cache)[CacheKey(ContentName(filename, rootPath)) := Alive(loaded)]
    {
      var texture, _ := GetTexture(filename, loaded);
      WrappingNeverYieldsTexture(texture);
      r := CreateNoesisTexture(texture);
    }
  }

  /**
   * Two different files under the content provider's root path reach one cache entry:
   * after the first is loaded and while its texture stays usable, asking for the second
   * returns the first's texture without loading anything.
   */
  method SecondFileUnderRootGetsFirstTexture(provider: ContentTextureProvider, a: string, b: string, loadedA: Texture2D, loadedB: Texture2D)
      returns (textureA: Texture2D, textureB: Texture2D, loadedAsset: Option<string>)
    requires StartsWith(a, provider.rootPath) && StartsWith(b, provider.rootPath)
    requires !loadedA.isDisposed
    modifies provider
    ensures textureB == textureA && loadedAsset == Option.None
  {
    FilesUnderRootShareOneName(a, b, provider.rootPath);
    var firstAsset;
    textureA, firstAsset := provider.GetTexture(a, loadedA);
    textureB, loadedAsset := provider.GetTexture(b, loadedB);
  }
}
