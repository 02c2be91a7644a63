/**
 * TextureManager (src/renderer/texturemanager.cpp): the path-keyed
 * texture cache with its fall-back to the default texture, the
 * layout-transition decision table, the default-texture constants and
 * cleanup. Loading a texture from a file is an uninterpreted operation
 * whose outcome (a texture, or a failure) is given to `LoadTexture`.
 */
module Textures {
  import opened Wrappers
  import opened GpuBuffers

  datatype Texture = Texture(image: Option<Handle>, imageView: Option<Handle>,
                             width: nat, height: nat, mipLevels: nat, hasAlpha: bool)

  /** A `const Texture*`: either the cache entry for a path or the default texture. */
  datatype TextureRef = Cached(path: string) | DefaultTexture

  /** The default texture: one magenta RGBA8 pixel. */
  const DEFAULT_WIDTH: nat := 1
  const DEFAULT_HEIGHT: nat := 1
  const DEFAULT_PIXELS: seq<nat> := [255, 0, 255, 255]

  /** Bytes of the default image: width * height * 4. */
  function DefaultImageSize(): nat { DEFAULT_WIDTH * DEFAULT_HEIGHT * 4 }

  /** The staging copy of the default texture moves exactly its pixel array. */
  lemma DefaultPixelsFillImage()
    ensures DefaultImageSize() == |DEFAULT_PIXELS|
    ensures forall i :: 0 <= i < |DEFAULT_PIXELS| ==> DEFAULT_PIXELS[i] < 256
  {
  }

  /** loadTexture as a function of the cache: the new cache and the returned reference. */
  function Load(cache: map<string, Texture>, path: string, created: Option<Texture>): (r: (map<string, Texture>, TextureRef))
  {
    if path in cache then (cache, Cached(path))
    else if created.Some? then (cache[path := created.value], Cached(path))
    else (cache, DefaultTexture)
  }

  /** The texture a reference designates. */
  function Deref(cache: map<string, Texture>, defaultTexture: Texture, ref: TextureRef): Texture
    requires ref.Cached? ==> ref.path in cache
  {
    if ref.Cached? then cache[ref.path] else defaultTexture
  }

  /**
   * The cache only grows, a returned cache reference is valid, a hit
   * returns the cached texture, a created texture is what the reference
   * then designates, and a failure leaves the cache as it was.
   */
  lemma LoadProperties(cache: map<string, Texture>, path: string, created: Option<Texture>, defaultTexture: Texture)
    ensures var (c, ref) := Load(cache, path, created);
            && (forall p :: p in cache ==> p in c && c[p] == cache[p])
            && (ref.Cached? ==> ref.path == path && path in c)
            && (path in cache ==> c == cache && Deref(c, defaultTexture, ref) == cache[path])
            && (path !in cache && created.Some? ==> Deref(c, defaultTexture, ref) == created.value && c.Keys == cache.Keys + {path})
            && (path !in cache && created.None? ==> c == cache && ref == DefaultTexture)
  {
  }

  /**
   * Loading the same path again always hits once it succeeded, whatever
   * the second creation would have produced; after a failure the path is
   * still absent, so a later call retries creation.
   */
  lemma LoadThenReload(cache: map<string, Texture>, path: string, first: Option<Texture>, second: Option<Texture>)
    ensures var (c1, r1) := Load(cache, path, first);
            var (c2, r2) := Load(c1, path, second);
            (r1.Cached? ==> c2 == c1 && r2 == r1) &&
            (r1 == DefaultTexture ==> path !in c1 && c2 == Load(cache, path, second).0)
  {
  }

  /**
   * The reference loadTexture returns for `path` when every path is
   * created by `created` and the cache started as `cache0`: the cache
   * entry when the path was there from the start or its creation
   * succeeds, the default texture otherwise.
   */
  function Resolved(cache0: map<string, Texture>, created: string -> Option<Texture>, path: string): TextureRef {
    if path in cache0 || created(path).Some? then Cached(path) else DefaultTexture
  }

  /** A cache grown from `cache0` by loads through `created`: it only ever gained created paths. */
  predicate GrownFrom(cache: map<string, Texture>, cache0: map<string, Texture>, created: string -> Option<Texture>) {
    && cache0.Keys <= cache.Keys
    && forall p :: p in cache ==> p in cache0 || created(p).Some?
  }

  /**
   * Whatever loads came before, a load returns the reference `Resolved`
   * names, and the cache stays grown from the same start.
   */
  lemma LoadResolves(cache: map<string, Texture>, cache0: map<string, Texture>, created: string -> Option<Texture>,
                     path: string)
    requires GrownFrom(cache, cache0, created)
    ensures Load(cache, path, created(path)).1 == Resolved(cache0, created, path)
    ensures GrownFrom(Load(cache, path, created(path)).0, cache0, created)
  {
    if path in cache && path !in cache0 {
      assert created(path).Some?;
    }
  }

  datatype ImageLayout = Undefined | TransferDstOptimal | ShaderReadOnlyOptimal | ColorAttachmentOptimal | PresentSrc
  datatype Access = TransferWrite | ShaderRead
  datatype PipelineStage = TopOfPipe | Transfer | FragmentShader

  /** An image memory barrier's access masks and the stages it waits between. */
  datatype Barrier = Barrier(srcAccess: set<Access>, dstAccess: set<Access>, srcStage: PipelineStage, dstStage: PipelineStage)

  /** The layout transitions transitionImageLayout supports. */
  predicate SupportedTransition(oldLayout: ImageLayout, newLayout: ImageLayout) {
    || (oldLayout == Undefined && newLayout == TransferDstOptimal)
    || (oldLayout == TransferDstOptimal && newLayout == ShaderReadOnlyOptimal)
  }

  /** The barrier transitionImageLayout records, or invalid_argument for any other pair. */
  function TransitionBarrier(oldLayout: ImageLayout, newLayout: ImageLayout): (r: Result<Barrier>)
    ensures r.Success? <==> SupportedTransition(oldLayout, newLayout)
    ensures r.Success? ==> r.value.dstAccess != {} && r.value.srcStage != r.value.dstStage
  {
    if oldLayout == Undefined && newLayout == TransferDstOptimal then
      Success(Barrier({}, {TransferWrite}, TopOfPipe, Transfer))
    else if oldLayout == TransferDstOptimal && newLayout == ShaderReadOnlyOptimal then
      Success(Barrier({TransferWrite}, {ShaderRead}, Transfer, FragmentShader))
    else
      Failure("unsupported layout transition")
  }

  /**
   * The upload sequence chains: the second barrier waits on exactly the
   * access and the stage the first one made available, and nothing waits
   * on anything before the first.
   */
  lemma UploadBarriersChain()
    ensures var b1 := TransitionBarrier(Undefined, TransferDstOptimal);
            var b2 := TransitionBarrier(TransferDstOptimal, ShaderReadOnlyOptimal);
            && b1.Success? && b2.Success?
            && b1.value.srcAccess == {} && b1.value.srcStage == TopOfPipe
            && b2.value.srcAccess == b1.value.dstAccess
            && b2.value.srcStage == b1.value.dstStage
            && b2.value.dstAccess == {ShaderRead} && b2.value.dstStage == FragmentShader
  {
  }

  /** The non-null handles of a texture in the order cleanup destroys them: the view, then the image. */
  function TextureHandles(t: Texture): seq<Handle> {
    (if t.imageView.Some? then [t.imageView.value] else []) + (if t.image.Some? then [t.image.value] else [])
  }

  /** The handles cleanup destroys for the cached textures, visiting the keys in `order`. */
  function CacheHandles(cache: map<string, Texture>, order: seq<string>): (r: seq<Handle>)
    requires forall i :: 0 <= i < |order| ==> order[i] in cache
    ensures |r| <= 2 * |order|
    decreases |order|
  {
    if |order| == 0 then []
    else CacheHandles(cache, order[..|order| - 1]) + TextureHandles(cache[order[|order| - 1]])
  }

  /** Cleanup's sequence holds every handle of every visited texture. */
  lemma {:induction false} CacheHandlesCover(cache: map<string, Texture>, order: seq<string>, i: nat)
    requires forall j :: 0 <= j < |order| ==> order[j] in cache
    requires i < |order|
    ensures forall h :: h in TextureHandles(cache[order[i]]) ==> h in CacheHandles(cache, order)
    decreases |order|
  {
    var pre := order[..|order| - 1];
    if i < |pre| {
      assert pre[i] == order[i];
      CacheHandlesCover(cache, pre, i);
    }
  }

  class TextureManager {
    var textureCache: map<string, Texture>
    var defaultTexture: Texture
    var sampler: Option<Handle>
    /** Handles passed to vkDestroyImageView / vmaDestroyImage / vkDestroySampler so far, in order. */
    var destroyed: seq<Handle>

    /**
     * The constructor after createTextureSampler and createDefaultTexture
     * succeeded with the given handles; the default texture's mipLevels
     * and hasAlpha keep their value-initialised 0 and false.
     */
    constructor(samplerHandle: Handle, image: Handle, view: Handle)
      ensures textureCache == map[] && sampler == Some(samplerHandle) && destroyed == []
      ensures defaultTexture == Texture(Some(image), Some(view), DEFAULT_WIDTH, DEFAULT_HEIGHT, 0, false)
    {
      textureCache := map[];
      sampler := Some(samplerHandle);
      defaultTexture := Texture(Some(image), Some(view), DEFAULT_WIDTH, DEFAULT_HEIGHT, 0, false);
      destroyed := [];
    }

    /** getDefaultTexture. */
    function GetDefaultTexture(): (r: TextureRef)
      ensures r == DefaultTexture
    {
      DefaultTexture
    }

    /** TextureManager::loadTexture; `created` is what createTextureFromFile yields on a miss. */
    method LoadTexture(filepath: string, created: Option<Texture>) returns (ref: TextureRef)
      modifies this
      ensures (textureCache, ref) == Load(old(textureCache), filepath, created)
      ensures defaultTexture == old(defaultTexture) && sampler == old(sampler) && destroyed == old(destroyed)
    {
      if filepath in textureCache {
        return Cached(filepath);
      }
      if created.Some? {
        textureCache := textureCache[filepath := created.value];
        return Cached(filepath);
      }
      return DefaultTexture;
    }

    /** The body of cleanup's loop for one cached texture: its non-null view, then its non-null image. */
    method DestroyTexture(texture: Texture)
      modifies this
      ensures destroyed == old(destroyed) + TextureHandles(texture)
      ensures textureCache == old(textureCache) && defaultTexture == old(defaultTexture) && sampler == old(sampler)
    {
      if texture.imageView.Some? {
        destroyed := destroyed + [texture.imageView.value];
      }
      if texture.image.Some? {
        destroyed := destroyed + [texture.image.value];
      }
    }

    /** Cleanup's release of the default texture: its non-null view, then its non-null image, each nulled. */
    method DestroyDefaultTexture()
      modifies this
      ensures destroyed == old(destroyed) + TextureHandles(old(defaultTexture))
      ensures defaultTexture == old(defaultTexture).(image := None, imageView := None)
      ensures textureCache == old(textureCache) && sampler == old(sampler)
    {
      if defaultTexture.imageView.Some? {
        destroyed := destroyed + [defaultTexture.imageView.value];
        defaultTexture := defaultTexture.(imageView := None);
      }
      if defaultTexture.image.Some? {
        destroyed := destroyed + [defaultTexture.image.value];
        defaultTexture := defaultTexture.(image := None);
      }
    }

    /**
     * TextureManager::cleanup: destroy the non-null handles of every
     * cached texture, in the map's iteration order `order`, empty the
     * cache, then destroy and null the default texture's handles and the
     * sampler.
     */
    method Cleanup(order: seq<string>)
      requires EnumeratesKeys(order, textureCache.Keys)
      modifies this
      ensures textureCache == map[]
      ensures defaultTexture == old(defaultTexture).(image := None, imageView := None)
      ensures sampler == None
      ensures destroyed == old(destroyed) + CacheHandles(old(textureCache), order)
                           + TextureHandles(old(defaultTexture))
                           + (if old(sampler).Some? then [old(sampler).value] else [])
    {
      var i := 0;
      while i < |order|
        invariant 0 <= i <= |order|
        invariant textureCache == old(textureCache) && defaultTexture == old(defaultTexture) && sampler == old(sampler)
        invariant destroyed == old(destroyed) + CacheHandles(textureCache, order[..i])
      {
        assert order[i] in order;
        var texture := textureCache[order[i]];
        DestroyTexture(texture);
        assert order[..i + 1][..i] == order[..i];
        assert CacheHandles(textureCache, order[..i + 1]) == CacheHandles(textureCache, order[..i]) + TextureHandles(texture);
        i := i + 1;
      }
      assert order[..i] == order;
      textureCache := map[];
      DestroyDefaultTexture();
      ghost var textures := destroyed;
      if sampler.Some? {
        destroyed := destroyed + [sampler.value];
        sampler := None;
      }
      assert destroyed == textures + (if old(sampler).Some? then [old(sampler).value] else []);
    }
  }

  /** A second explicit cleanup destroys nothing more: no handle is destroyed twice. */
  method CleanupTwice(m: TextureManager, order: seq<string>)
    requires EnumeratesKeys(order, m.textureCache.Keys)
    modifies m
    ensures m.textureCache == map[] && m.sampler == None
    ensures m.destroyed == old(m.destroyed) + CacheHandles(old(m.textureCache), order)
                           + TextureHandles(old(m.defaultTexture))
                           + (if old(m.sampler).Some? then [old(m.sampler).value] else [])
  {
    m.Cleanup(order);
    ghost var once := m.destroyed;
    assert EnumeratesKeys([], m.textureCache.Keys);
    m.Cleanup([]);
    assert m.destroyed == once;
  }
}
