/**
 * ShaderManager (src/renderer/shadermanager.cpp): a memo from a shader's
 * file name to its shader module. Reading the SPIR-V file and creating
 * the module are uninterpreted operations: `files` gives the contents of
 * a path (None when it cannot be opened) and `create` the module made
 * from some code (None when vkCreateShaderModule fails).
 */
module Shaders {
  import opened Wrappers
  import opened GpuBuffers

  /** The path getShaderModule reads for a cache miss. */
  function ShaderPath(filename: string): string {
    "shaders/" + filename
  }

  /** What one call of getShaderModule yields: the new cache, the module or the exception, and the paths read. */
  datatype Lookup = Lookup(cache: map<string, Handle>, result: Result<Handle>, read: seq<string>)

  /** getShaderModule as a function of the cache and the environment. */
  function Get(cache: map<string, Handle>, filename: string,
               files: string -> Option<seq<char>>, create: seq<char> -> Option<Handle>): Lookup
  {
    if filename in cache then Lookup(cache, Success(cache[filename]), [])
    else
      var path := ShaderPath(filename);
      match files(path)
      case None => Lookup(cache, Failure("failed to open file: " + path), [path])
      case Some(code) =>
        match create(code)
        case None => Lookup(cache, Failure("failed to create shader module"), [path])
        case Some(shaderModule) => Lookup(cache[filename := shaderModule], Success(shaderModule), [path])
  }

  /**
   * A hit reads nothing and changes nothing; a miss reads only
   * "shaders/" + filename; a failure leaves the cache as it was; a
   * success caches the module under the bare file name and keeps every
   * other entry.
   */
  lemma GetProperties(cache: map<string, Handle>, filename: string,
                      files: string -> Option<seq<char>>, create: seq<char> -> Option<Handle>)
    ensures var l := Get(cache, filename, files, create);
            && (filename in cache ==> l.cache == cache && l.result == Success(cache[filename]) && l.read == [])
            && (filename !in cache ==> l.read == [ShaderPath(filename)])
            && (l.result.Failure? ==> l.cache == cache)
            && (l.result.Success? ==> filename in l.cache && l.cache[filename] == l.result.value)
            && (forall f :: f in cache ==> f in l.cache && l.cache[f] == cache[f])
            && l.cache.Keys == cache.Keys + (if l.result.Success? then {filename} else {})
            && (filename !in cache ==>
                  (l.result.Success? <==> files(ShaderPath(filename)).Some? && create(files(ShaderPath(filename)).value).Some?))
  {
  }

  /**
   * Memoisation: once a call has succeeded, a second call with the same
   * file name returns the same module, reads no file and leaves the
   * cache as the first call left it, whatever the environment now holds.
   */
  lemma GetTwice(cache: map<string, Handle>, filename: string,
                 files: string -> Option<seq<char>>, create: seq<char> -> Option<Handle>,
                 files2: string -> Option<seq<char>>, create2: seq<char> -> Option<Handle>)
    requires Get(cache, filename, files, create).result.Success?
    ensures var first := Get(cache, filename, files, create);
            var second := Get(first.cache, filename, files2, create2);
            && second.result == first.result
            && second.read == []
            && second.cache == first.cache
            && |first.read + second.read| <= 1
  {
    var first := Get(cache, filename, files, create);
    assert filename in first.cache && first.cache[filename] == first.result.value;
  }

  /** The modules of `cache` in the visiting order `order`. */
  function Modules(cache: map<string, Handle>, order: seq<string>): (r: seq<Handle>)
    requires forall i :: 0 <= i < |order| ==> order[i] in cache
    ensures |r| == |order|
    ensures forall i :: 0 <= i < |order| ==> r[i] == cache[order[i]]
  {
    seq(|order|, i requires 0 <= i < |order| => cache[order[i]])
  }

  class ShaderManager {
    var shaderCache: map<string, Handle>
    /** The paths read so far (readFile). */
    var filesRead: seq<string>
    /** The modules passed to vkDestroyShaderModule so far, in order. */
    var destroyed: seq<Handle>

    constructor()
      ensures shaderCache == map[] && filesRead == [] && destroyed == []
    {
      shaderCache := map[];
      filesRead := [];
      destroyed := [];
    }

    /** getShaderModule: a cache hit, or read, create and cache; a failure throws before the insertion. */
    method GetShaderModule(filename: string, files: string -> Option<seq<char>>, create: seq<char> -> Option<Handle>)
      returns (r: Result<Handle>)
      modifies this
      ensures var l := Get(old(shaderCache), filename, files, create);
              shaderCache == l.cache && r == l.result && filesRead == old(filesRead) + l.read
      ensures destroyed == old(destroyed)
    {
      if filename in shaderCache {
        return Success(shaderCache[filename]);
      }
      var fullPath := "shaders/" + filename;
      filesRead := filesRead + [fullPath];
      var code := files(fullPath);
      if code.None? {
        return Failure("failed to open file: " + fullPath);
      }
      var shaderModule := create(code.value);
      if shaderModule.None? {
        return Failure("failed to create shader module");
      }
      shaderCache := shaderCache[filename := shaderModule.value];
      return Success(shaderModule.value);
    }

    /**
     * cleanup over the cache in the iteration order `order`: every cached
     * module is destroyed once, then the cache is emptied.
     */
    method Cleanup(order: seq<string>)
      requires EnumeratesKeys(order, shaderCache.Keys)
      modifies this
      ensures shaderCache == map[] && filesRead == old(filesRead)
      ensures destroyed == old(destroyed) + Modules(old(shaderCache), order)
      ensures |destroyed| == |old(destroyed)| + |old(shaderCache).Keys|
    {
      var i := 0;
      while i < |order|
        invariant 0 <= i <= |order|
        invariant shaderCache == old(shaderCache) && filesRead == old(filesRead)
        invariant destroyed == old(destroyed) + Modules(shaderCache, order[..i])
      {
        assert Modules(shaderCache, order[..i + 1]) == Modules(shaderCache, order[..i]) + [shaderCache[order[i]]];
        destroyed := destroyed + [shaderCache[order[i]]];
        i := i + 1;
      }
      assert order[..i] == order;
      EnumerationSize(order, shaderCache.Keys);
      shaderCache := map[];
    }
  }

  /** The destructor's cleanup after an explicit one destroys nothing more. */
  method CleanupTwice(m: ShaderManager, order: seq<string>)
    requires EnumeratesKeys(order, m.shaderCache.Keys)
    modifies m
    ensures m.shaderCache == map[]
    ensures m.destroyed == old(m.destroyed) + Modules(old(m.shaderCache), order)
  {
    m.Cleanup(order);
    assert EnumeratesKeys([], m.shaderCache.Keys);
    m.Cleanup([]);
    assert Modules(map[], []) == [];
  }
}
