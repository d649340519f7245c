/**
 * The cached-bitmap asset store, reduced to a map from asset descriptor to
 * resource. A resource keeps its dimensions for layout even while its
 * decoded bitmap is evicted; the store re-decodes an evicted bitmap on the
 * next request.
 */
module Assets {
  import opened Wrappers
  import opened BinaryData

  /** An asset descriptor, as AssetManager.ResolveSrc produces it; compared by value. */
  type AssetSrc = string

  /** A GDI+ property item: its type tag and its raw value bytes. */
  datatype PropertyItem = PropertyItem(kind: int, value: seq<byte>)

  /**
   * A decoded bitmap, reduced to what the actors read or change: the number of
   * frames along the time dimension, the property items by tag, and the frame
   * currently selected for drawing (SelectActiveFrame).
   */
  datatype Bitmap = Bitmap(frameCount: nat, properties: map<int, PropertyItem>, activeFrame: nat)

  /** What decoding the file behind a descriptor yields. */
  datatype Decoded = Decoded(width: nat, height: nat, bitmap: Bitmap)

  /** A cached resource: dimensions and an optionally evicted bitmap. */
  datatype CachedBitmap = CachedBitmap(width: nat, height: nat, bitmap: Option<Bitmap>)

  /** Updating the same key twice keeps only the second value. */
  lemma UpdateTwice<K, V>(m: map<K, V>, k: K, a: V, b: V)
    ensures m[k := a][k := b] == m[k := b]
  {
  }

  class AssetManager {
    /** The readable assets; a descriptor outside it fails to load. */
    const sources: map<AssetSrc, Decoded>
    /** The resources handed out so far, shared by every actor that asks for them. */
    var cache: map<AssetSrc, CachedBitmap>

    ghost predicate Valid()
      reads this
    {
      forall s :: s in cache ==> s in sources && cache[s].width == sources[s].width && cache[s].height == sources[s].height
    }

    constructor (sources: map<AssetSrc, Decoded>)
      ensures Valid() && this.sources == sources && cache == map[]
    {
      this.sources := sources;
      cache := map[];
    }

    /** The bitmap that GetBitmap(src) hands out: the resident one, else a fresh decode. */
    function Live(src: AssetSrc): (b: Bitmap)
      reads this
      requires src in sources
    {
      if src in cache && cache[src].bitmap.Some? then cache[src].bitmap.value else sources[src].bitmap
    }

    /**
     * AssetManager.GetBitmap: fails for an unreadable descriptor; otherwise
     * returns the shared resource, re-decoding its bitmap if it was evicted.
     */
    method GetBitmap(src: AssetSrc) returns (ok: bool)
      requires Valid()
      modifies this
      ensures Valid()
      ensures ok == (src in sources)
      ensures ok ==> cache == old(cache)[src := CachedBitmap(sources[src].width, sources[src].height, Some(old(Live(src))))]
      ensures ok && old(src in cache && cache[src].bitmap.Some?) ==> cache == old(cache)
      ensures ok ==> src in cache && cache[src].bitmap.Some? && Live(src) == old(Live(src))
      ensures !ok ==> cache == old(cache)
    {
      ok := src in sources;
      if ok {
        var b := Live(src);
        cache := cache[src := CachedBitmap(sources[src].width, sources[src].height, Some(b))];
      }
    }

    /** Overwrites the bitmap of the shared resource for `src` (CachedBitmap.Bitmap setter). */
    method SetBitmap(src: AssetSrc, bitmap: Option<Bitmap>)
      requires Valid() && src in cache
      modifies this
      ensures Valid()
      ensures cache == old(cache)[src := old(cache[src]).(bitmap := bitmap)]
    {
      cache := cache[src := cache[src].(bitmap := bitmap)];
    }
  }
}
