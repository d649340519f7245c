/**
 * Image: an actor showing one cached bitmap. It fetches the resource once to
 * learn its preferred size, holds it while on stage, and offers direct
 * access to the shared bitmap outside that lifecycle.
 */
module Images {
  import opened Wrappers
  import opened Assets
  import opened Layout

  class Image {
    const manager: AssetManager
    const src: AssetSrc
    const name: string
    const prefWidth: nat
    const prefHeight: nat
    /** Construction failed to load the asset and reported it. */
    const errorLogged: bool

    /** A cached resource is held (`_cachedBitmap != null`); it is manager.cache[src]. */
    var held: bool
    var scaling: Scaling
    var alignment: Alignment

    var visible: bool
    var onStage: bool
    var width: real
    var height: real

    ghost predicate Valid()
      reads this`held, manager
    {
      && manager.Valid()
      && (held ==> src in manager.cache)
      && errorLogged == (src !in manager.sources)
      && (!errorLogged ==> prefWidth == manager.sources[src].width && prefHeight == manager.sources[src].height)
    }

    /**
     * Loads the resource to learn its size, packs to it and drops the handle,
     * since off stage the bitmap may not stay live. A load failure is reported
     * and leaves an actor of size zero that holds nothing.
     */
    constructor (manager: AssetManager, src: AssetSrc, name: string)
      requires manager.Valid()
      modifies manager
      ensures Valid()
      ensures this.manager == manager && this.src == src && this.name == name
      ensures !held && !onStage && visible
      ensures scaling == Stretch && alignment == Center
      ensures errorLogged == (src !in manager.sources)
      ensures !errorLogged ==> && prefWidth == manager.sources[src].width && prefHeight == manager.sources[src].height
                               && width == prefWidth as real && height == prefHeight as real
                               && manager.cache == old(manager.cache)[src := CachedBitmap(prefWidth, prefHeight,
                                                                       Some(old(manager.Live(src))))]
      ensures errorLogged ==> && prefWidth == 0 && prefHeight == 0 && width == 0.0 && height == 0.0
                              && manager.cache == old(manager.cache)
    {
      this.manager := manager;
      this.src := src;
      this.name := name;
      scaling, alignment := Stretch, Center;
      visible, onStage := true, false;
      var ok := manager.GetBitmap(src);
      if ok {
        var w, h := manager.cache[src].width, manager.cache[src].height;
        prefWidth, prefHeight := w, h;
        // Actor.Pack: take the preferred size
        width, height := w as real, h as real;
        errorLogged := false;
      } else {
        prefWidth, prefHeight := 0, 0;
        width, height := 0.0, 0.0;
        errorLogged := true;
      }
      held := false;
    }

    /**
     * On stage the resource is fetched again; off stage it is dropped. For an
     * asset that failed to load, the fetch throws out of the hook and the
     * handle is left as it was.
     */
    method OnStageStateChanged() returns (thrown: bool)
      requires Valid()
      modifies this`held, manager
      ensures Valid()
      ensures thrown == (onStage && errorLogged)
      ensures !thrown ==> held == onStage
      ensures thrown ==> held == old(held) && manager.cache == old(manager.cache)
      ensures onStage && !thrown ==> && manager.cache == old(manager.cache)[src := CachedBitmap(manager.sources[src].width,
                                          manager.sources[src].height, Some(old(manager.Live(src))))]
                                     && manager.cache[src].bitmap.Some?
      ensures !onStage ==> manager.cache == old(manager.cache)
    {
      thrown := false;
      if onStage {
        var ok := manager.GetBitmap(src);
        if ok {
          held := true;
        } else {
          // AssetManager.GetBitmap throws: the assignment to _cachedBitmap does not happen
          thrown := true;
        }
      } else {
        held := false;
      }
    }

    /** Actor.OnStage setter: the hook runs once per actual change of the flag. */
    method SetOnStage(value: bool) returns (thrown: bool)
      requires Valid()
      modifies this`onStage, this`held, manager
      ensures Valid() && onStage == value
      ensures thrown == (old(onStage) != value && value && errorLogged)
      ensures old(onStage) == value || thrown ==> held == old(held) && manager.cache == old(manager.cache)
      ensures old(onStage) != value && !thrown ==> held == value
      ensures old(onStage) != value && value && !thrown ==>
                && manager.cache == old(manager.cache)[src := CachedBitmap(manager.sources[src].width,
                                      manager.sources[src].height, Some(old(manager.Live(src))))]
                && manager.cache[src].bitmap.Some?
      ensures old(onStage) != value && !value ==> manager.cache == old(manager.cache)
    {
      thrown := false;
      if onStage != value {
        onStage := value;
        thrown := OnStageStateChanged();
      }
    }

    /**
     * The Bitmap getter: fetches the resource if none is held, then returns
     * the held resource's bitmap. Once a resource is held it is not fetched
     * again. For an asset that failed to load, the fetch throws.
     */
    method GetBitmap() returns (bitmap: Option<Bitmap>, thrown: bool)
      requires Valid()
      modifies this`held, manager
      ensures Valid()
      ensures thrown == (!old(held) && errorLogged)
      ensures thrown ==> !held && bitmap == None && manager.cache == old(manager.cache)
      ensures !thrown ==> held && bitmap == manager.cache[src].bitmap
      ensures old(held) ==> manager.cache == old(manager.cache)
      ensures !old(held) && !thrown ==> manager.cache == old(manager.cache)[src := CachedBitmap(manager.sources[src].width,
                                                manager.sources[src].height, Some(old(manager.Live(src))))]
    {
      thrown, bitmap := false, None;
      if !held {
        var ok := manager.GetBitmap(src);
        if ok {
          held := true;
        } else {
          thrown := true;
        }
      }
      if !thrown {
        bitmap := manager.cache[src].bitmap;
      }
    }

    /**
     * The Bitmap setter: overwrites the bitmap of the held, shared resource.
     * With nothing held it dereferences null and throws.
     */
    method SetBitmap(bitmap: Option<Bitmap>) returns (thrown: bool)
      requires Valid()
      modifies manager
      ensures Valid()
      ensures thrown == !held
      ensures thrown ==> manager.cache == old(manager.cache)
      ensures !thrown ==> manager.cache == old(manager.cache)[src := old(manager.cache[src]).(bitmap := bitmap)]
    {
      thrown := !held;
      if held {
        manager.SetBitmap(src, bitmap);
      }
    }

    /**
     * The bitmap drawn: the held resource's, when visible and that bitmap is
     * present. A visible image that holds nothing dereferences null and throws.
     */
    method Draw() returns (drawn: Option<Bitmap>, thrown: bool)
      requires Valid()
      ensures thrown == (visible && !held)
      ensures drawn.Some? <==> visible && held && manager.cache[src].bitmap.Some?
      ensures drawn.Some? ==> drawn == manager.cache[src].bitmap
    {
      drawn, thrown := None, visible && !held;
      if visible && held && manager.cache[src].bitmap.Some? {
        drawn := manager.cache[src].bitmap;
      }
    }
  }

  /**
   * An image put on stage and drawn: a loadable asset draws its bitmap, while
   * for an asset that failed to load the stage entry throws.
   */
  method ShowImage(manager: AssetManager, src: AssetSrc) returns (drawn: Option<Bitmap>, thrown: bool)
    requires manager.Valid()
    modifies manager
    ensures thrown == (src !in manager.sources)
    ensures !thrown ==> drawn.Some?
  {
    var image := new Image(manager, src, "");
    thrown := image.SetOnStage(true);
    drawn := None;
    if !thrown {
      drawn, thrown := image.Draw();
    }
  }
}
