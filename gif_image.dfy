/**
 * GIFImage: an animated actor that plays the frames of a GIF at the delays
 * the file gives for them. Its playback state (current frame, start time and
 * duration of the current frame, end-of-animation flag) and its handle on the
 * shared cached bitmap change in place.
 *
 * Times are integer hundredths of a second, the unit the delay table is
 * stored in.
 */
module GIFImages {
  import opened Wrappers
  import opened BinaryData
  import opened Assets
  import opened FrameTiming

  /** GDI+ tag of the property holding the per-frame delays. */
  const PropertyTagFrameDelay: int := 0x5100

  /** GDI+ property type 4: an array of 32-bit integers. */
  const PropertyTagTypeLong: int := 4

  /**
   * What construction needs of the bitmap beyond what the code checks: the
   * delay property exists (GetPropertyItem throws otherwise) and, when it has
   * type 4, there is a frame 0 for Rewind to read and four value bytes per
   * frame for BitConverter.ToInt32.
   */
  predicate Readable(b: Bitmap) {
    && PropertyTagFrameDelay in b.properties
    && (b.properties[PropertyTagFrameDelay].kind == PropertyTagTypeLong ==>
          b.frameCount >= 1 && 4 * b.frameCount <= |b.properties[PropertyTagFrameDelay].value|)
  }

  /** The frame delay property item (Bitmap.GetPropertyItem(PropertyTagFrameDelay)). */
  function DelayItem(b: Bitmap): (item: PropertyItem)
    requires PropertyTagFrameDelay in b.properties
    ensures item in b.properties.Values
  {
    b.properties[PropertyTagFrameDelay]
  }

  /** A resource whose bitmap has `frame` selected as its active frame. */
  function ShowFrame(c: CachedBitmap, frame: nat): (r: CachedBitmap)
    requires c.bitmap.Some?
    ensures r.width == c.width && r.height == c.height && r.bitmap.Some?
    ensures r.bitmap.value.activeFrame == frame
    ensures r.bitmap.value.frameCount == c.bitmap.value.frameCount
    ensures r.bitmap.value.properties == c.bitmap.value.properties
  {
    c.(bitmap := Some(c.bitmap.value.(activeFrame := frame)))
  }

  function Min(a: int, b: int): (m: int) {
    if a <= b then a else b
  }

  class GIFImage {
    const manager: AssetManager
    const src: AssetSrc
    const name: string
    const prefWidth: nat
    const prefHeight: nat
    /** Delay of each frame, in hundredths of a second. */
    const frameDelays: array<int>
    /** Length of the whole animation, in hundredths of a second. */
    const length: int
    /** The delay table as a value: frameDelays[..], which never changes after construction. */
    ghost const Delays: seq<int>
    /** Construction reported an invalid delay table. */
    const errorLogged: bool

    /** A cached resource is held (`_cachedBitmap != null`); it is manager.cache[src]. */
    var held: bool
    var pos: nat
    /** Start time of the current frame. */
    var frameTime: int
    /** Delay of the current frame. */
    var frameDuration: int
    var endOfAnimation: bool

    var visible: bool
    var onStage: bool
    var width: real
    var height: real

    /** The delay table, the length and the resource handle agree with the store. */
    ghost predicate TableValid()
      reads this`held, manager, frameDelays
    {
      && manager.Valid()
      && src in manager.sources
      && prefWidth == manager.sources[src].width
      && prefHeight == manager.sources[src].height
      && (held ==> src in manager.cache)
      && frameDelays[..] == Delays
      && length == Sum(Delays)
    }

    /** TableValid, and the playback state addresses a frame of the table. */
    ghost predicate Valid()
      reads this`held, this`pos, this`frameTime, this`frameDuration, manager, frameDelays
    {
      && TableValid()
      && (if frameDelays.Length == 0 then pos == 0 && frameDuration == 0
          else pos < frameDelays.Length && frameDuration == frameDelays[pos])
      && frameTime == Sum(Delays[..pos])
    }

    /** The held resource has its bitmap, so selecting a frame of it does not dereference null. */
    ghost predicate CanSelectFrame()
      reads this`held, manager
    {
      held ==> src in manager.cache && manager.cache[src].bitmap.Some?
    }

    /** The frame the driver ends on: the last one, or 0 for an empty table. */
    function LastFrame(): (frame: nat)
      reads frameDelays
    {
      if frameDelays.Length == 0 then 0 else frameDelays.Length - 1
    }

    /**
     * Loads the bitmap once to learn its size and delay table. A delay property
     * not of type 4 is reported and the handle dropped before Rewind; otherwise
     * the table is decoded, the animation rewound and packed, and the shared
     * bitmap evicted because the actor is not on stage.
     */
    constructor (manager: AssetManager, src: AssetSrc, name: string)
      requires manager.Valid()
      requires src in manager.sources
      requires Readable(manager.Live(src))
      modifies manager
      ensures Valid() && fresh(frameDelays)
      ensures this.manager == manager && this.src == src && this.name == name
      ensures prefWidth == manager.sources[src].width && prefHeight == manager.sources[src].height
      ensures visible && !onStage
      ensures frameDelays.Length == old(manager.Live(src)).frameCount
      ensures errorLogged == (DelayItem(old(manager.Live(src))).kind != PropertyTagTypeLong)
      ensures !errorLogged ==> Delays == DelayTable(DelayItem(old(manager.Live(src))).value, frameDelays.Length)
      ensures !errorLogged ==> held && pos == 0 && frameTime == 0 && frameDuration == frameDelays[0] && !endOfAnimation
      ensures !errorLogged ==> width == prefWidth as real && height == prefHeight as real
      ensures !errorLogged ==> manager.cache == old(manager.cache)[src := CachedBitmap(prefWidth, prefHeight, None)]
      ensures errorLogged ==> forall i :: 0 <= i < |Delays| ==> Delays[i] == 0
      ensures errorLogged ==> length == 0 && !held && pos == 0 && frameTime == 0 && frameDuration == 0 && !endOfAnimation
      ensures errorLogged ==> width == 0.0 && height == 0.0
      ensures errorLogged ==> manager.cache == old(manager.cache)[src := CachedBitmap(prefWidth, prefHeight, Some(old(manager.Live(src))))]
    {
      ghost var live := manager.Live(src);
      ghost var cache0 := manager.cache;
      var ok := manager.GetBitmap(src);
      var bitmap := manager.cache[src].bitmap.value;
      ghost var cache1 := manager.cache;
      assert cache1 == cache0[src := CachedBitmap(manager.sources[src].width, manager.sources[src].height, Some(live))];
      assert bitmap == live;
      this.manager := manager;
      this.src := src;
      this.name := name;
      prefWidth := manager.cache[src].width;
      prefHeight := manager.cache[src].height;
      var item := DelayItem(bitmap);
      pos, frameTime, frameDuration, endOfAnimation := 0, 0, 0, false;
      visible, onStage, width, height := true, false, 0.0, 0.0;
      var invalid, delays, total := GIFImage.LoadDelays(item, bitmap.frameCount);
      errorLogged, held := invalid, !invalid;
      frameDelays, length := delays, total;
      Delays := delays[..];
      if !invalid {
        // Rewind(), written out so that all of the constructor's work stays before `new;`,
        // which keeps its proof small
        pos, frameTime, frameDuration, endOfAnimation := 0, 0, delays[0], false;
        // Actor.Pack: take the preferred size
        width, height := manager.cache[src].width as real, manager.cache[src].height as real;
        manager.SetBitmap(src, None);
        UpdateTwice(cache0, src, cache1[src], CachedBitmap(manager.sources[src].width, manager.sources[src].height, None));
      }
    }

    /**
     * The delay table the constructor builds: decoded when the property holds
     * 32-bit integers, otherwise left at zero with a zero length (that case is
     * reported as an invalid GIF).
     */
    static method LoadDelays(item: PropertyItem, frames: nat) returns (invalid: bool, delays: array<int>, total: int)
      requires item.kind == PropertyTagTypeLong ==> 4 * frames <= |item.value|
      ensures fresh(delays) && delays.Length == frames
      ensures invalid == (item.kind != PropertyTagTypeLong)
      ensures total == Sum(delays[..])
      ensures !invalid ==> delays[..] == DelayTable(item.value, frames)
      ensures invalid ==> (forall i :: 0 <= i < frames ==> delays[i] == 0) && total == 0
    {
      if item.kind != PropertyTagTypeLong {
        invalid, total := true, 0;
        delays := ZeroDelays(frames);
      } else {
        invalid := false;
        delays, total := DecodeDelays(item.value, frames);
      }
    }

    /**
     * The constructor's loop: frame i's delay is the 32-bit integer at byte
     * offset 4 * i, and the length accumulates the delays.
     */
    static method DecodeDelays(value: seq<byte>, frames: nat) returns (delays: array<int>, total: int)
      requires 4 * frames <= |value|
      ensures fresh(delays)
      ensures delays[..] == DelayTable(value, frames)
      ensures total == Sum(delays[..])
    {
      delays := new int[frames](_ => 0);
      total := 0;
      for i := 0 to frames
        invariant delays[..i] == DelayTable(value, frames)[..i]
        invariant total == Sum(delays[..i])
      {
        delays[i] := ToInt32(value, i * 4);
        PrefixSumStep(delays[..], i);
        assert delays[..][..i] == delays[..i];
        assert delays[..][..i + 1] == delays[..i + 1];
        total := total + delays[i];
      }
      assert delays[..] == delays[..frames];
    }

    /** The table left behind by an invalid delay property: one zero per frame. */
    static method ZeroDelays(frames: nat) returns (delays: array<int>)
      ensures fresh(delays) && delays.Length == frames
      ensures forall i :: 0 <= i < frames ==> delays[i] == 0
      ensures Sum(delays[..]) == 0
    {
      delays := new int[frames](_ => 0);
    }

    /** Back to frame 0, at time 0, with the end-of-animation flag cleared. */
    method Rewind()
      requires TableValid() && frameDelays.Length > 0
      modifies this`pos, this`frameTime, this`frameDuration, this`endOfAnimation
      ensures Valid()
      ensures pos == 0 && frameTime == 0 && frameDuration == frameDelays[0] && !endOfAnimation
    {
      // AnimatedActor.Rewind
      frameTime := 0;
      endOfAnimation := false;
      // GIFImage.Rewind
      pos := 0;
      frameDuration := frameDelays[0];
    }

    /**
     * At the last frame, flags the end of the animation and changes nothing
     * else; otherwise moves to the next frame, recomputes its start time as the
     * sum of the delays before it, takes its delay and selects it in the held
     * bitmap, which throws when that bitmap is evicted.
     */
    method ReadNextFrame() returns (thrown: bool)
      requires Valid()
      modifies this`pos, this`frameTime, this`frameDuration, this`endOfAnimation, manager
      ensures Valid() && CanSelectFrame() == old(CanSelectFrame())
      ensures thrown == (old(pos) + 1 < frameDelays.Length && !old(CanSelectFrame()))
      ensures old(pos) + 1 >= frameDelays.Length ==>
                && endOfAnimation && pos == old(pos)
                && frameTime == old(frameTime) && frameDuration == old(frameDuration)
                && manager.cache == old(manager.cache)
      ensures old(pos) + 1 < frameDelays.Length ==>
                && pos == old(pos) + 1
                && frameTime == Sum(Delays[..pos])
                && frameDuration == Delays[pos]
                && endOfAnimation == old(endOfAnimation)
                && manager.cache == (if held && !thrown then old(manager.cache)[src := ShowFrame(old(manager.cache[src]), pos)]
                                     else old(manager.cache))
    {
      if pos >= frameDelays.Length - 1 {
        endOfAnimation := true;
        thrown := false;
      } else {
        pos := pos + 1;
        frameTime := 0;
        for i := 0 to pos
          invariant frameTime == Sum(Delays[..i])
          invariant pos == old(pos) + 1 && endOfAnimation == old(endOfAnimation)
          invariant unchanged(manager)
        {
          PrefixSumStep(Delays, i);
          frameTime := frameTime + frameDelays[i];
        }
        frameDuration := frameDelays[pos];
        thrown := UpdateFrame();
      }
    }

    /**
     * When a resource is held, selects the current frame in its bitmap;
     * otherwise does nothing. A held resource whose bitmap is evicted makes
     * SelectActiveFrame dereference null, which throws.
     */
    method UpdateFrame() returns (thrown: bool)
      requires Valid()
      modifies manager
      ensures Valid() && CanSelectFrame() == old(CanSelectFrame())
      ensures thrown == !old(CanSelectFrame())
      ensures manager.cache == if held && !thrown then old(manager.cache)[src := ShowFrame(old(manager.cache[src]), pos)]
                               else old(manager.cache)
    {
      thrown := held && manager.cache[src].bitmap.None?;
      if held && !thrown {
        var b := manager.cache[src].bitmap.value;
        manager.SetBitmap(src, Some(b.(activeFrame := pos)));
      }
    }

    /** On stage the resource is fetched again (and the current frame selected); off stage it is dropped. */
    method OnStageStateChanged()
      requires Valid()
      modifies this`held, manager
      ensures Valid() && CanSelectFrame()
      ensures held == onStage
      ensures onStage ==> manager.cache == old(manager.cache)[src := CachedBitmap(prefWidth, prefHeight,
                                             Some(old(manager.Live(src)).(activeFrame := pos)))]
      ensures !onStage ==> manager.cache == old(manager.cache)
    {
      if onStage {
        var ok := manager.GetBitmap(src);
        assert manager.Valid();
        assert src in manager.cache;
        held := true;
        assert TableValid();
      } else {
        held := false;
      }
      var thrown := UpdateFrame();
    }

    /** Actor.OnStage setter: the hook runs once per actual change of the flag. */
    method SetOnStage(value: bool)
      requires Valid()
      modifies this`onStage, this`held, manager
      ensures Valid() && onStage == value
      ensures old(onStage) == value ==> held == old(held) && manager.cache == old(manager.cache)
      ensures old(onStage) != value ==> held == value && CanSelectFrame()
      ensures old(onStage) != value && value ==>
                manager.cache == old(manager.cache)[src := CachedBitmap(prefWidth, prefHeight,
                                    Some(old(manager.Live(src)).(activeFrame := pos)))]
      ensures old(onStage) != value && !value ==> manager.cache == old(manager.cache)
    {
      if onStage != value {
        onStage := value;
        OnStageStateChanged();
      }
    }

    /**
     * The bitmap drawn: the held resource's current one, when visible and a
     * resource is held. Drawing a held resource whose bitmap is evicted passes
     * null to DrawImage, which throws.
     */
    method Draw() returns (drawn: Option<Bitmap>, thrown: bool)
      requires Valid()
      ensures thrown == (visible && !CanSelectFrame())
      ensures drawn.Some? <==> visible && held && !thrown
      ensures drawn.Some? ==> src in manager.cache && drawn == manager.cache[src].bitmap
    {
      drawn, thrown := None, false;
      if visible && held {
        drawn := manager.cache[src].bitmap;
        thrown := drawn.None?;
      }
    }

    /**
     * A driver standing for the playback loop of the base class: it asks
     * for the next frame k times, and stops when a request throws. Playback
     * stops at the last frame, and the end flag is set once a request arrives
     * there. Only the first request can throw: it is the one that leaves a
     * frame of a held, evicted bitmap; later requests find the last frame.
     */
    method ReadFrames(k: nat) returns (thrown: bool)
      requires Valid()
      modifies this`pos, this`frameTime, this`frameDuration, this`endOfAnimation, manager
      ensures Valid() && CanSelectFrame() == old(CanSelectFrame())
      ensures thrown == (k > 0 && old(pos) + 1 < frameDelays.Length && !old(CanSelectFrame()))
      ensures !thrown ==> pos == Min(old(pos) + k, LastFrame())
      ensures !thrown ==> endOfAnimation == (old(endOfAnimation) || (k > 0 && old(pos) + k >= frameDelays.Length))
      ensures thrown ==> pos == old(pos) + 1 && endOfAnimation == old(endOfAnimation)
      ensures manager.cache == if held && !thrown && pos != old(pos)
                               then old(manager.cache)[src := ShowFrame(old(manager.cache[src]), pos)]
                               else old(manager.cache)
    {
      thrown := false;
      var j := 0;
      while j < k && !thrown
        invariant j <= k
        invariant Valid() && CanSelectFrame() == old(CanSelectFrame())
        invariant thrown == (j > 0 && old(pos) + 1 < frameDelays.Length && !old(CanSelectFrame()))
        invariant !thrown ==> pos == Min(old(pos) + j, LastFrame())
        invariant !thrown ==> endOfAnimation == (old(endOfAnimation) || (j > 0 && old(pos) + j >= frameDelays.Length))
        invariant thrown ==> j == 1 && pos == old(pos) + 1 && endOfAnimation == old(endOfAnimation)
        invariant manager.cache == if held && !thrown && pos != old(pos)
                                   then old(manager.cache)[src := ShowFrame(old(manager.cache[src]), pos)]
                                   else old(manager.cache)
      {
        thrown := ReadNextFrame();
        j := j + 1;
      }
    }

    /**
     * With at least one frame and no negative delay, the current frame starts
     * at a non-negative time and ends within the length of the animation.
     */
    lemma CurrentFrameWithinLength()
      requires Valid() && frameDelays.Length > 0
      requires NonNegative(Delays)
      ensures 0 <= frameTime && frameTime + frameDuration <= length
    {
      FrameEndWithinLength(Delays, pos);
    }
  }

  /**
   * Two GIFs on one asset share its resource. Building the second while the
   * first is on stage evicts their shared bitmap: the first still holds the
   * resource, and its next frame request throws.
   */
  method SharedEviction(manager: AssetManager, src: AssetSrc) returns (first: GIFImage, thrown: bool)
    requires manager.Valid() && manager.cache == map[] && src in manager.sources
    requires Readable(manager.sources[src].bitmap)
    requires DelayItem(manager.sources[src].bitmap).kind == PropertyTagTypeLong
    requires manager.sources[src].bitmap.frameCount >= 2
    modifies manager
    ensures first.onStage && first.held && !first.CanSelectFrame()
    ensures thrown && first.pos == 1
  {
    first := new GIFImage(manager, src, "first");
    first.SetOnStage(true);
    var second := new GIFImage(manager, src, "second");
    thrown := first.ReadNextFrame();
  }
}
