/**
 * A scene showing one line of text, centred, or scrolled from just off the
 * right edge to just off the left edge at UltraDMD's pace of 1.2 pixels per
 * frame at 60 frames per second.
 */
module SingleLineScenes {
  import opened Labels

  /** Pixels per second of the scroll: 60 frames per second times 1.2 pixels per frame. */
  const ScrollSpeed: real := 60.0 * 1.2

  /** The text's x for a scene of `width`, a text of `textWidth` and a scroll offset. */
  function TextX(width: real, textWidth: real, scrollX: real): (x: real)
    ensures x + textWidth / 2.0 == width / 2.0 + scrollX
  {
    (width - textWidth) / 2.0 + scrollX
  }

  /** The text's y: centred vertically in the scene. */
  function TextY(height: real, textHeight: real): (y: real)
    ensures y + textHeight / 2.0 == height / 2.0
  {
    (height - textHeight) / 2.0
  }

  /** The scroll offset that puts the text at the scene's left edge. */
  function ScrollOffset(width: real, textWidth: real): (o: real)
    ensures TextX(width, textWidth, o) == 0.0
  {
    -(width - textWidth) / 2.0
  }

  /** Where the scroll starts: the text just off the right edge. */
  function ScrollStart(width: real, textWidth: real): (s: real)
    ensures TextX(width, textWidth, s) == width
  {
    ScrollOffset(width, textWidth) + width
  }

  /** Where the scroll ends: the text just off the left edge. */
  function ScrollTarget(width: real, textWidth: real): (t: real)
    ensures TextX(width, textWidth, t) == -textWidth
  {
    ScrollOffset(width, textWidth) - textWidth
  }

  /** How long the scroll takes: the distance from start to target at ScrollSpeed. */
  function ScrollDuration(width: real, textWidth: real): (d: real)
    ensures d * ScrollSpeed == width + textWidth
    ensures d * ScrollSpeed == ScrollStart(width, textWidth) - ScrollTarget(width, textWidth)
  {
    (width + textWidth) / ScrollSpeed
  }

  /** A child of the scene: those added by the base scene, or this scene's text label. */
  datatype SceneChild = BaseChild(id: nat) | TextLabel

  /** A tween of ScrollX registered with the scene's tweener. */
  datatype Tween = Tween(target: real, duration: real, delay: real)

  class SingleLineScene {
    const scroll: bool
    var scrollX: real
    var text: Label
    var children: seq<SceneChild>
    var tweens: seq<Tween>
    var width: real
    var height: real

    /** Without scrolling the offset stays 0; the text label is a child exactly once. */
    ghost predicate Valid()
      reads this`scrollX, this`children
    {
      && (!scroll ==> scrollX == 0.0)
      && multiset(children)[TextLabel] == 1
    }

    /**
     * Adds the text label, sized as measured by its font, after the children
     * the base scene added.
     */
    constructor (baseChildren: seq<SceneChild>, width: real, height: real,
                 text: string, font: Font, textWidth: real, textHeight: real, scroll: bool)
      requires TextLabel !in baseChildren
      ensures Valid()
      ensures children == baseChildren + [TextLabel]
      ensures this.text == NewLabel(font, text, textWidth, textHeight)
      ensures this.scroll == scroll && scrollX == 0.0 && tweens == []
      ensures this.width == width && this.height == height
    {
      this.scroll := scroll;
      scrollX := 0.0;
      this.text := NewLabel(font, text, textWidth, textHeight);
      children := baseChildren + [TextLabel];
      tweens := [];
      this.width, this.height := width, height;
      new;
      assert multiset(children) == multiset(baseChildren) + multiset{TextLabel};
    }

    /** Changes the text and nothing else. */
    method SetText(t: string)
      modifies this`text
      ensures text == old(text).(text := t)
    {
      text := text.(text := t);
    }

    /**
     * With scrolling, places the text just off the right edge and registers a
     * tween of ScrollX that takes it just off the left edge at ScrollSpeed.
     */
    method Begin()
      requires Valid()
      modifies this`scrollX, this`tweens
      ensures Valid()
      ensures scroll ==> scrollX == ScrollStart(width, text.width) && TextX(width, text.width, scrollX) == width
      ensures scroll ==> tweens == old(tweens) + [Tween(ScrollTarget(width, text.width), ScrollDuration(width, text.width), 0.0)]
      ensures !scroll ==> scrollX == old(scrollX) && tweens == old(tweens)
    {
      if scroll {
        var offset := -(width - text.width) / 2.0;
        scrollX := offset + width;
        tweens := tweens + [Tween(offset - text.width, (width + text.width) / (60.0 * 1.2), 0.0)];
      }
    }

    /** Positions the text: offset by ScrollX horizontally, centred vertically. */
    method Update()
      requires Valid()
      modifies this`text
      ensures text == old(text).(x := TextX(width, text.width, scrollX), y := TextY(height, text.height))
      ensures !scroll ==> text.x + text.width / 2.0 == width / 2.0
    {
      text := text.(x := (width - text.width) / 2.0 + scrollX, y := (height - text.height) / 2.0);
    }
  }
}
