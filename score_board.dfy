/**
 * The score board: a group of six labels (two lower status labels and four
 * player scores) with an optional background beneath them, a highlighted
 * player whose score uses a larger font, and a layout derived from the
 * parent's size on every update.
 */
module ScoreBoards {
  import opened Wrappers
  import opened Layout
  import opened Labels
  import opened NumberFormat
  import opened Groups

  /** An actor set as background; actors are told apart by `id`. */
  datatype Backdrop = Backdrop(id: nat, disposable: bool, width: real, height: real)

  /** The board's children, in paint order. */
  datatype Slot = BackgroundSlot(id: nat) | LowerLeftSlot | LowerRightSlot | ScoreSlot(index: nat)

  /** The children the constructor adds: lower left, lower right, then the four scores. */
  function LabelSlots(): (s: seq<Slot>)
    ensures |s| == 6
  {
    [LowerLeftSlot, LowerRightSlot, ScoreSlot(0), ScoreSlot(1), ScoreSlot(2), ScoreSlot(3)]
  }

  function BackgroundSlots(b: Option<Backdrop>): (s: seq<Slot>)
    ensures |s| <= 1 && (b.Some? <==> |s| == 1)
    ensures b.Some? ==> s[0] == BackgroundSlot(b.value.id)
  {
    if b.Some? then [BackgroundSlot(b.value.id)] else []
  }

  /** Whatever the background, the labels are the last six children. */
  lemma LabelsLast(b: Option<Backdrop>)
    ensures var s := BackgroundSlots(b) + LabelSlots(); s[|s| - 6..] == LabelSlots()
  {
  }

  /** The font of score label `i` (0-based) when `player` (1-based) is highlighted. */
  function ScoreFontFor(i: nat, player: int, scoreFont: Font, highlightFont: Font): (font: Font)
    ensures i + 1 == player ==> font == highlightFont
    ensures i + 1 != player ==> font == scoreFont
    ensures (player < 1 || player > 4) && i < 4 ==> font == scoreFont
  {
    if i == player - 1 then highlightFont else scoreFont
  }

  /** Top of the score row of label `i`: the first row at 1, the second centred above the text line. */
  function RowTop(i: nat, height: real, textFont: Font): (y: real)
    ensures i < 2 ==> y == 1.0
    ensures i >= 2 ==> y + textFont.baseHeight / 2.0 == height / 2.0
  {
    if i < 2 then 1.0 else (height - textFont.baseHeight) / 2.0
  }

  /** The nudge of a label in the score font: half the height difference of the two fonts. */
  function Dec(scoreFont: Font, highlightFont: Font): (dec: real)
    ensures scoreFont.baseHeight / 2.0 + dec == highlightFont.baseHeight / 2.0
  {
    (highlightFont.baseHeight - scoreFont.baseHeight) / 2.0
  }

  /**
   * The y at which score label `i` is placed. Only the highlighted label is
   * placed at its row's top; the others are nudged by Dec, which puts the
   * vertical middle of every label, in whichever font it has, at the middle of a
   * highlight-font line on that row.
   */
  function ScoreY(i: nat, player: int, height: real, scoreFont: Font, highlightFont: Font, textFont: Font): (y: real)
    ensures i == player - 1 ==> y == RowTop(i, height, textFont)
    ensures i != player - 1 ==> y == RowTop(i, height, textFont) + Dec(scoreFont, highlightFont)
    ensures y + ScoreFontFor(i, player, scoreFont, highlightFont).baseHeight / 2.0
            == RowTop(i, height, textFont) + highlightFont.baseHeight / 2.0
  {
    RowTop(i, height, textFont) + (if i == player - 1 then 0.0 else Dec(scoreFont, highlightFont))
  }

  /** Even-numbered scores hang from the left edge at x = 1, odd ones from the right at width - 1. */
  function ScoreAnchor(i: nat, player: int, width: real, height: real,
                       scoreFont: Font, highlightFont: Font, textFont: Font): (a: Anchor)
    ensures a.y == ScoreY(i, player, height, scoreFont, highlightFont, textFont)
    ensures i % 2 == 0 ==> a.x == 1.0 && a.alignment == TopLeft
    ensures i % 2 == 1 ==> a.x == width - 1.0 && a.alignment == TopRight
  {
    var y := ScoreY(i, player, height, scoreFont, highlightFont, textFont);
    if i % 2 == 0 then Anchor(1.0, y, TopLeft) else Anchor(width - 1.0, y, TopRight)
  }

  class ScoreBoard {
    /** `_scores`: the labels of players 1 to 4. */
    const scores: array<Label>
    var lowerLeft: Label
    var lowerRight: Label
    var background: Option<Backdrop>
    var highlightedPlayer: int
    var scoreFont: Font
    var highlightFont: Font
    var textFont: Font
    var children: seq<Slot>
    /** Ids of the backgrounds this board has disposed of. */
    var disposed: seq<nat>

    var visible: bool
    var x: real
    var y: real
    var width: real
    var height: real

    /** Four score labels and the child list in its fixed order. */
    ghost predicate Structure()
      reads this`children, this`background
    {
      && scores.Length == 4
      && children == BackgroundSlots(background) + LabelSlots()
    }

    /** Besides the structure, each score label's font follows the highlight. */
    ghost predicate Valid()
      reads this`children, this`background, this`highlightedPlayer, this`scoreFont, this`highlightFont, scores
    {
      && Structure()
      && forall i :: 0 <= i < 4 ==> scores[i].font == ScoreFontFor(i, highlightedPlayer, scoreFont, highlightFont)
    }

    constructor (scoreFont: Font, highlightFont: Font, textFont: Font)
      ensures Valid() && fresh(scores)
      ensures this.scoreFont == scoreFont && this.highlightFont == highlightFont && this.textFont == textFont
      ensures children == LabelSlots() && background == None && highlightedPlayer == 0 && disposed == []
      ensures lowerLeft == NewLabel(textFont, "", 0.0, 0.0) && lowerRight == NewLabel(textFont, "", 0.0, 0.0)
      ensures forall i :: 0 <= i < 4 ==> scores[i] == NewLabel(scoreFont, "0", 0.0, 0.0)
      ensures visible
    {
      this.scoreFont, this.highlightFont, this.textFont := scoreFont, highlightFont, textFont;
      lowerLeft := NewLabel(textFont, "", 0.0, 0.0);
      lowerRight := NewLabel(textFont, "", 0.0, 0.0);
      var kids := [LowerLeftSlot, LowerRightSlot];
      var a := new Label[4];
      for i := 0 to 4
        invariant kids == LabelSlots()[..2 + i]
        invariant forall j :: 0 <= j < i ==> a[j] == NewLabel(scoreFont, "0", 0.0, 0.0)
      {
        a[i] := NewLabel(scoreFont, "0", 0.0, 0.0);
        kids := kids + [ScoreSlot(i)];
      }
      scores := a;
      children := kids;
      background := None;
      highlightedPlayer := 0;
      disposed := [];
      visible, x, y, width, height := true, 0.0, 0.0, 0.0, 0.0;
    }

    /**
     * Replaces the background: the previous one is removed from the children
     * and disposed of when disposable; a new one goes to the front, beneath
     * the labels, which keep their order.
     */
    method SetBackground(b: Option<Backdrop>)
      requires Valid()
      modifies this`background, this`children, this`disposed
      ensures Valid() && background == b
      ensures children == BackgroundSlots(b) + LabelSlots()
      ensures children[|children| - 6..] == old(children)[|old(children)| - 6..]
      ensures disposed == old(disposed) + (if old(background).Some? && old(background).value.disposable
                                           then [old(background).value.id] else [])
    {
      LabelsLast(background);
      LabelsLast(b);
      if background.Some? {
        var id := background.value.id;
        RemoveFirstOfFront(BackgroundSlot(id), LabelSlots());
        children := RemoveFirst(children, BackgroundSlot(id));
        if background.value.disposable {
          disposed := disposed + [id];
        }
      }
      assert children == LabelSlots();
      background := b;
      if b.Some? {
        children := InsertAt(children, BackgroundSlot(b.value.id), 0);
      }
    }

    /** Score label i is shown exactly when i < nPlayers. */
    method SetNPlayers(nPlayers: int)
      requires Valid()
      modifies scores
      ensures Valid()
      ensures forall i :: 0 <= i < 4 ==> scores[i] == old(scores[i]).(visible := i < nPlayers)
    {
      for i := 0 to 4
        invariant forall j :: 0 <= j < i ==> scores[j] == old(scores[j]).(visible := j < nPlayers)
        invariant forall j :: i <= j < 4 ==> scores[j] == old(scores[j])
      {
        scores[i] := scores[i].(visible := i < nPlayers);
      }
    }

    /**
     * Highlights `player` (1-based): its label takes the highlight font and
     * all others the score font; with no label p-1 (0 or out of range) none is
     * highlighted. Only the fonts change.
     */
    method SetHighlightedPlayer(player: int)
      requires Structure()
      modifies this`highlightedPlayer, scores
      ensures Valid() && highlightedPlayer == player
      ensures forall i :: 0 <= i < 4 ==>
        scores[i] == old(scores[i]).(font := if i == player - 1 then highlightFont else scoreFont)
    {
      highlightedPlayer := player;
      for i := 0 to 4
        invariant highlightedPlayer == player
        invariant forall j :: 0 <= j < i ==>
          scores[j] == old(scores[j]).(font := if j == player - 1 then highlightFont else scoreFont)
        invariant forall j :: i <= j < 4 ==> scores[j] == old(scores[j])
      {
        if i == player - 1 {
          scores[i] := scores[i].(font := highlightFont);
        } else {
          scores[i] := scores[i].(font := scoreFont);
        }
      }
    }

    /** Stores the fonts, re-applies the current highlight with them and re-fonts the lower labels. */
    method SetFonts(scoreFont: Font, highlightFont: Font, textFont: Font)
      requires Valid()
      modifies this`scoreFont, this`highlightFont, this`textFont, this`lowerLeft, this`lowerRight, scores
      modifies this`highlightedPlayer
      ensures Valid() && highlightedPlayer == old(highlightedPlayer)
      ensures this.scoreFont == scoreFont && this.highlightFont == highlightFont && this.textFont == textFont
      ensures forall i :: 0 <= i < 4 ==>
        scores[i] == old(scores[i]).(font := ScoreFontFor(i, highlightedPlayer, scoreFont, highlightFont))
      ensures lowerLeft == old(lowerLeft).(font := textFont) && lowerRight == old(lowerRight).(font := textFont)
    {
      this.scoreFont, this.highlightFont, this.textFont := scoreFont, highlightFont, textFont;
      SetHighlightedPlayer(highlightedPlayer);
      lowerLeft := lowerLeft.(font := textFont);
      lowerRight := lowerRight.(font := textFont);
    }

    /** Each label spells its score in "#,##0", score1 in label 0 through score4 in label 3. */
    method SetScore(score1: int64, score2: int64, score3: int64, score4: int64)
      requires Valid()
      modifies scores
      ensures Valid()
      ensures scores[0] == old(scores[0]).(text := FormatScore(score1))
      ensures scores[1] == old(scores[1]).(text := FormatScore(score2))
      ensures scores[2] == old(scores[2]).(text := FormatScore(score3))
      ensures scores[3] == old(scores[3]).(text := FormatScore(score4))
    {
      scores[0] := scores[0].(text := FormatScore(score1));
      scores[1] := scores[1].(text := FormatScore(score2));
      scores[2] := scores[2].(text := FormatScore(score3));
      scores[3] := scores[3].(text := FormatScore(score4));
    }

    /**
     * Takes the parent's size as its bounds and anchors the six labels: the
     * scores at the corners of two rows, the status labels on the text line
     * at the bottom. The labels' packing is not modelled.
     */
    method Update(parentWidth: real, parentHeight: real)
      requires Valid()
      modifies this`x, this`y, this`width, this`height, this`lowerLeft, this`lowerRight, scores
      ensures Valid()
      ensures x == 0.0 && y == 0.0 && width == parentWidth && height == parentHeight
      ensures forall i :: 0 <= i < 4 ==>
        scores[i] == old(scores[i]).(anchor := Some(ScoreAnchor(i, highlightedPlayer, width, height,
                                                                scoreFont, highlightFont, textFont)))
      ensures lowerLeft == old(lowerLeft).(anchor := Some(Anchor(1.0, height - textFont.baseHeight - 1.0, TopLeft)))
      ensures lowerRight == old(lowerRight).(anchor := Some(Anchor(width - 1.0, height - textFont.baseHeight - 1.0, TopRight)))
    {
      x, y, width, height := 0.0, 0.0, parentWidth, parentHeight;
      AnchorScores();
      AnchorStatus();
    }

    /** The SetAlignedPosition calls for the status labels: both on the text line at the bottom. */
    method AnchorStatus()
      modifies this`lowerLeft, this`lowerRight
      ensures lowerLeft == old(lowerLeft).(anchor := Some(Anchor(1.0, height - textFont.baseHeight - 1.0, TopLeft)))
      ensures lowerRight == old(lowerRight).(anchor := Some(Anchor(width - 1.0, height - textFont.baseHeight - 1.0, TopRight)))
    {
      var yText := height - textFont.baseHeight - 1.0;
      lowerLeft := lowerLeft.(anchor := Some(Anchor(1.0, yText, TopLeft)));
      lowerRight := lowerRight.(anchor := Some(Anchor(width - 1.0, yText, TopRight)));
    }

    /**
     * The SetAlignedPosition calls for the four scores: the first row at the
     * top, the second centred above the text line, players 1 and 3 on the
     * left edge, 2 and 4 on the right; only the highlighted one is not nudged.
     */
    method AnchorScores()
      requires Valid()
      modifies scores
      ensures Valid()
      ensures forall i :: 0 <= i < 4 ==>
        scores[i] == old(scores[i]).(anchor := Some(ScoreAnchor(i, highlightedPlayer, width, height,
                                                                scoreFont, highlightFont, textFont)))
    {
      var yLine2 := (height - textFont.baseHeight) / 2.0;
      var dec := (highlightFont.baseHeight - scoreFont.baseHeight) / 2.0;
      scores[0] := scores[0].(anchor := Some(Anchor(1.0, 1.0 + (if highlightedPlayer == 1 then 0.0 else dec), TopLeft)));
      scores[1] := scores[1].(anchor := Some(Anchor(width - 1.0, 1.0 + (if highlightedPlayer == 2 then 0.0 else dec), TopRight)));
      scores[2] := scores[2].(anchor := Some(Anchor(1.0, yLine2 + (if highlightedPlayer == 3 then 0.0 else dec), TopLeft)));
      scores[3] := scores[3].(anchor := Some(Anchor(width - 1.0, yLine2 + (if highlightedPlayer == 4 then 0.0 else dec), TopRight)));
      forall i | 0 <= i < 4
        ensures scores[i] == old(scores[i]).(anchor := Some(ScoreAnchor(i, highlightedPlayer, width, height,
                                                                        scoreFont, highlightFont, textFont)))
      {
        if i == 0 {
        } else if i == 1 {
        } else if i == 2 {
        } else {
          assert i == 3;
        }
      }
    }

    /** A hidden board draws nothing; a visible one first sizes its background to itself. */
    method Draw() returns (drawn: bool)
      requires Valid()
      modifies this`background
      ensures Valid() && drawn == visible
      ensures visible && old(background).Some? ==>
        background == Some(old(background).value.(width := width, height := height))
      ensures !(visible && old(background).Some?) ==> background == old(background)
    {
      drawn := visible;
      if visible && background.Some? {
        background := Some(background.value.(width := width, height := height));
      }
    }
  }

  /** Player 2 highlighted, then scores 10, 20, 30 and 40. */
  method HighlightThenScore() returns (texts: seq<string>, fonts: seq<Font>)
    ensures texts == ["10", "20", "30", "40"]
    ensures fonts == [Font("score", 5.0), Font("highlight", 9.0), Font("score", 5.0), Font("score", 5.0)]
  {
    var board := new ScoreBoard(Font("score", 5.0), Font("highlight", 9.0), Font("text", 5.0));
    board.SetHighlightedPlayer(2);
    board.SetScore(10, 20, 30, 40);
    assert Digits(1) == "1" && Digits(10) == Digits(1) + "0";
    assert Digits(2) == "2" && Digits(20) == Digits(2) + "0";
    assert Digits(3) == "3" && Digits(30) == Digits(3) + "0";
    assert Digits(4) == "4" && Digits(40) == Digits(4) + "0";
    assert FormatScore(10) == "10" && FormatScore(20) == "20" && FormatScore(30) == "30" && FormatScore(40) == "40";
    texts := [board.scores[0].text, board.scores[1].text, board.scores[2].text, board.scores[3].text];
    fonts := [board.scores[0].font, board.scores[1].font, board.scores[2].font, board.scores[3].font];
  }
}
