/**
 * Values the question view derives from the rejection counter: the text of
 * the reject ("No") button and the font size and padding of the accept
 * ("Yes") button. All of them are pure functions of `noCount`.
 */
module Display {

  /** The escalating phrases the reject button cycles through. */
  const Messages: seq<string> := [
    "Are you sure?",
    "Really sure?",
    "Think again...",
    "Last chance!",
    "Surely not?",
    "You might regret this!",
    "Give it another thought!",
    "Are you absolutely certain?",
    "This could be a mistake!",
    "Have a heart!",
    "Don't be so cold!",
    "Change of heart?",
    "Wouldn't you reconsider?",
    "Is that your final answer?",
    "You're breaking my heart ;("
  ]

  /** The reject button's text before the first rejection. */
  const DefaultRejectText: string := "No"

  /** Base font size of the accept button, in pixels. */
  const BaseSize: int := 24

  /** Font-size growth per rejection, in pixels. */
  const GrowthStep: int := 15

  /** Largest font size the accept button is rendered with. */
  const MaxFontSize: int := 120

  /** Smallest vertical and horizontal padding of the accept button. */
  const MinPaddingY: real := 12.0
  const MinPaddingX: real := 24.0

  /** No phrase of the table reads like the default text. */
  lemma MessagesAreNotDefault()
    ensures |Messages| == 15
    ensures forall i :: 0 <= i < |Messages| ==> Messages[i] != DefaultRejectText
  {
    forall i | 0 <= i < |Messages| ensures |Messages[i]| > |DefaultRejectText| {
    }
  }

  /**
   * Text of the reject button: the default before any rejection, afterwards
   * the phrase at `noCount mod 15`.
   */
  function RejectText(noCount: nat): (text: string)
    ensures text == DefaultRejectText <==> noCount == 0
    ensures noCount > 0 ==> text in Messages
  {
    MessagesAreNotDefault();
    if noCount > 0 then Messages[noCount % |Messages|] else DefaultRejectText
  }

  /** For a positive count the phrase is the one at index `noCount mod 15`, an index inside the table. */
  lemma RejectTextIndex(noCount: nat)
    requires noCount > 0
    ensures 0 <= noCount % |Messages| < |Messages|
    ensures RejectText(noCount) == Messages[noCount % |Messages|]
  {
  }

  /** Adding whole turns of the table to the counter does not change the phrase index. */
  lemma {:induction false} MessageIndexPeriodic(noCount: nat, k: nat)
    ensures (noCount + 15 * k) % 15 == noCount % 15
  {
    if k > 0 {
      MessageIndexPeriodic(noCount, k - 1);
      assert noCount + 15 * k == (noCount + 15 * (k - 1)) + 15;
    }
  }

  /** The phrases repeat with period 15 once the counter is positive. */
  lemma RejectTextPeriodic(noCount: nat, k: nat)
    requires noCount >= 1
    ensures RejectText(noCount + |Messages| * k) == RejectText(noCount)
  {
    MessagesAreNotDefault();
    var later := noCount + |Messages| * k;
    MessageIndexPeriodic(noCount, k);
    assert later % |Messages| == noCount % |Messages|;
    assert RejectText(later) == Messages[later % |Messages|];
  }

  /**
   * The first rejection shows the SECOND phrase; the first phrase is first
   * shown at the fifteenth rejection.
   */
  lemma FirstCycle()
    ensures forall n :: 1 <= n < |Messages| ==> RejectText(n) == Messages[n]
    ensures RejectText(|Messages|) == Messages[0]
  {
    forall n | 1 <= n < |Messages| ensures RejectText(n) == Messages[n] {
      assert n % 15 == n;
    }
    assert 15 % 15 == 0;
  }

  /** Unclamped size of the accept button: grows by 15 per rejection from 24. */
  function YesButtonSize(noCount: nat): (size: int)
    ensures size >= BaseSize
    ensures size - GrowthStep * noCount == BaseSize
  {
    noCount * GrowthStep + BaseSize
  }

  /** Font size of the accept button: the unclamped size capped at 120 pixels. */
  function FontSize(noCount: nat): (px: int)
    ensures BaseSize <= px <= MaxFontSize
    ensures px <= YesButtonSize(noCount)
    ensures px == YesButtonSize(noCount) || px == MaxFontSize
  {
    if YesButtonSize(noCount) < MaxFontSize then YesButtonSize(noCount) else MaxFontSize
  }

  /** The font size never shrinks as rejections accumulate. */
  lemma FontSizeMonotone(m: nat, n: nat)
    requires m <= n
    ensures FontSize(m) <= FontSize(n)
  {
  }

  /** The font grows by exactly one step per rejection until it hits the cap at the seventh. */
  lemma FontSizeCap(noCount: nat)
    ensures FontSize(noCount) == MaxFontSize <==> noCount >= 7
    ensures noCount < 6 ==> FontSize(noCount + 1) == FontSize(noCount) + GrowthStep
  {
  }

  /** Vertical padding: a third of the unclamped size, never below 12 pixels. */
  function PaddingY(noCount: nat): (py: real)
    ensures py >= MinPaddingY
    ensures py >= YesButtonSize(noCount) as real / 3.0
    ensures py == MinPaddingY || py == YesButtonSize(noCount) as real / 3.0
  {
    var third := YesButtonSize(noCount) as real / 3.0;
    if MinPaddingY < third then third else MinPaddingY
  }

  /** Horizontal padding: the unclamped size divided by 1.5, never below 24 pixels. */
  function PaddingX(noCount: nat): (px: real)
    ensures px >= MinPaddingX
    ensures px >= YesButtonSize(noCount) as real / 1.5
    ensures px == MinPaddingX || px == YesButtonSize(noCount) as real / 1.5
  {
    var scaled := YesButtonSize(noCount) as real / 1.5;
    if MinPaddingX < scaled then scaled else MinPaddingX
  }

  /** The horizontal padding is always twice the vertical one. */
  lemma PaddingAspect(noCount: nat)
    ensures PaddingX(noCount) == 2.0 * PaddingY(noCount)
  {
  }

  /**
   * Both paddings grow with the counter; unlike the font size they are not
   * capped, and the floors bind only before the first rejection.
   */
  lemma PaddingMonotone(m: nat, n: nat)
    requires m <= n
    ensures PaddingY(m) <= PaddingY(n) && PaddingX(m) <= PaddingX(n)
    ensures m < n ==> PaddingY(m) < PaddingY(n) && PaddingX(m) < PaddingX(n)
    ensures PaddingY(m) == MinPaddingY <==> m == 0
    ensures PaddingX(m) == MinPaddingX <==> m == 0
  {
  }
}
