/**
 * The reputation badge of the web client: a score is classified into one of
 * seven tiers, each with a label, an emoji, a star count and a CSS class; the
 * badge shows the signed score and, optionally, a row of five stars, and its
 * tooltip repeats the score ranges as a table.
 */
module ReputationBadge {
  import opened Wrappers
  import opened JsBuiltins

  datatype Tier =
    | TrustedChampion
    | TrustedProvider
    | GrowingReputation
    | NewNeutral
    | UnderWatch
    | PoorStanding
    | NotRecommended

  datatype Emoji = GreenCircle | YellowCircle | WhiteCircle | OrangeCircle | RedCircle

  datatype Icon = ShieldIcon | TrendingUpIcon | ClockIcon | AlertTriangleIcon | XIcon

  /** The record `getReputationData` returns. */
  datatype ReputationData = ReputationData(
    name: string,
    emoji: Emoji,
    icon: Icon,
    stars: nat,
    className: string,
    description: string)

  /** The if/else-if chain of `getReputationData`, naming the branch taken. */
  function TierOf(score: int): Tier {
    if score >= 100 then TrustedChampion
    else if score >= 60 then TrustedProvider
    else if score >= 20 then GrowingReputation
    else if score >= -19 then NewNeutral
    else if score >= -59 then UnderWatch
    else if score >= -99 then PoorStanding
    else NotRecommended
  }

  /** The record returned in each branch. */
  function DataOf(t: Tier): ReputationData {
    match t
    case TrustedChampion => ReputationData("Trusted Champion", GreenCircle, ShieldIcon, 5,
      "reputation-champion", "Outstanding — verified, consistently positive, highly reliable.")
    case TrustedProvider => ReputationData("Trusted Provider", GreenCircle, ShieldIcon, 4,
      "reputation-trusted", "Strongly trusted — most feedback is relevant and positive.")
    case GrowingReputation => ReputationData("Growing Reputation", YellowCircle, TrendingUpIcon, 3,
      "reputation-growing", "Mixed to good — rising reputation, room for growth.")
    case NewNeutral => ReputationData("New / Neutral", WhiteCircle, ClockIcon, 2,
      "reputation-neutral", "Unproven — too early or feedback is mixed/limited.")
    case UnderWatch => ReputationData("Under Watch", OrangeCircle, AlertTriangleIcon, 2,
      "reputation-under-watch", "Significant concerns — multiple negative/relevant comments.")
    case PoorStanding => ReputationData("Poor Standing", RedCircle, AlertTriangleIcon, 1,
      "reputation-poor", "Majority negative — trust significantly eroded.")
    case NotRecommended => ReputationData("Not Recommended", RedCircle, XIcon, 0,
      "reputation-not-recommended", "Major red flags — low engagement quality, flagged or unreliable service.")
  }

  function GetReputationData(score: int): ReputationData {
    DataOf(TierOf(score))
  }

  /** Each tier holds exactly the scores of its band. */
  lemma TierBands(score: int)
    ensures TierOf(score) == TrustedChampion <==> score >= 100
    ensures TierOf(score) == TrustedProvider <==> 60 <= score <= 99
    ensures TierOf(score) == GrowingReputation <==> 20 <= score <= 59
    ensures TierOf(score) == NewNeutral <==> -19 <= score <= 19
    ensures TierOf(score) == UnderWatch <==> -59 <= score <= -20
    ensures TierOf(score) == PoorStanding <==> -99 <= score <= -60
    ensures TierOf(score) == NotRecommended <==> score <= -100
  {
  }

  /**
   * The star count of each tier. `TierStars` and `TierEmoji` are the two
   * fields of `DataOf` without its label, class and description text, so
   * that proofs about stars and colours do not unfold those strings;
   * `DataOfTier` is the one place where they are tied to `DataOf`.
   */
  function TierStars(t: Tier): nat {
    match t
    case TrustedChampion => 5
    case TrustedProvider => 4
    case GrowingReputation => 3
    case NewNeutral => 2
    case UnderWatch => 2
    case PoorStanding => 1
    case NotRecommended => 0
  }

  /** The emoji of each tier. */
  function TierEmoji(t: Tier): Emoji {
    match t
    case TrustedChampion => GreenCircle
    case TrustedProvider => GreenCircle
    case GrowingReputation => YellowCircle
    case NewNeutral => WhiteCircle
    case UnderWatch => OrangeCircle
    case PoorStanding => RedCircle
    case NotRecommended => RedCircle
  }

  /** The record of each tier carries that tier's stars and emoji. */
  lemma DataOfTier(t: Tier)
    ensures DataOf(t).stars == TierStars(t)
    ensures DataOf(t).emoji == TierEmoji(t)
  {
    DataStars(t);
    DataEmoji(t);
  }

  lemma DataStars(t: Tier)
    ensures DataOf(t).stars == TierStars(t)
  {
  }

  lemma DataEmoji(t: Tier)
    ensures DataOf(t).emoji == TierEmoji(t)
  {
  }

  /** The stars the badge shows for a score: always 0 to 5. */
  function StarsOf(score: int): (n: nat)
    ensures n <= 5
  {
    TierStars(TierOf(score))
  }

  /** `StarsOf` is the star count of the record `getReputationData` returns. */
  lemma StarsOfIsDataStars(score: int)
    ensures StarsOf(score) == GetReputationData(score).stars
  {
    DataOfTier(TierOf(score));
  }

  /** A higher score never shows fewer stars. */
  lemma StarsMonotone(a: int, b: int)
    requires a <= b
    ensures StarsOf(a) <= StarsOf(b)
  {
    if b >= 100 {
    } else if b >= 60 {
    } else if b >= 20 {
    } else if b >= -59 {
    } else if b >= -99 {
    }
  }

  /** `{score > 0 ? "+" : ""}{score}`: the number as the badge prints it. */
  function ScoreText(score: int): string {
    (if score > 0 then "+" else "") + IntToString(score)
  }

  /** The printed score starts with "+" exactly for positive scores, with "-"
      exactly for negative ones, a zero prints as "0", and reading the text
      back gives the score. */
  lemma {:induction false} ScoreTextSign(score: int)
    ensures ScoreText(score) != []
    ensures ScoreText(score)[0] == '+' <==> score > 0
    ensures ScoreText(score)[0] == '-' <==> score < 0
    ensures score == 0 ==> ScoreText(score) == "0"
    ensures ParseInt(ScoreText(score)) == Num(score)
  {
    if score > 0 {
      ParseIntOfPlusNat(score);
      assert ScoreText(score) == "+" + NatToString(score);
    } else {
      ParseIntOfIntToString(score);
      if score == 0 {
        assert ScoreText(score) == NatToString(0) == "0";
      } else {
        assert ScoreText(score) == "-" + NatToString(-score);
      }
      if score == 0 {
        assert ScoreText(score)[0] == '0';
      } else {
        assert ScoreText(score)[0] == '-';
      }
    }
  }

  /** `StarRating`: five star icons, the first `stars` of them filled. */
  function StarRating(stars: int): (icons: seq<bool>) {
    seq(5, i => i < stars)
  }

  function CountFilled(icons: seq<bool>): nat {
    if icons == [] then 0 else (if icons[0] then 1 else 0) + CountFilled(icons[1..])
  }

  /** Filled icons come first, then empty ones. */
  lemma {:induction false} CountFilledPrefix(icons: seq<bool>, k: nat)
    requires k <= |icons|
    requires forall i :: 0 <= i < |icons| ==> (icons[i] <==> i < k)
    ensures CountFilled(icons) == k
  {
    if icons != [] {
      var rest := icons[1..];
      if k == 0 {
        CountFilledPrefix(rest, 0);
      } else {
        CountFilledPrefix(rest, k - 1);
      }
    }
  }

  /** The row always has five icons and exactly `stars` of them are filled,
      for the star counts the tiers use. */
  lemma StarRatingFilled(stars: int)
    requires 0 <= stars <= 5
    ensures |StarRating(stars)| == 5
    ensures CountFilled(StarRating(stars)) == stars
  {
    CountFilledPrefix(StarRating(stars), stars);
  }

  /** One line of the tooltip's "Score Ranges" table: bounds (absent for an
      open end), emoji, tier and the stars drawn (absent for the "🚫" line). */
  datatype RangeLine = RangeLine(lo: Option<int>, hi: Option<int>, emoji: Emoji, tier: Tier, shownStars: Option<nat>)

  const ScoreRanges: seq<RangeLine> := [
    RangeLine(Some(100), None, GreenCircle, TrustedChampion, Some(5)),
    RangeLine(Some(60), Some(99), GreenCircle, TrustedProvider, Some(4)),
    RangeLine(Some(20), Some(59), YellowCircle, GrowingReputation, Some(3)),
    RangeLine(Some(-19), Some(19), WhiteCircle, NewNeutral, Some(2)),
    RangeLine(Some(-59), Some(-20), OrangeCircle, UnderWatch, Some(2)),
    RangeLine(Some(-99), Some(-60), RedCircle, PoorStanding, Some(1)),
    RangeLine(None, Some(-100), RedCircle, NotRecommended, None)
  ]

  predicate InLine(line: RangeLine, score: int) {
    (line.lo.None? || line.lo.value <= score) && (line.hi.None? || score <= line.hi.value)
  }

  /** The tooltip table agrees with the classification: every score lies on
      exactly one line, the line of its tier. */
  lemma TooltipMatchesClassification(score: int)
    ensures forall k :: 0 <= k < |ScoreRanges| ==>
      (InLine(ScoreRanges[k], score) <==> ScoreRanges[k].tier == TierOf(score))
  {
    TierBands(score);
  }

  lemma LineShowsTier(k: nat)
    requires k < |ScoreRanges|
    ensures ScoreRanges[k].emoji == TierEmoji(ScoreRanges[k].tier)
    ensures ScoreRanges[k].shownStars.GetOr(0) == TierStars(ScoreRanges[k].tier)
  {
    if k == 0 {
    } else if k == 1 {
    } else if k == 2 {
    } else if k == 3 {
    } else if k == 4 {
    } else if k == 5 {
    } else {
      assert k == 6;
    }
  }

  /** Each line shows its tier's emoji and star count. */
  lemma TooltipLinesMatchTiers()
    ensures forall k :: 0 <= k < |ScoreRanges| ==>
      && ScoreRanges[k].emoji == DataOf(ScoreRanges[k].tier).emoji
      && ScoreRanges[k].shownStars.GetOr(0) == DataOf(ScoreRanges[k].tier).stars
  {
    forall k | 0 <= k < |ScoreRanges|
      ensures ScoreRanges[k].emoji == DataOf(ScoreRanges[k].tier).emoji
      ensures ScoreRanges[k].shownStars.GetOr(0) == DataOf(ScoreRanges[k].tier).stars
    {
      LineShowsTier(k);
      DataOfTier(ScoreRanges[k].tier);
    }
  }
}
