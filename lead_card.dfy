/**
 * The lead card's display rules: the score badge variant, the status badge
 * variant, the status dot colour, and the inline classes of the score badge.
 * The score cut-points here are 80 and 60.
 */
module LeadCard {
  import opened Leads

  datatype ScoreVariant = Success | Warning | HotVariant

  /** `getScoreVariant`. */
  function ScoreVariantOf(score: int): (v: ScoreVariant)
    ensures v == Success <==> score >= 80
    ensures v == Warning <==> 60 <= score < 80
    ensures v == HotVariant <==> score < 60
  {
    if score >= 80 then Success
    else if score >= 60 then Warning
    else HotVariant
  }

  datatype StatusVariant = Hot | Warm | Cold

  /** `getStatusVariant`. Every status other than quente and morno is frio here,
      so "anything else" is frio. */
  function StatusVariantOf(s: Status): (v: StatusVariant)
    ensures v == Hot <==> s == Quente
    ensures v == Warm <==> s == Morno
    ensures v == Cold <==> s == Frio
  {
    match s
    case Quente => Hot
    case Morno => Warm
    case Frio => Cold
  }

  /** `getStatusDot`. */
  function StatusDot(s: Status): (c: string)
    ensures c == "bg-destructive" <==> s == Quente
    ensures c == "bg-warning" <==> s == Morno
    ensures c == "bg-primary" <==> s == Frio
  {
    match s
    case Quente => "bg-destructive"
    case Morno => "bg-warning"
    case Frio => "bg-primary"
  }

  /** The three conditional classes of the score badge, in the order `cn` lists
      them; a class appears when its condition holds. */
  function ScoreBadgeClasses(score: int): seq<string> {
    (if score >= 80 then ["bg-success/20 text-success"] else [])
    + (if score >= 60 && score < 80 then ["bg-warning/20 text-warning"] else [])
    + (if score < 60 then ["bg-destructive/20 text-destructive"] else [])
  }

  /** The class the badge shows for each score variant. */
  function VariantClass(v: ScoreVariant): string {
    match v
    case Success => "bg-success/20 text-success"
    case Warning => "bg-warning/20 text-warning"
    case HotVariant => "bg-destructive/20 text-destructive"
  }

  /** For every score exactly one of the three badge conditions holds, and the
      class it selects is the one of the score's `getScoreVariant` bucket. */
  lemma BadgeMatchesVariant(score: int)
    ensures ScoreBadgeClasses(score) == [VariantClass(ScoreVariantOf(score))]
  {
  }

  /** The status dot tells the three statuses apart. */
  lemma StatusDotInjective(a: Status, b: Status)
    ensures StatusDot(a) == StatusDot(b) <==> a == b
  {
  }
}
