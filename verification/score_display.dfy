/**
  The threshold tables that turn a match score into a verbal label and a
  colour tone (the text colour and the card background use the same tones).
 */
module ScoreDisplay {

  /** The verbal labels, lowest first. */
  datatype Label = Average | Fair | Good | VeryGood | Excellent

  function LabelRank(l: Label): nat {
    match l
    case Average => 0
    case Fair => 1
    case Good => 2
    case VeryGood => 3
    case Excellent => 4
  }

  /** The smallest score that earns `l`. */
  function LabelFloor(l: Label): int
    requires l != Average
  {
    match l
    case Fair => 60
    case Good => 70
    case VeryGood => 80
    case Excellent => 90
  }

  /** `getScoreLabel`: the first threshold, from the top, that the score reaches. */
  function ScoreLabel(score: int): (r: Label)
    ensures forall l :: l != Average ==> (LabelRank(r) >= LabelRank(l) <==> score >= LabelFloor(l))
  {
    if score >= 90 then Excellent
    else if score >= 80 then VeryGood
    else if score >= 70 then Good
    else if score >= 60 then Fair
    else Average
  }

  /** A higher score never earns a lower label. */
  lemma LabelMonotone(a: int, b: int)
    requires a <= b
    ensures LabelRank(ScoreLabel(a)) <= LabelRank(ScoreLabel(b))
  {
  }

  /** The three colour tones, lowest first. */
  datatype Tone = Rose | Amber | Emerald

  function ToneRank(t: Tone): nat {
    match t
    case Rose => 0
    case Amber => 1
    case Emerald => 2
  }

  function ToneFloor(t: Tone): int
    requires t != Rose
  {
    match t
    case Amber => 60
    case Emerald => 80
  }

  /** `getScoreColor`: the text colour tone. */
  function ScoreColor(score: int): (r: Tone)
    ensures forall t :: t != Rose ==> (ToneRank(r) >= ToneRank(t) <==> score >= ToneFloor(t))
  {
    if score >= 80 then Emerald
    else if score >= 60 then Amber
    else Rose
  }

  /** `getScoreBg`: the card background tone. */
  function ScoreBg(score: int): (r: Tone)
    ensures forall t :: t != Rose ==> (ToneRank(r) >= ToneRank(t) <==> score >= ToneFloor(t))
  {
    if score >= 80 then Emerald
    else if score >= 60 then Amber
    else Rose
  }

  /** The text colour class of a tone; distinct tones get distinct classes. */
  function TextClass(t: Tone): (c: string)
    ensures c == "text-emerald-600" <==> t == Emerald
    ensures c == "text-amber-600" <==> t == Amber
    ensures c == "text-rose-600" <==> t == Rose
  {
    match t
    case Emerald => "text-emerald-600"
    case Amber => "text-amber-600"
    case Rose => "text-rose-600"
  }

  /** The background and border classes of a tone; distinct tones get
      distinct classes. */
  function BgClass(t: Tone): (c: string)
    ensures c == "bg-emerald-50 border-emerald-200" <==> t == Emerald
    ensures c == "bg-amber-50 border-amber-200" <==> t == Amber
    ensures c == "bg-rose-50 border-rose-200" <==> t == Rose
  {
    match t
    case Emerald => "bg-emerald-50 border-emerald-200"
    case Amber => "bg-amber-50 border-amber-200"
    case Rose => "bg-rose-50 border-rose-200"
  }

  /** Colour and background are monotone in the score and always agree. */
  lemma ToneMonotone(a: int, b: int)
    requires a <= b
    ensures ToneRank(ScoreColor(a)) <= ToneRank(ScoreColor(b))
    ensures ToneRank(ScoreBg(a)) <= ToneRank(ScoreBg(b))
    ensures ScoreColor(a) == ScoreBg(a)
  {
  }

  /** The tone is a coarsening of the label: emerald for the top two labels,
      amber for the middle two, rose for the default one. */
  lemma ToneCoarsensLabel(score: int)
    ensures ScoreColor(score) == Emerald <==> LabelRank(ScoreLabel(score)) >= LabelRank(VeryGood)
    ensures ScoreColor(score) == Amber <==> ScoreLabel(score) in {Fair, Good}
    ensures ScoreColor(score) == Rose <==> ScoreLabel(score) == Average
  {
  }
}
