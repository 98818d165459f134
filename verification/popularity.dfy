/**
  The popularity bar of the artist card. A 0-100 popularity score is shown with
  a Spanish label and a Bootstrap background class; both are chosen by the same
  four thresholds, 80, 60, 40 and 20.
 */
module Popularity {

  /** The five popularity bands, from least to most popular. */
  datatype Band = Underground | Emergente | Popular | MuyPopular | Superestrella {

    /** The scores that fall into this band: half-open intervals between the thresholds. */
    predicate Contains(p: int) {
      match this
      case Superestrella => 80 <= p
      case MuyPopular => 60 <= p < 80
      case Popular => 40 <= p < 60
      case Emergente => 20 <= p < 40
      case Underground => p < 20
    }

    /** Position of the band in the popularity order. */
    function Rank(): nat {
      match this
      case Underground => 0
      case Emergente => 1
      case Popular => 2
      case MuyPopular => 3
      case Superestrella => 4
    }

    /** The text printed inside the bar. */
    function Label(): string {
      match this
      case Superestrella => "Superestrella"
      case MuyPopular => "Muy Popular"
      case Popular => "Popular"
      case Emergente => "Emergente"
      case Underground => "Underground"
    }

    /** The class that colours the bar. */
    function CssClass(): string {
      match this
      case Superestrella => "bg-success"
      case MuyPopular => "bg-info"
      case Popular => "bg-warning"
      case Emergente => "bg-secondary"
      case Underground => "bg-danger"
    }
  }

  /** Every score lies in exactly one band. */
  lemma BandsPartition(p: int)
    ensures exists b: Band :: b.Contains(p)
    ensures forall b1: Band, b2: Band :: b1.Contains(p) && b2.Contains(p) ==> b1 == b2
  {
    if p >= 80 { assert Superestrella.Contains(p); }
    else if p >= 60 { assert MuyPopular.Contains(p); }
    else if p >= 40 { assert Popular.Contains(p); }
    else if p >= 20 { assert Emergente.Contains(p); }
    else { assert Underground.Contains(p); }
  }

  /** Distinct bands have distinct labels and distinct classes, so each identifies its band. */
  lemma NamesIdentifyBand(b1: Band, b2: Band)
    ensures b1.Label() == b2.Label() <==> b1 == b2
    ensures b1.CssClass() == b2.CssClass() <==> b1 == b2
  {
  }

  /** `getPopularityLevel`: the label of the band the score falls into. */
  function PopularityLevel(popularity: int): (r: string)
    ensures forall b: Band :: b.Contains(popularity) <==> r == b.Label()
  {
    BandsPartition(popularity);
    if popularity >= 80 then "Superestrella"
    else if popularity >= 60 then "Muy Popular"
    else if popularity >= 40 then "Popular"
    else if popularity >= 20 then "Emergente"
    else "Underground"
  }

  /** `getPopularityColor`: the CSS class of the band the score falls into. */
  function PopularityColor(popularity: int): (r: string)
    ensures forall b: Band :: b.Contains(popularity) <==> r == b.CssClass()
  {
    BandsPartition(popularity);
    if popularity >= 80 then "bg-success"
    else if popularity >= 60 then "bg-info"
    else if popularity >= 40 then "bg-warning"
    else if popularity >= 20 then "bg-secondary"
    else "bg-danger"
  }

  /** The level is always one of the five labels, whatever the score (including scores outside 0-100). */
  lemma PopularityLevelTotal(popularity: int)
    ensures PopularityLevel(popularity) in
      {"Superestrella", "Muy Popular", "Popular", "Emergente", "Underground"}
    ensures PopularityColor(popularity) in
      {"bg-success", "bg-info", "bg-warning", "bg-secondary", "bg-danger"}
  {
  }

  /** Label and colour always name the same band: the bar's text and its colour never disagree. */
  lemma LevelAndColorAgree(popularity: int, b: Band)
    ensures PopularityLevel(popularity) == b.Label() <==> PopularityColor(popularity) == b.CssClass()
  {
  }

  /**
    A higher score never gets a lower band, so the label never moves down;
    by `LevelAndColorAgree` the colour follows the label's band.
   */
  lemma PopularityMonotone(p: int, q: int, bp: Band, bq: Band)
    requires p <= q
    requires PopularityLevel(p) == bp.Label() && PopularityLevel(q) == bq.Label()
    ensures bp.Rank() <= bq.Rank()
  {
  }
}
