/** The rank title the header derives from the user's XP. */
module Header {

  datatype Rank = Aprendiz | Disenador | Innovador

  /** The title shown for a rank. */
  function Title(r: Rank): string {
    match r
    case Aprendiz => "Aprendiz"
    case Disenador => "Diseñador/a"
    case Innovador => "Innovador/a"
  }

  /** The position of a rank in the progression. */
  function Level(r: Rank): nat {
    match r
    case Aprendiz => 0
    case Disenador => 1
    case Innovador => 2
  }

  /** The rank for an XP total: below 500, from 500 below 1500, and from 1500 on. */
  function RankOf(xp: int): (r: Rank)
    ensures r == Aprendiz <==> xp < 500
    ensures r == Disenador <==> 500 <= xp < 1500
    ensures r == Innovador <==> 1500 <= xp
  {
    if xp < 500 then Aprendiz else if xp < 1500 then Disenador else Innovador
  }

  /** More XP never gives a lower rank. */
  lemma RankMonotone(xp1: int, xp2: int)
    requires xp1 <= xp2
    ensures Level(RankOf(xp1)) <= Level(RankOf(xp2))
  {
  }
}
