// Presentation helpers of a leaderboard row: a medal and a style class by rank.

module LeaderboardEntryDto {

  const DefaultEmoji: string := "🏅"
  const StandardClass: string := "standard"

  /** getRankEmoji. */
  function RankEmoji(rank: int): (e: string)
    ensures rank == 1 ==> e == "🥇"
    ensures rank == 2 ==> e == "🥈"
    ensures rank == 3 ==> e == "🥉"
    ensures !(1 <= rank <= 3) ==> e == DefaultEmoji
  {
    match rank
    case 1 => "🥇"
    case 2 => "🥈"
    case 3 => "🥉"
    case _ => DefaultEmoji
  }

  /** getRankClass. */
  function RankClass(rank: int): (c: string)
    ensures rank == 1 ==> c == "gold"
    ensures rank == 2 ==> c == "silver"
    ensures rank == 3 ==> c == "bronze"
    ensures !(1 <= rank <= 3) ==> c == StandardClass
  {
    match rank
    case 1 => "gold"
    case 2 => "silver"
    case 3 => "bronze"
    case _ => StandardClass
  }

  /** Emoji and class single out the same podium ranks, and tell them apart. */
  lemma PodiumAgreement(rank: int, other: int)
    ensures (1 <= rank <= 3) <==> RankClass(rank) != StandardClass
    ensures (1 <= rank <= 3) <==> RankEmoji(rank) != DefaultEmoji
    ensures 1 <= rank <= 3 && 1 <= other <= 3 && rank != other ==>
              RankEmoji(rank) != RankEmoji(other) && RankClass(rank) != RankClass(other)
  {
  }
}
