// The badge as sent to clients: the entity's fields plus a rarity label.

module BadgeDto {
  import opened Common
  import opened BadgeEntities
  import BadgeProgressDto

  datatype BadgeView = BadgeView(
    id: int,
    name: string,
    description: Option<string>,
    iconUrl: Option<string>,
    badgeType: BadgeType,
    badgeCategory: BadgeCategory,
    requiredCount: Option<int>,
    rarityLevel: int,
    rarityDisplay: string,
    createdAt: int)

  /** getRarityDisplay: levels outside 1..4 fall back to "Common". */
  function RarityDisplay(level: int): (d: string)
    ensures level == 1 ==> d == "Common"
    ensures level == 2 ==> d == "Rare"
    ensures level == 3 ==> d == "Epic"
    ensures level == 4 ==> d == "Legendary"
    ensures !(1 <= level <= 4) ==> d == "Common"
  {
    match level
    case 1 => "Common"
    case 2 => "Rare"
    case 3 => "Epic"
    case 4 => "Legendary"
    case _ => "Common"
  }

  /** The two rarity labels agree on the four defined levels and disagree on
      every other level, where the progress report says "Unknown". */
  lemma RarityLabelsAgreeOnDefinedLevels(level: int)
    ensures 1 <= level <= 4 ==> RarityDisplay(level) == BadgeProgressDto.RarityDescription(level)
    ensures !(1 <= level <= 4) ==> RarityDisplay(level) != BadgeProgressDto.RarityDescription(level)
  {
  }

  /** fromEntity. */
  function FromEntity(b: Badge): (v: BadgeView)
    ensures v.id == b.id && v.name == b.name && v.description == b.description && v.iconUrl == b.iconUrl
    ensures v.badgeType == b.badgeType && v.badgeCategory == b.badgeCategory
    ensures v.requiredCount == b.requiredCount && v.rarityLevel == b.rarityLevel && v.createdAt == b.createdAt
    ensures v.rarityDisplay == RarityDisplay(b.rarityLevel)
  {
    BadgeView(b.id, b.name, b.description, b.iconUrl, b.badgeType, b.badgeCategory,
              b.requiredCount, b.rarityLevel, RarityDisplay(b.rarityLevel), b.createdAt)
  }

  /** Two badges with the same view differ at most in the activity flag. */
  lemma {:induction false} FromEntityInjective(a: Badge, b: Badge)
    requires FromEntity(a) == FromEntity(b)
    ensures a.(isActive := b.isActive) == b
  {
  }
}
