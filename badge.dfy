// The badge catalogue entry and the record of a badge a user holds. Both are
// plain data holders: the services replace whole records when they save.

module BadgeEntities {
  import opened Common

  datatype BadgeType = Streak | Milestone | Social | Achievement | Special

  datatype BadgeCategory = LoginBadge | CoffeeChatBadge | LoungeBadge | NetworkingBadge | EngagementBadge | LeadershipBadge

  /** A badge definition. `rarityLevel` is 1 (Common) .. 4 (Legendary) by convention. */
  datatype Badge = Badge(
    id: int,
    name: string,
    description: Option<string>,
    iconUrl: Option<string>,
    badgeType: BadgeType,
    badgeCategory: BadgeCategory,
    requiredCount: Option<int>,
    isActive: bool,
    rarityLevel: int,
    createdAt: int)

  /** A badge held by a user; `earnedAt` is the creation timestamp. */
  datatype UserBadge = UserBadge(
    userId: int,
    badgeId: int,
    earnedAt: int,
    currentProgress: int,
    isDisplayed: bool,
    notificationSent: bool)
}
