/**
 * The achievement badges page: badge categories of fixed data, the earned and
 * total counts over them, and the rarity styling and label.
 */
module Badges {
  import opened ListOps
  import opened Text

  /** A badge (its icon component left out). */
  datatype Badge = Badge(name: string, description: string, earned: bool, rarity: string, color: string)

  datatype BadgeCategory = BadgeCategory(title: string, badges: seq<Badge>)

  const BadgeCategories: seq<BadgeCategory> := [
    BadgeCategory("Donation Milestones", [
      Badge("First Steps", "Made your first donation", true, "common", "bg-green-500"),
      Badge("Generous Heart", "Donated over $100", true, "common", "bg-blue-500"),
      Badge("Major Contributor", "Donated over $500", true, "rare", "bg-purple-500"),
      Badge("Philanthropist", "Donated over $1,000", false, "epic", "bg-yellow-500"),
      Badge("Guardian Angel", "Donated over $5,000", false, "legendary", "bg-red-500")]),
    BadgeCategory("Campaign Support", [
      Badge("Campaign Supporter", "Supported 5 different campaigns", true, "common", "bg-indigo-500"),
      Badge("Multi-Cause Champion", "Supported 10 different campaigns", true, "rare", "bg-teal-500"),
      Badge("Disaster Response Hero", "First to donate to 3 emergency campaigns", false, "epic", "bg-orange-500"),
      Badge("Global Impact Leader", "Supported campaigns in 5+ countries", false, "legendary", "bg-pink-500")]),
    BadgeCategory("Community Engagement", [
      Badge("Team Player", "Joined a fundraising team", true, "common", "bg-cyan-500"),
      Badge("Social Advocate", "Shared 10 campaigns on social media", false, "rare", "bg-violet-500"),
      Badge("Community Builder", "Recruited 5 new donors", false, "epic", "bg-emerald-500"),
      Badge("Influence Master", "Your referrals donated over $1,000", false, "legendary", "bg-rose-500")])
  ]

  function IsEarned(b: Badge): bool
  {
    b.earned
  }

  /** The badges of one category. */
  function BadgeCount(c: BadgeCategory): int
  {
    |c.badges|
  }

  /** The earned badges of one category: `badges.filter(badge => badge.earned).length`. */
  function EarnedCount(c: BadgeCategory): int
  {
    |Filter(IsEarned, c.badges)|
  }

  /** `totalBadges`. */
  function TotalBadges(categories: seq<BadgeCategory>): int
  {
    SumOf(BadgeCount, categories)
  }

  /** `earnedBadges`. */
  function EarnedBadges(categories: seq<BadgeCategory>): int
  {
    SumOf(EarnedCount, categories)
  }

  /** For any categories, the earned count lies between zero and the total. */
  lemma EarnedWithinTotal(categories: seq<BadgeCategory>)
    ensures 0 <= EarnedBadges(categories) <= TotalBadges(categories)
  {
    SumOfNonNegative(EarnedCount, categories);
    SumOfMonotone(EarnedCount, BadgeCount, categories);
  }

  /** The page shows 6 of 13 badges earned. */
  lemma PageCounts()
    ensures TotalBadges(BadgeCategories) == 13
    ensures EarnedBadges(BadgeCategories) == 6
  {
    TotalIs13();
    EarnedIs6();
  }

  lemma TotalIs13()
    ensures TotalBadges(BadgeCategories) == 13
  {
    var cs := BadgeCategories;
    assert |cs[0].badges| == 5 && |cs[1].badges| == 4 && |cs[2].badges| == 4;
    SumOfFront(BadgeCount, cs);
    SumOfFront(BadgeCount, cs[1..]);
    SumOfFront(BadgeCount, cs[2..]);
    assert cs[2..][1..] == [];
  }

  lemma EarnedIs6()
    ensures EarnedBadges(BadgeCategories) == 6
  {
    var cs := BadgeCategories;
    EarnedInMilestones();
    EarnedInSupport();
    EarnedInCommunity();
    SumOfFront(EarnedCount, cs);
    SumOfFront(EarnedCount, cs[1..]);
    SumOfFront(EarnedCount, cs[2..]);
    assert cs[2..][1..] == [];
  }

  /** One step of the earned filter, stated on lengths only. */
  lemma EarnedStep(bs: seq<Badge>)
    requires bs != []
    ensures |Filter(IsEarned, bs)| == (if bs[0].earned then 1 else 0) + |Filter(IsEarned, bs[1..])|
  {
  }

  lemma EarnedInMilestones()
    ensures EarnedCount(BadgeCategories[0]) == 3
  {
    var bs := BadgeCategories[0].badges;
    EarnedStep(bs); EarnedStep(bs[1..]); EarnedStep(bs[2..]); EarnedStep(bs[3..]); EarnedStep(bs[4..]);
    assert bs[4..][1..] == [];
  }

  lemma EarnedInSupport()
    ensures EarnedCount(BadgeCategories[1]) == 2
  {
    var bs := BadgeCategories[1].badges;
    EarnedStep(bs); EarnedStep(bs[1..]); EarnedStep(bs[2..]); EarnedStep(bs[3..]);
    assert bs[3..][1..] == [];
  }

  lemma EarnedInCommunity()
    ensures EarnedCount(BadgeCategories[2]) == 1
  {
    var bs := BadgeCategories[2].badges;
    EarnedStep(bs); EarnedStep(bs[1..]); EarnedStep(bs[2..]); EarnedStep(bs[3..]);
    assert bs[3..][1..] == [];
  }

  /** getRarityColor. */
  function RarityColor(rarity: string): string
  {
    match rarity
    case "common" => "text-gray-600 bg-gray-100 dark:bg-gray-800 dark:text-gray-400"
    case "rare" => "text-blue-600 bg-blue-100 dark:bg-blue-900/20 dark:text-blue-400"
    case "epic" => "text-purple-600 bg-purple-100 dark:bg-purple-900/20 dark:text-purple-400"
    case "legendary" => "text-yellow-600 bg-yellow-100 dark:bg-yellow-900/20 dark:text-yellow-400"
    case _ => "text-gray-600 bg-gray-100 dark:bg-gray-800 dark:text-gray-400"
  }

  /** An unknown rarity is styled like "common". */
  lemma UnknownRarityLooksCommon(rarity: string)
    requires rarity !in Rarities
    ensures RarityColor(rarity) == RarityColor("common")
  {
  }

  /** The rarities the badge data uses. */
  const Rarities: seq<string> := ["common", "rare", "epic", "legendary"]

  /** The four rarity labels `charAt(0).toUpperCase() + slice(1)` produces. */
  lemma RarityLabelsOfRarities()
    ensures Capitalize("common") == "Common" && Capitalize("rare") == "Rare"
    ensures Capitalize("epic") == "Epic" && Capitalize("legendary") == "Legendary"
  {
    assert "common"[1..] == "ommon" && "rare"[1..] == "are";
    assert "epic"[1..] == "pic" && "legendary"[1..] == "egendary";
  }

  /** Every badge of the data has one of the four rarities. */
  lemma BadgeRaritiesKnown()
    ensures forall k, j :: 0 <= k < |BadgeCategories| && 0 <= j < |BadgeCategories[k].badges| ==>
      BadgeCategories[k].badges[j].rarity in Rarities
  {
  }

  /**
   * Every badge the page lists carries one of the labels Common, Rare, Epic
   * and Legendary.
   */
  lemma RarityLabels()
    ensures forall k, j :: 0 <= k < |BadgeCategories| && 0 <= j < |BadgeCategories[k].badges| ==>
      Capitalize(BadgeCategories[k].badges[j].rarity) in ["Common", "Rare", "Epic", "Legendary"]
  {
    BadgeRaritiesKnown();
    RarityLabelsOfRarities();
  }
}
