/**
 * The donor leaderboard: fixed donor data in rank order, the summary
 * statistics over it, the podium of the first three and the list of the rest,
 * and the rank-to-style mappings.
 */
module Leaderboard {
  import opened ListOps

  /** A donor (avatar left out); `isAnonymous` is false where the data omits it. */
  datatype Donor = Donor(
    id: string,
    name: string,
    totalDonated: int,
    campaignsSupported: int,
    joinDate: string,
    rank: int,
    badge: string,
    isAnonymous: bool)

  /** The icon getRankIcon picks. */
  datatype RankIcon = Crown | Medal | AwardIcon | Trophy

  /** The summary cards (the average, a floating-point quotient, left out). */
  datatype Stats = Stats(totalDonations: int, totalDonors: int, totalCampaigns: int)

  /** What the page shows: the statistics, the podium left to right, and the list below it. */
  datatype View = View(stats: Stats, podium: seq<Donor>, rest: seq<Donor>)

  /** The literal as the source file holds it: the UTF-8 bytes of a lock emoji read back as four Windows-1252 characters. */
  const AnonymousLabel: string := "\U{00F0}\U{0178}\U{201D}\U{2019} Anonymous Donor"

  const Donors: seq<Donor> := [
    Donor("1", "Sarah Johnson", 15750, 45, "2023-01-15", 1, "Platinum Angel", false),
    Donor("2", "Michael Chen", 12400, 40, "2023-02-08", 2, "Gold Guardian", false),
    Donor("3", "Emily ", 11200, 31, "2022-11-22", 3, "Silver Savior", false),
    Donor("4", "Anonymous Donor", 9800, 15, "2023-03-10", 4, "Hope Bringer", true),
    Donor("5", "David Thompson", 8900, 22, "2023-01-30", 5, "Compassion Hero", false),
    Donor("6", "Lisa Wang", 7650, 19, "2022-12-05", 6, "Relief Champion", false),
    Donor("7", "James Miller", 6890, 16, "2023-04-12", 7, "Community Builder", false),
    Donor("8", "Maria Garcia", 6200, 25, "2022-10-18", 8, "Kindness Advocate", false),
    Donor("9", "Robert Lee", 5500, 12, "2023-05-22", 9, "Hope Supporter", false),
    Donor("10", "Anna Wilson", 4950, 14, "2023-02-28", 10, "Caring Heart", false)
  ]

  const TimeFilters: seq<string> := ["all-time", "this-year", "this-month", "this-week"]

  function Donated(d: Donor): int
  {
    d.totalDonated
  }

  function Supported(d: Donor): int
  {
    d.campaignsSupported
  }

  /** `totalStats` over a donor list. */
  function StatsOf(donors: seq<Donor>): Stats
  {
    Stats(SumOf(Donated, donors), |donors|, SumOf(Supported, donors))
  }

  /** The statistics of the page's data. */
  lemma DonorStats()
    ensures StatsOf(Donors) == Stats(89240, 10, 239)
  {
    var s := Donors;
    SumOfFront(Donated, s);  SumOfFront(Supported, s);
    SumOfFront(Donated, s[1..]);  SumOfFront(Supported, s[1..]);
    SumOfFront(Donated, s[2..]);  SumOfFront(Supported, s[2..]);
    SumOfFront(Donated, s[3..]);  SumOfFront(Supported, s[3..]);
    SumOfFront(Donated, s[4..]);  SumOfFront(Supported, s[4..]);
    SumOfFront(Donated, s[5..]);  SumOfFront(Supported, s[5..]);
    SumOfFront(Donated, s[6..]);  SumOfFront(Supported, s[6..]);
    SumOfFront(Donated, s[7..]);  SumOfFront(Supported, s[7..]);
    SumOfFront(Donated, s[8..]);  SumOfFront(Supported, s[8..]);
    SumOfFront(Donated, s[9..]);  SumOfFront(Supported, s[9..]);
    assert s[9..][1..] == [];
  }

  /**
   * The data lists the donors in rank order: `rank` is the position plus one
   * and the amounts do not increase, so positions 0..2 are ranks 1..3.
   */
  lemma DonorsRanked()
    ensures forall k :: 0 <= k < |Donors| ==> Donors[k].rank == k + 1
    ensures forall j, k :: 0 <= j < k < |Donors| ==> Donors[j].totalDonated >= Donors[k].totalDonated
  {
    forall j, k | 0 <= j < k < |Donors| ensures Donors[j].totalDonated >= Donors[k].totalDonated {
      assert forall i :: 0 <= i < |Donors| - 1 ==> Donors[i].totalDonated >= Donors[i + 1].totalDonated;
      NonIncreasing(Donors, j, k);
    }
  }

  /** Adjacent order gives order between any two positions. */
  lemma {:induction false} NonIncreasing(s: seq<Donor>, j: int, k: int)
    requires 0 <= j <= k < |s|
    requires forall i :: 0 <= i < |s| - 1 ==> s[i].totalDonated >= s[i + 1].totalDonated
    ensures s[j].totalDonated >= s[k].totalDonated
    decreases k - j
  {
    if j < k {
      NonIncreasing(s, j + 1, k);
    }
  }

  /** The podium left to right: second place, first place, third place. */
  function Podium(donors: seq<Donor>): seq<Donor>
    requires |donors| >= 3
  {
    [donors[1], donors[0], donors[2]]
  }

  /** The list below the podium: `donors.slice(3)`. */
  function Rest(donors: seq<Donor>): seq<Donor>
  {
    if |donors| >= 3 then donors[3..] else []
  }

  /** Podium and list together show every donor exactly once. */
  lemma PodiumAndRestPartition(donors: seq<Donor>)
    requires |donors| >= 3
    ensures multiset(Podium(donors) + Rest(donors)) == multiset(donors)
  {
    assert donors == [donors[0], donors[1], donors[2]] + donors[3..];
    assert multiset(Podium(donors)) == multiset([donors[0], donors[1], donors[2]]);
  }

  /** The podium's and the list's amounts add up to the total. */
  lemma PodiumAndRestSum(donors: seq<Donor>)
    requires |donors| >= 3
    ensures SumOf(Donated, Podium(donors)) + SumOf(Donated, Rest(donors)) == SumOf(Donated, donors)
  {
    var p := Podium(donors);
    SumOfFront(Donated, donors);
    SumOfFront(Donated, donors[1..]);
    SumOfFront(Donated, donors[2..]);
    assert donors[2..][1..] == Rest(donors);
    SumOfFront(Donated, p);
    SumOfFront(Donated, p[1..]);
    SumOfFront(Donated, p[2..]);
    assert p[2..][1..] == [];
  }

  /** getBadgeColor. */
  function BadgeColor(rank: int): string
  {
    match rank
    case 1 => "bg-gradient-to-r from-purple-500 to-pink-500"
    case 2 => "bg-gradient-to-r from-yellow-400 to-orange-500"
    case 3 => "bg-gradient-to-r from-gray-400 to-gray-600"
    case _ => "bg-gradient-primary"
  }

  /** getRankIcon. */
  function IconFor(rank: int): RankIcon
  {
    match rank
    case 1 => Crown
    case 2 => Medal
    case 3 => AwardIcon
    case _ => Trophy
  }

  /** Ranks 1, 2 and 3 get pairwise different colours and icons; every other rank the default. */
  lemma RankStyles(rank: int)
    ensures rank !in {1, 2, 3} ==> BadgeColor(rank) == BadgeColor(4) && IconFor(rank) == Trophy
    ensures 1 <= rank <= 3 ==> BadgeColor(rank) != BadgeColor(4) && IconFor(rank) != Trophy
    ensures forall r1, r2 :: 1 <= r1 < r2 <= 3 ==> BadgeColor(r1) != BadgeColor(r2) && IconFor(r1) != IconFor(r2)
  {
    assert BadgeColor(1)[22] != BadgeColor(2)[22] && BadgeColor(1)[22] != BadgeColor(3)[22];
    assert BadgeColor(2)[22] != BadgeColor(3)[22];
    assert |BadgeColor(4)| != |BadgeColor(1)| && |BadgeColor(4)| != |BadgeColor(2)| && |BadgeColor(4)| != |BadgeColor(3)|;
  }

  /** The name the list shows: the anonymous label for an anonymous donor. */
  function ListedName(d: Donor): (r: string)
    ensures d.isAnonymous ==> r == AnonymousLabel
    ensures !d.isAnonymous ==> r == d.name
  {
    if d.isAnonymous then AnonymousLabel else d.name
  }

  /** The page for a time filter: the filter is read by nothing. */
  function PageView(timeFilter: string): View
  {
    View(StatsOf(Donors), Podium(Donors), Rest(Donors))
  }

  /**
   * Every time filter shows the same donors and statistics: each of the four
   * menu entries gives the page of the initial "all-time" entry.
   */
  lemma TimeFilterHasNoEffect(f1: string, f2: string)
    ensures PageView(f1) == PageView(f2)
    ensures TimeFilters[0] == "all-time"
    ensures forall k :: 0 <= k < |TimeFilters| ==> PageView(TimeFilters[k]) == PageView("all-time")
  {
  }
}
