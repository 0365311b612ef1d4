/**
 * The campaign list page: fixed campaign data, a search box and a category
 * menu that filter it, and the Donate Now button that opens the donation
 * modal for one campaign.
 */
module Campaigns {
  import opened Wrappers
  import opened ListOps
  import opened Text
  import DonationContext
  import DonationModal

  datatype Campaign = Campaign(
    id: string,
    title: string,
    location: string,
    target: int,
    raised: int,
    donors: int,
    daysLeft: int,
    category: string,
    verified: bool)

  /** An entry of the category menu; `name` holds the shown label (`label` is a reserved word here). */
  datatype Category = Category(id: string, name: string)

  /** The menu entry that disables the category condition. */
  const AllCategories: string := "all"

  /** The campaigns the page lists (description and image left out). */
  const AllCampaigns: seq<Campaign> := [
    Campaign("1", "Hurricane Relief - Florida Coast", "Florida, USA", 150000, 98750, 245, 12, "hurricane", true),
    Campaign("3", "Wildfire Emergency Support", "California, USA", 80000, 67200, 178, 15, "wildfire", true),
    Campaign("4", "Flood Relief - Bangladesh", "Sylhet, Bangladesh", 120000, 45600, 156, 22, "flood", true),
    Campaign("5", "Tornado Recovery - Midwest", "Oklahoma, USA", 95000, 78400, 203, 18, "tornado", true),
    Campaign("6", "Drought Emergency Relief", "Kenya", 180000, 112300, 267, 25, "drought", true),
    Campaign("7", "Cyclone Aftermath - Philippines", "Luzon, Philippines", 140000, 89200, 312, 14, "cyclone", true),
    Campaign("8", "Volcanic Eruption Relief - Indonesia", "Central Java, Indonesia", 110000, 73500, 198, 20, "volcano", true),
    Campaign("9", "Landslide Recovery - Nepal", "Sindhupalchok, Nepal", 85000, 52300, 167, 28, "landslide", true),
    Campaign("10", "Blizzard Emergency - Canada", "Manitoba, Canada", 75000, 41800, 134, 16, "blizzard", true),
    Campaign("11", "Tsunami Recovery - Japan", "Fukushima, Japan", 250000, 187600, 456, 35, "tsunami", true),
    Campaign("12", "Hailstorm Damage Relief - Argentina", "Mendoza, Argentina", 65000, 38900, 89, 24, "hailstorm", true),
    Campaign("13", "Ice Storm Emergency - Eastern Europe", "Ukraine", 130000, 95400, 278, 11, "icestorm", true),
    Campaign("14", "Mudslide Recovery - Colombia", "Mocoa, Colombia", 105000, 67800, 201, 19, "mudslide", true),
    Campaign("15", "Avalanche Relief - Switzerland", "Valais, Switzerland", 90000, 54200, 145, 21, "avalanche", true)
  ]

  /** The category menu. */
  const Categories: seq<Category> := [
    Category("all", "All Disasters"),
    Category("hurricane", "Hurricanes"),
    Category("earthquake", "Earthquakes"),
    Category("wildfire", "Wildfires"),
    Category("flood", "Floods"),
    Category("tornado", "Tornadoes"),
    Category("drought", "Droughts"),
    Category("cyclone", "Cyclones"),
    Category("volcano", "Volcanic Eruptions"),
    Category("landslide", "Landslides"),
    Category("blizzard", "Blizzards"),
    Category("tsunami", "Tsunamis"),
    Category("hailstorm", "Hailstorms"),
    Category("icestorm", "Ice Storms"),
    Category("mudslide", "Mudslides"),
    Category("avalanche", "Avalanches")
  ]

  /** The search condition: the lower-cased term occurs in the lower-cased title or location. */
  predicate MatchesSearch(c: Campaign, term: string)
  {
    Includes(Lower(c.title), Lower(term)) || Includes(Lower(c.location), Lower(term))
  }

  /** The category condition: the menu is on "all" or names the campaign's category. */
  predicate MatchesCategory(c: Campaign, category: string)
  {
    category == AllCategories || c.category == category
  }

  predicate Matches(c: Campaign, term: string, category: string)
  {
    MatchesSearch(c, term) && MatchesCategory(c, category)
  }

  /** `filteredCampaigns`. */
  function Filtered(campaigns: seq<Campaign>, term: string, category: string): seq<Campaign>
  {
    Filter((c: Campaign) => Matches(c, term, category), campaigns)
  }

  /**
   * The filtered list is the campaigns' own order with some left out, every
   * campaign in it meets both conditions, and every campaign that meets both
   * is in it.
   */
  lemma FilteredSpec(campaigns: seq<Campaign>, term: string, category: string)
    ensures IsSubsequence(Filtered(campaigns, term, category), campaigns)
    ensures forall k :: 0 <= k < |Filtered(campaigns, term, category)| ==>
      Matches(Filtered(campaigns, term, category)[k], term, category)
    ensures forall k :: 0 <= k < |campaigns| && Matches(campaigns[k], term, category) ==>
      campaigns[k] in Filtered(campaigns, term, category)
  {
    FilterIsSubsequence((c: Campaign) => Matches(c, term, category), campaigns);
  }

  /** With an empty search and "all", every campaign is listed. */
  lemma FilteredUnrestricted(campaigns: seq<Campaign>)
    ensures Filtered(campaigns, "", AllCategories) == campaigns
  {
    forall c | c in campaigns ensures Matches(c, "", AllCategories) {
      IncludesEmpty(Lower(c.title));
    }
    FilterAll((c: Campaign) => Matches(c, "", AllCategories), campaigns);
  }

  /** "earthquake" is on the menu, but no campaign has it: the page shows its empty state. */
  lemma EarthquakeFindsNothing(term: string)
    ensures Category("earthquake", "Earthquakes") in Categories
    ensures Filtered(AllCampaigns, term, "earthquake") == []
  {
    assert Categories[2] == Category("earthquake", "Earthquakes");
    NoEarthquakeCampaign();
    var p := (c: Campaign) => Matches(c, term, "earthquake");
    forall k | 0 <= k < |AllCampaigns| ensures !p(AllCampaigns[k]) {
      assert !MatchesCategory(AllCampaigns[k], "earthquake");
    }
    FilterNone(p, AllCampaigns);
  }

  /** No campaign of the data has the category "earthquake" (none has a ten-letter category). */
  lemma NoEarthquakeCampaign()
    ensures forall k :: 0 <= k < |AllCampaigns| ==> !MatchesCategory(AllCampaigns[k], "earthquake")
  {
    assert forall k :: 0 <= k < |AllCampaigns| ==> |AllCampaigns[k].category| != 10;
  }

  /** The page's own state. */
  datatype Page = Page(
    searchTerm: string,
    selectedCategory: string,
    isDonationModalOpen: bool,
    selectedCampaign: Option<Campaign>)

  function InitialPage(): Page
  {
    Page("", AllCategories, false, None)
  }

  /** What the page lists. */
  function Listed(p: Page): seq<Campaign>
  {
    Filtered(AllCampaigns, p.searchTerm, p.selectedCategory)
  }

  /** The "No campaigns found" message is shown exactly when nothing is listed. */
  predicate ShowsEmptyState(p: Page)
  {
    |Listed(p)| == 0
  }

  /** On first render every campaign is listed. */
  lemma InitialListsEverything()
    ensures Listed(InitialPage()) == AllCampaigns && !ShowsEmptyState(InitialPage())
  {
    FilteredUnrestricted(AllCampaigns);
  }

  /** The search box: the term is replaced and the list re-filtered under the same category. */
  function SetSearchTerm(p: Page, term: string): (r: Page)
    ensures r.searchTerm == term && Listed(r) == Filtered(AllCampaigns, term, p.selectedCategory)
    ensures r.selectedCategory == p.selectedCategory && r.isDonationModalOpen == p.isDonationModalOpen
    ensures r.selectedCampaign == p.selectedCampaign
  {
    p.(searchTerm := term)
  }

  /** The category menu: the category is replaced and the list re-filtered under the same term. */
  function SetCategory(p: Page, category: string): (r: Page)
    ensures r.selectedCategory == category && Listed(r) == Filtered(AllCampaigns, p.searchTerm, category)
    ensures r.searchTerm == p.searchTerm && r.isDonationModalOpen == p.isDonationModalOpen
    ensures r.selectedCampaign == p.selectedCampaign
  {
    p.(selectedCategory := category)
  }

  /** handleDonateClick: the campaign is selected and the modal opened; search and menu stay. */
  function DonateClick(p: Page, c: Campaign): (r: Page)
    ensures r.selectedCampaign == Some(c) && r.isDonationModalOpen
    ensures r.searchTerm == p.searchTerm && r.selectedCategory == p.selectedCategory
  {
    p.(selectedCampaign := Some(c), isDonationModalOpen := true)
  }

  /** The modal's onClose: only the open flag drops; the selection is kept. */
  function CloseDonationModal(p: Page): (r: Page)
    ensures !r.isDonationModalOpen
    ensures r.selectedCampaign == p.selectedCampaign
    ensures r.searchTerm == p.searchTerm && r.selectedCategory == p.selectedCategory
  {
    p.(isDonationModalOpen := false)
  }

  /** The `campaign` prop the modal receives (`null` until a campaign is chosen). */
  function ModalCampaign(p: Page): (r: Option<DonationModal.CampaignInfo>)
    ensures r.Some? <==> p.selectedCampaign.Some?
    ensures r.Some? ==> r.value.id == p.selectedCampaign.value.id && r.value.title == p.selectedCampaign.value.title
  {
    match p.selectedCampaign
    case None => None
    case Some(c) => Some(DonationModal.CampaignInfo(c.id, c.title, c.target, c.raised))
  }

  /** After Donate Now, the modal books the line item for that campaign, not the general fund. */
  lemma DonateClickBooksCampaign(p: Page, c: Campaign, amount: int, frequency: DonationContext.Frequency, anonymous: bool)
    ensures DonationModal.DonationFor(ModalCampaign(DonateClick(p, c)), amount, frequency, anonymous).campaignId == c.id
    ensures DonationModal.DonationFor(ModalCampaign(DonateClick(p, c)), amount, frequency, anonymous).campaignTitle == c.title
  {
  }
}
