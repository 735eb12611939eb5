/** The sidebar's table of contents, whose links point at headings of the budget-analysis article. */
module DataDownloads {
  import opened BudgetAnalysis

  /** A `TOC_SECTIONS` entry (`caption` is the `label` field); the `indent` flag only affects layout. */
  datatype TocSection = TocSection(caption: string, href: string)

  const TocSections: seq<TocSection> := [
    TocSection("Overview", "#overview"),
    TocSection("Budget vs. Inflation", "#budget-growth-vs-inflation"),
    TocSection("Three Budget Eras", "#three-budget-eras"),
    TocSection("Primary Cost Drivers", "#primary-cost-drivers"),
    TocSection("What the Data Shows", "#what-the-data-shows"),
    TocSection("Key Takeaways", "#key-takeaways"),
    TocSection("Growth by Department", "#budget-growth-by-department"),
    TocSection("Flat or Declining", "#flat-or-declining-budgets"),
    TocSection("Notable Changes", "#notable-changes"),
    TocSection("Major Events", "#major-events"),
    TocSection("Year-over-Year", "#year-over-year-volatility")
  ]

  /** A link `#fragment` whose fragment is a slug (`IsSlug` of `href[1..]`, stated on `href`'s own
      indices). */
  predicate IsAnchorLink(href: string)
  {
    && |href| > 0 && href[0] == '#'
    && (forall i :: 1 <= i < |href| ==> IsSlugChar(href[i]) || href[i] == '-')
    && (forall i :: 1 <= i < |href| - 1 ==> !(href[i] == '-' && href[i + 1] == '-'))
    && (|href| == 1 || (href[1] != '-' && href[|href| - 1] != '-'))
  }

  /** The fragment of such a link is what `slugify` makes of itself, so a heading whose text
      slugifies to the fragment carries exactly that `id`. */
  lemma AnchorLinkFixed(href: string)
    requires IsAnchorLink(href)
    ensures IsSlug(href[1..])
    ensures Slugify(href[1..]) == href[1..]
  {
    var t := href[1..];
    assert forall i :: 0 <= i < |t| ==> t[i] == href[i + 1];
    SlugifySlug(t);
  }

  lemma TocLinkOverview()
    ensures IsAnchorLink("#overview")
  {
  }

  lemma TocLinkBudgetGrowthVsInflation()
    ensures IsAnchorLink("#budget-growth-vs-inflation")
  {
  }

  lemma TocLinkThreeBudgetEras()
    ensures IsAnchorLink("#three-budget-eras")
  {
  }

  lemma TocLinkPrimaryCostDrivers()
    ensures IsAnchorLink("#primary-cost-drivers")
  {
  }

  lemma TocLinkWhatTheDataShows()
    ensures IsAnchorLink("#what-the-data-shows")
  {
  }

  lemma TocLinkKeyTakeaways()
    ensures IsAnchorLink("#key-takeaways")
  {
  }

  lemma TocLinkBudgetGrowthByDepartment()
    ensures IsAnchorLink("#budget-growth-by-department")
  {
  }

  lemma TocLinkFlatOrDecliningBudgets()
    ensures IsAnchorLink("#flat-or-declining-budgets")
  {
  }

  lemma TocLinkNotableChanges()
    ensures IsAnchorLink("#notable-changes")
  {
  }

  lemma TocLinkMajorEvents()
    ensures IsAnchorLink("#major-events")
  {
  }

  lemma TocLinkYearOverYearVolatility()
    ensures IsAnchorLink("#year-over-year-volatility")
  {
  }

  /** Every table-of-contents link is `#` followed by a fixed point of `slugify`. */
  lemma TocAnchorsAreSlugs()
    ensures forall i :: 0 <= i < |TocSections| ==> IsAnchorLink(TocSections[i].href)
    ensures forall i :: 0 <= i < |TocSections| ==> Slugify(TocSections[i].href[1..]) == TocSections[i].href[1..]
  {
    TocLinkOverview();
    TocLinkBudgetGrowthVsInflation();
    TocLinkThreeBudgetEras();
    TocLinkPrimaryCostDrivers();
    TocLinkWhatTheDataShows();
    TocLinkKeyTakeaways();
    TocLinkBudgetGrowthByDepartment();
    TocLinkFlatOrDecliningBudgets();
    TocLinkNotableChanges();
    TocLinkMajorEvents();
    TocLinkYearOverYearVolatility();
    forall i | 0 <= i < |TocSections|
      ensures IsAnchorLink(TocSections[i].href)
    {
      assert i == 0 || i == 1 || i == 2 || i == 3 || i == 4 || i == 5 || i == 6 || i == 7 || i == 8 || i == 9 || i == 10;
    }
    forall i | 0 <= i < |TocSections|
      ensures Slugify(TocSections[i].href[1..]) == TocSections[i].href[1..]
    {
      AnchorLinkFixed(TocSections[i].href);
    }
  }
}
