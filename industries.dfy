/** The industry catalogue of src/constants/industries.ts: a constant table of
    twelve industries, a lookup by id and a lookup by category. */
module Industries {
  import opened Wrappers
  import opened Lists

  datatype Industry = Industry(
    id: string,
    name: string,
    description: string,
    commonChallenges: seq<string>,
    keyMetrics: seq<string>,
    marketingChannels: seq<string>)

  const PROFESSIONAL_SERVICES := Industry(
    "professional-services", "Professional Services",
    "Consulting, legal, accounting, and other professional services",
    ["Trust building", "Thought leadership", "Referral generation", "Service differentiation"],
    ["Client lifetime value", "Referral rate", "Case completion rate", "Hourly utilization"],
    ["LinkedIn", "Content marketing", "Referrals", "Industry events", "SEO"])

  const HEALTHCARE := Industry(
    "healthcare", "Healthcare & Medical",
    "Medical practices, healthcare services, and wellness businesses",
    ["Compliance regulations", "Patient trust", "Insurance complexities", "Online reputation"],
    ["Patient retention", "Appointment fill rate", "Patient satisfaction", "Treatment outcomes"],
    ["Google Ads", "Local SEO", "Patient reviews", "Referral networks", "Health content"])

  const ECOMMERCE := Industry(
    "ecommerce", "E-commerce & Retail",
    "Online stores, retail businesses, and product-based companies",
    ["Cart abandonment", "Customer acquisition cost", "Inventory management", "Competition"],
    ["Conversion rate", "Average order value", "Customer lifetime value", "Return on ad spend"],
    ["Facebook Ads", "Google Shopping", "Email marketing", "Social media", "Influencer marketing"])

  const RESTAURANTS := Industry(
    "restaurants", "Restaurants & Food Service",
    "Restaurants, cafes, catering, and food service businesses",
    ["Seasonal fluctuations", "Local competition", "Online reviews", "Staff turnover"],
    ["Average ticket size", "Table turnover", "Customer frequency", "Online review rating"],
    ["Google My Business", "Social media", "Local SEO", "Food delivery apps", "Events"])

  const B2B_SOFTWARE := Industry(
    "b2b-software", "B2B Software & SaaS",
    "Software companies, SaaS platforms, and tech services",
    ["Long sales cycles", "Product complexity", "Churn reduction", "Market education"],
    ["Monthly recurring revenue", "Churn rate", "Customer acquisition cost", "Product adoption"],
    ["Content marketing", "LinkedIn", "Webinars", "SEO", "Account-based marketing"])

  const REAL_ESTATE := Industry(
    "real-estate", "Real Estate",
    "Real estate agents, brokers, and property management companies",
    ["Market cycles", "Lead quality", "Trust building", "Transaction timelines"],
    ["Listings conversion", "Average commission", "Client satisfaction", "Referral rate"],
    ["Local SEO", "Social media", "Real estate portals", "Referrals", "Direct mail"])

  const FITNESS := Industry(
    "fitness", "Fitness & Wellness",
    "Gyms, personal trainers, wellness coaches, and fitness services",
    ["Member retention", "Seasonal demand", "Competition", "Motivation maintenance"],
    ["Member lifetime value", "Attendance rate", "Class utilization", "Member satisfaction"],
    ["Instagram", "Facebook", "Google Ads", "Local partnerships", "Community events"])

  const HOME_SERVICES := Industry(
    "home-services", "Home Services",
    "Contractors, cleaners, landscapers, and home improvement services",
    ["Seasonality", "Trust verification", "Scheduling efficiency", "Repeat business"],
    ["Job completion rate", "Customer satisfaction", "Repeat customer rate", "Average job value"],
    ["Google Ads", "Local SEO", "Home service apps", "Referrals", "Neighborhood apps"])

  const MANUFACTURING := Industry(
    "manufacturing", "Manufacturing",
    "Manufacturers, suppliers, and industrial businesses",
    ["Supply chain complexity", "B2B relationships", "Quality assurance", "Regulatory compliance"],
    ["Order fulfillment rate", "Quality metrics", "Customer retention", "Production efficiency"],
    ["Trade shows", "LinkedIn", "Industry publications", "Direct sales", "B2B directories"])

  const EDUCATION := Industry(
    "education", "Education & Training",
    "Schools, training programs, online courses, and educational services",
    ["Student engagement", "Course completion", "Credibility building", "Outcome measurement"],
    ["Enrollment rate", "Completion rate", "Student satisfaction", "Job placement rate"],
    ["Content marketing", "Social media", "Educational platforms", "Webinars", "Partnerships"])

  const FINANCIAL_SERVICES := Industry(
    "financial-services", "Financial Services",
    "Banks, insurance, financial planning, and investment services",
    ["Regulatory compliance", "Trust building", "Complex products", "Risk communication"],
    ["Assets under management", "Client retention", "Policy renewals", "Cross-sell rate"],
    ["Content marketing", "Referrals", "LinkedIn", "Educational seminars", "Email marketing"])

  const NONPROFIT := Industry(
    "nonprofit", "Nonprofit & Charity",
    "Charitable organizations, foundations, and social impact organizations",
    ["Donor retention", "Impact measurement", "Volunteer engagement", "Funding sustainability"],
    ["Donation conversion", "Donor lifetime value", "Volunteer hours", "Program effectiveness"],
    ["Social media", "Email marketing", "Grant applications", "Community events", "Peer-to-peer"])

  /** `INDUSTRIES`, in the order of the source table. */
  const INDUSTRIES: seq<Industry> := [
    PROFESSIONAL_SERVICES, HEALTHCARE, ECOMMERCE, RESTAURANTS, B2B_SOFTWARE, REAL_ESTATE,
    FITNESS, HOME_SERVICES, MANUFACTURING, EDUCATION, FINANCIAL_SERVICES, NONPROFIT]

  /** The ids of a list of industries, position by position. */
  function Ids(s: seq<Industry>): (r: seq<string>)
    ensures |r| == |s| && forall i | 0 <= i < |s| :: r[i] == s[i].id
  {
    seq(|s|, i requires 0 <= i < |s| => s[i].id)
  }

  /** The category record of `getIndustriesByCategory`, keyed by category name. */
  const CATEGORIES: map<string, seq<string>> := map[
    "service" := ["professional-services", "healthcare", "home-services", "fitness", "education", "financial-services"],
    "product" := ["ecommerce", "manufacturing", "restaurants"],
    "technology" := ["b2b-software", "ecommerce"],
    "local" := ["restaurants", "real-estate", "fitness", "home-services", "healthcare"],
    "b2b" := ["professional-services", "b2b-software", "manufacturing", "financial-services"],
    "b2c" := ["ecommerce", "restaurants", "fitness", "home-services", "healthcare", "real-estate"]]

  /** `getIndustryById`: the first industry of the table with the given id. */
  function GetIndustryById(id: string): (r: Option<Industry>)
    ensures r.Some? ==> r.value in INDUSTRIES && r.value.id == id
    ensures r.None? <==> id !in Ids(INDUSTRIES)
  {
    FindFirst(INDUSTRIES, (x: Industry) => x.id == id)
  }

  /** `categories[category] || []`, for a category that is one of the record's own keys
      or not a property of the record at all: ids without repetition, each naming an
      industry of the table, and none for a name that is no category. */
  function CategoryIds(category: string): (r: seq<string>)
    ensures category !in CATEGORIES ==> r == []
    ensures Distinct(r) && forall k | k in r :: k in Ids(INDUSTRIES)
  {
    CategoriesWellFormed();
    IdsValue();
    if category in CATEGORIES then CATEGORIES[category] else []
  }

  /** The property names every object literal inherits from `Object.prototype`. */
  const OBJECT_PROTOTYPE_PROPERTIES: set<string> := {
    "__proto__", "constructor", "hasOwnProperty", "isPrototypeOf", "propertyIsEnumerable",
    "toLocaleString", "toString", "valueOf",
    "__defineGetter__", "__defineSetter__", "__lookupGetter__", "__lookupSetter__"}

  /** `getIndustriesByCategory` as the TypeScript evaluates it. `categories[category]` also
      finds a property the record inherits from `Object.prototype`; such a value is truthy,
      so `|| []` keeps it, and it has no `includes`, so the call throws a TypeError. */
  function GetIndustriesByCategoryAsWritten(category: string): (r: Result<seq<Industry>, string>)
    ensures r.Failure? <==> category !in CATEGORIES && category in OBJECT_PROTOTYPE_PROPERTIES
    ensures r.Success? ==> r.value == GetIndustriesByCategory(category)
  {
    if category !in CATEGORIES && category in OBJECT_PROTOTYPE_PROPERTIES then
      Failure("TypeError: industryIds.includes is not a function")
    else
      Success(GetIndustriesByCategory(category))
  }

  /** `getIndustriesByCategory`, as its `|| []` default intends: the industries of the table whose id the category lists. */
  function GetIndustriesByCategory(category: string): (r: seq<Industry>)
    ensures forall x | x in r :: x in INDUSTRIES && x.id in CategoryIds(category)
    ensures forall x | x in INDUSTRIES && x.id in CategoryIds(category) :: x in r
    ensures IsSubsequence(r, INDUSTRIES)
  {
    var ids := CategoryIds(category);
    Filter(INDUSTRIES, (x: Industry) => x.id in ids)
  }

  /** The ids of the table, in table order. */
  const ID_LIST: seq<string> := [
    "professional-services", "healthcare", "ecommerce", "restaurants", "b2b-software", "real-estate",
    "fitness", "home-services", "manufacturing", "education", "financial-services", "nonprofit"]

  lemma IdsValue()
    ensures Ids(INDUSTRIES) == ID_LIST
  {
  }

  /** Length and third character tell the twelve ids apart. */
  function IdCode(s: string): int {
    if |s| < 3 then 0 else |s| * 256 + s[2] as int
  }

  lemma IdListDistinct()
    ensures Distinct(ID_LIST)
  {
    var c := seq(|ID_LIST|, i requires 0 <= i < |ID_LIST| => IdCode(ID_LIST[i]));
    assert c == [21 * 256 + 'o' as int, 10 * 256 + 'a' as int, 9 * 256 + 'o' as int, 11 * 256 + 's' as int,
                 12 * 256 + 'b' as int, 11 * 256 + 'a' as int, 7 * 256 + 't' as int, 13 * 256 + 'm' as int,
                 13 * 256 + 'n' as int, 9 * 256 + 'u' as int, 18 * 256 + 'n' as int, 9 * 256 + 'n' as int];
    forall i, j | 0 <= i < j < |ID_LIST| ensures ID_LIST[i] != ID_LIST[j] {
      assert c[i] != c[j];
    }
  }

  /** The twelve ids of the table are pairwise different. */
  lemma IdsDistinct()
    ensures |INDUSTRIES| == 12
    ensures Distinct(Ids(INDUSTRIES))
  {
    IdsValue();
    IdListDistinct();
  }

  /** Since ids are unique, an industry is found by its id exactly when it is in the table. */
  lemma {:induction false} GetIndustryByIdExact(id: string, x: Industry)
    ensures GetIndustryById(id) == Some(x) <==> x in INDUSTRIES && x.id == id
  {
    if x in INDUSTRIES && x.id == id {
      IdsDistinct();
      var r := GetIndustryById(id);
      assert r.Some?;
      var i :| 0 <= i < |INDUSTRIES| && INDUSTRIES[i] == x;
      var j :| 0 <= j < |INDUSTRIES| && INDUSTRIES[j] == r.value;
      assert Ids(INDUSTRIES)[i] == Ids(INDUSTRIES)[j];
    }
  }

  /** A category that is not a key of the record yields no industries. */
  lemma UnknownCategoryIsEmpty(category: string)
    requires category !in CATEGORIES
    ensures GetIndustriesByCategory(category) == []
  {
    FilterNone(INDUSTRIES, (x: Industry) => x.id in CategoryIds(category));
  }

  /** Every id a category lists names an industry of the table, and no category
      lists an id twice. */
  lemma CategoriesWellFormed()
    ensures forall c | c in CATEGORIES :: Distinct(CATEGORIES[c])
    ensures forall c, k | c in CATEGORIES && k in CATEGORIES[c] :: k in ID_LIST
  {
    forall c | c in CATEGORIES ensures Distinct(CATEGORIES[c]) {
      var l := CATEGORIES[c];
      forall i, j | 0 <= i < j < |l| ensures l[i] != l[j] {
        assert |l[i]| != |l[j]| || l[i][0] != l[j][0] || l[i][1] != l[j][1] || l[i][2] != l[j][2];
      }
    }
  }

  /** Filtering a table with unique ids by a set of ids it all contains yields one
      industry per id. */
  lemma {:induction false} FilterByIdSetLength(s: seq<Industry>, ids: set<string>)
    requires Distinct(Ids(s))
    requires forall k | k in ids :: k in Ids(s)
    ensures |Filter(s, (x: Industry) => x.id in ids)| == |ids|
  {
    if s != [] {
      var tail := s[1..];
      assert Ids(s) == [s[0].id] + Ids(tail);
      assert Distinct(Ids(tail));
      NotInTail(Ids(s));
      if s[0].id in ids {
        var rest := ids - {s[0].id};
        forall k | k in rest ensures k in Ids(tail) {
          assert k in Ids(s);
        }
        FilterByIdSetLength(tail, rest);
        forall i | 0 <= i < |tail| ensures (tail[i].id in ids) == (tail[i].id in rest) {
          assert tail[i].id == Ids(tail)[i];
        }
        FilterCongruence(tail, (x: Industry) => x.id in ids, (x: Industry) => x.id in rest);
      } else {
        forall k | k in ids ensures k in Ids(tail) {
          assert k in Ids(s);
        }
        FilterByIdSetLength(tail, ids);
      }
    }
  }

  /** Every listed id names an existing industry, so a category yields exactly as many
      industries as its list names. */
  lemma CategoryResultLength(category: string)
    ensures |GetIndustriesByCategory(category)| == |CategoryIds(category)|
  {
    if category in CATEGORIES {
      var ids := CATEGORIES[category];
      CategoriesWellFormed();
      IdsDistinct();
      IdsValue();
      DistinctCardinality(ids);
      var idSet := set k | k in ids;
      FilterByIdSetLength(INDUSTRIES, idSet);
      FilterCongruence(INDUSTRIES, (x: Industry) => x.id in ids, (x: Industry) => x.id in idSet);
    } else {
      UnknownCategoryIsEmpty(category);
    }
  }

  /** The result follows the table's order, not the category list's: "service" lists
      home-services before fitness, yet yields fitness before home-services. */
  lemma ServiceFollowsTableOrder() returns (a: int, b: int)
    ensures 0 <= a < b < |GetIndustriesByCategory("service")|
    ensures GetIndustriesByCategory("service")[a] == FITNESS && GetIndustriesByCategory("service")[b] == HOME_SERVICES
  {
    ServiceContainsFitnessAndHomeServices();
    TableDistinct();
    a, b := SubsequencePrecedes(GetIndustriesByCategory("service"), INDUSTRIES, 6, 7);
  }

  /** The "service" list names home-services before fitness. */
  lemma ServiceListOrder()
    ensures "service" in CATEGORIES
    ensures CATEGORIES["service"][2] == "home-services" && CATEGORIES["service"][3] == "fitness"
  {
  }

  lemma ServiceContainsFitnessAndHomeServices()
    ensures INDUSTRIES[6] == FITNESS && INDUSTRIES[7] == HOME_SERVICES
    ensures FITNESS in GetIndustriesByCategory("service") && HOME_SERVICES in GetIndustriesByCategory("service")
  {
    assert "fitness" in CategoryIds("service") && "home-services" in CategoryIds("service");
  }

  /** No industry occurs twice in the table. */
  lemma TableDistinct()
    ensures Distinct(INDUSTRIES)
  {
    IdsDistinct();
    forall i, j | 0 <= i < j < |INDUSTRIES| ensures INDUSTRIES[i] != INDUSTRIES[j] {
      assert Ids(INDUSTRIES)[i] != Ids(INDUSTRIES)[j];
    }
  }

  /** "nonprofit" belongs to no category, so no category ever yields it. */
  lemma NonprofitInNoCategory(category: string)
    ensures NONPROFIT in INDUSTRIES
    ensures NONPROFIT !in GetIndustriesByCategory(category)
  {
    assert forall c | c in CATEGORIES :: "nonprofit" !in CATEGORIES[c];
  }

  /** "constructor" is no category: the intended lookup yields no industries, but the
      code as written throws. */
  lemma InheritedCategoryThrows()
    ensures "constructor" !in CATEGORIES
    ensures GetIndustriesByCategory("constructor") == []
    ensures GetIndustriesByCategoryAsWritten("constructor").Failure?
  {
    UnknownCategoryIsEmpty("constructor");
  }
}
