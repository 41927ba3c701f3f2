/** The placement page's opportunity search: a company is listed when the query
    occurs, ignoring case, in its name, its role, its location or one of its skills. */
module Placement {
  import opened Seqs
  import opened Text

  datatype Company = Company(
    id: int, name: string, role: string, location: string,
    salary: string, deadline: string, skills: seq<string>)

  const Companies: seq<Company> := [
    Company(1, "TechCorp", "Software Engineer", "Bangalore, India", "₹12-15 LPA", "2023-05-30",
            ["Java", "Spring Boot", "React", "AWS"]),
    Company(2, "DataSystems", "Data Analyst", "Hyderabad, India", "₹8-10 LPA", "2023-06-15",
            ["Python", "SQL", "Tableau", "Excel"]),
    Company(3, "CloudWave", "Frontend Developer", "Remote", "₹10-12 LPA", "2023-06-10",
            ["JavaScript", "React", "CSS", "UI/UX"])
  ]

  /** `field.toLowerCase().includes(query.toLowerCase())`. */
  predicate FieldMatches(field: string, query: string)
  {
    Includes(Lower(field), Lower(query))
  }

  /** `company.skills.some(...)`. */
  predicate SomeSkillMatches(skills: seq<string>, query: string)
  {
    exists i :: 0 <= i < |skills| && FieldMatches(skills[i], query)
  }

  predicate CompanyMatches(c: Company, query: string)
  {
    FieldMatches(c.name, query) || FieldMatches(c.role, query) ||
    FieldMatches(c.location, query) || SomeSkillMatches(c.skills, query)
  }

  function CompanyTest(query: string): Company -> bool
  {
    (c: Company) => CompanyMatches(c, query)
  }

  /** `filteredCompanies`. */
  function FilterCompanies(companies: seq<Company>, query: string): (r: seq<Company>)
    ensures forall i :: 0 <= i < |r| ==> r[i] in companies && CompanyMatches(r[i], query)
    ensures forall i :: 0 <= i < |companies| && CompanyMatches(companies[i], query) ==> companies[i] in r
    ensures forall c :: multiset(r)[c] == if CompanyMatches(c, query) then multiset(companies)[c] else 0
  {
    Filter(CompanyTest(query), companies)
  }

  /** The listed companies appear in the order of the table. */
  lemma FilterKeepsOrder(companies: seq<Company>, query: string)
    ensures IsSubsequence(FilterCompanies(companies, query), companies)
  {
    FilterIsSubsequence(CompanyTest(query), companies);
  }

  /** Case does not matter on either side: a company matches a query exactly when
      it matches the query lower-cased. */
  lemma MatchIgnoresQueryCase(c: Company, query: string)
    ensures CompanyMatches(c, Lower(query)) <==> CompanyMatches(c, query)
  {
    LowerIdempotent(query);
  }

  /** An empty query lists every company. */
  lemma EmptyQueryKeepsAll(companies: seq<Company>)
    ensures FilterCompanies(companies, "") == companies
  {
    forall i | 0 <= i < |companies| ensures CompanyTest("")(companies[i]) {
      IncludesEmpty(Lower(companies[i].name));
    }
    FilterKeepsAll(CompanyTest(""), companies);
  }

  /** A shared skill is enough: every company listing a skill is found by that skill. */
  lemma SkillFindsCompany(companies: seq<Company>, i: nat, k: nat)
    requires i < |companies| && k < |companies[i].skills|
    ensures companies[i] in FilterCompanies(companies, companies[i].skills[k])
  {
    var skill := companies[i].skills[k];
    IncludesSpliced([], Lower(skill), []);
    assert [] + Lower(skill) + [] == Lower(skill);
    assert FieldMatches(skill, skill);
  }

  /** The text under "No opportunities found". */
  function EmptyStateText(query: string): (t: string)
    ensures query != "" ==> Includes(t, "\"" + query + "\"")
    ensures query == "" ==> t == "Check back later for new opportunities"
  {
    if query != "" then
      var t := "We couldn't find any opportunities matching \"" + query + "\"";
      assert t == "We couldn't find any opportunities matching " + ("\"" + query + "\"") + "";
      IncludesSpliced("We couldn't find any opportunities matching ", "\"" + query + "\"", "");
      t
    else
      "Check back later for new opportunities"
  }

  /** With an empty query the empty state shows only when there is no company at all. */
  lemma EmptyStateNeedsQuery(companies: seq<Company>)
    requires |companies| > 0
    ensures |FilterCompanies(companies, "")| > 0
  {
    EmptyQueryKeepsAll(companies);
  }
}
