/**
 * The directory page of `components/Directories.tsx`: the founder/funder split,
 * the drop-down option lists, and the filtered lists with the name search.
 */
module Directories {
  import opened Wrappers
  import opened Types
  import Text
  import Seqs

  predicate IsFounder(u: UserProfile) { u.role == Founder }
  predicate IsFunder(u: UserProfile) { u.role == Funder }

  /** `users.filter(u => u.role === 'Founder')`. */
  function Founders(users: seq<UserProfile>): (r: seq<UserProfile>)
    ensures forall u :: u in r <==> u in users && u.role == Founder
  {
    Seqs.Filter(users, IsFounder)
  }

  /** `users.filter(u => u.role === 'Funder')`. */
  function Funders(users: seq<UserProfile>): (r: seq<UserProfile>)
    ensures forall u :: u in r <==> u in users && u.role == Funder
  {
    Seqs.Filter(users, IsFunder)
  }

  /** The two lists split the users by role, each in the original order, nothing lost or repeated. */
  lemma RolePartition(users: seq<UserProfile>)
    ensures multiset(Founders(users)) + multiset(Funders(users)) == multiset(users)
    ensures Seqs.IsSubsequence(Founders(users), users) && Seqs.IsSubsequence(Funders(users), users)
    ensures forall u :: u in Founders(users) <==> u in users && u.role == Founder
    ensures forall u :: u in Funders(users) <==> u in users && u.role == Funder
  {
    Seqs.FilterPartition(users, IsFounder, IsFunder);
    Seqs.FilterIsSubsequence(users, IsFounder);
    Seqs.FilterIsSubsequence(users, IsFunder);
  }

  // ---------------------------------------------------------------- option lists

  /** `list.map(u => u[field])`. */
  function Project(users: seq<UserProfile>, d: Detail): (r: seq<Option<string>>)
    ensures |r| == |users| && forall i :: 0 <= i < |users| ==> r[i] == users[i].Get(d)
  {
    if users == [] then [] else [users[0].Get(d)] + Project(users[1..], d)
  }

  /** `.filter(Boolean)` on optional strings: drops `undefined` and the empty string. */
  function Truthy(values: seq<Option<string>>): (r: seq<string>)
    ensures forall x :: x in r <==> x != "" && Some(x) in values
  {
    if values == [] then []
    else
      var rest := Truthy(values[1..]);
      assert forall v :: v in values <==> v == values[0] || v in values[1..];
      if values[0].Some? && values[0].value != "" then [values[0].value] + rest else rest
  }

  /** `[...new Set(values.filter(Boolean))]`: every non-empty value once, in first-occurrence order. */
  function OptionList(values: seq<Option<string>>): (r: seq<string>)
    ensures Seqs.Distinct(r)
    ensures forall x :: x in r <==> x != "" && Some(x) in values
  {
    Seqs.Dedup(Truthy(values))
  }

  /** The values of an option list appear in the order in which they first occur. */
  lemma OptionListOrder(values: seq<Option<string>>, i: int, j: int)
    requires 0 <= i < j < |OptionList(values)|
    ensures OptionList(values)[i] in Truthy(values) && OptionList(values)[j] in Truthy(values)
    ensures Seqs.FirstIndex(Truthy(values), OptionList(values)[i]) < Seqs.FirstIndex(Truthy(values), OptionList(values)[j])
  {
    Seqs.DedupFirstOccurrenceOrder(Truthy(values), i, j);
  }

  /** A value is offered by the projection exactly when one of the users holds it. */
  lemma ProjectMembers(users: seq<UserProfile>, d: Detail)
    ensures forall x :: Some(x) in Project(users, d) <==> exists u :: u in users && u.Get(d) == Some(x)
  {
    var vs := Project(users, d);
    forall x ensures Some(x) in vs <==> exists u :: u in users && u.Get(d) == Some(x) {
      if Some(x) in vs {
        var i :| 0 <= i < |vs| && vs[i] == Some(x);
        assert users[i] in users;
      }
      if exists u :: u in users && u.Get(d) == Some(x) {
        var u :| u in users && u.Get(d) == Some(x);
        var i :| 0 <= i < |users| && users[i] == u;
        assert vs[i] == Some(x);
      }
    }
  }

  /** The industry choices: the non-empty industries of founders, each once. */
  function Industries(users: seq<UserProfile>): (r: seq<string>)
    ensures Seqs.Distinct(r)
    ensures forall x :: x in r <==> x != "" && exists u :: u in users && u.role == Founder && u.industry == Some(x)
  {
    ProjectMembers(Founders(users), Industry);
    OptionList(Project(Founders(users), Industry))
  }

  /** The funding-stage choices: the non-empty funding stages of founders, each once. */
  function FundingStages(users: seq<UserProfile>): (r: seq<string>)
    ensures Seqs.Distinct(r)
    ensures forall x :: x in r <==> x != "" && exists u :: u in users && u.role == Founder && u.fundingStage == Some(x)
  {
    ProjectMembers(Founders(users), FundingStage);
    OptionList(Project(Founders(users), FundingStage))
  }

  /** The preferred-stage choices: the non-empty preferred stages of funders, each once. */
  function PreferredStages(users: seq<UserProfile>): (r: seq<string>)
    ensures Seqs.Distinct(r)
    ensures forall x :: x in r <==> x != "" && exists u :: u in users && u.role == Funder && u.preferredStage == Some(x)
  {
    ProjectMembers(Funders(users), PreferredStage);
    OptionList(Project(Funders(users), PreferredStage))
  }

  // ---------------------------------------------------------------- filters and search

  /** The directory page's filter and search inputs; `""` means "all". */
  datatype Filters = Filters(searchTerm: string, industry: string, fundingStage: string, preferredStage: string)

  /** An empty choice imposes nothing; a non-empty one requires the field to equal it. */
  predicate MatchesChoice(value: Option<string>, choice: string)
  {
    choice == "" || value == Some(choice)
  }

  /** `fullName.toLowerCase().includes(term.toLowerCase())`. */
  predicate NameMatches(fullName: string, term: string)
  {
    Text.Contains(Text.ToLower(fullName), Text.ToLower(term))
  }

  /** An empty search term matches every name. */
  lemma EmptySearchMatchesAll(fullName: string)
    ensures NameMatches(fullName, "")
  {
    Text.ContainsEmpty(Text.ToLower(fullName));
  }

  /** The search ignores the case of both the name and the term. */
  lemma SearchIgnoresCase(fullName: string, term: string)
    ensures NameMatches(Text.ToUpper(fullName), term) == NameMatches(fullName, term)
    ensures NameMatches(fullName, Text.ToUpper(term)) == NameMatches(fullName, term)
  {
    Text.ToLowerOfUpper(fullName);
    Text.ToLowerOfUpper(term);
  }

  predicate FounderShown(f: Filters, u: UserProfile)
  {
    MatchesChoice(u.industry, f.industry) && MatchesChoice(u.fundingStage, f.fundingStage)
    && NameMatches(u.fullName, f.searchTerm)
  }

  predicate FunderShown(f: Filters, u: UserProfile)
  {
    MatchesChoice(u.preferredStage, f.preferredStage) && NameMatches(u.fullName, f.searchTerm)
  }

  function FounderShownFn(f: Filters): UserProfile -> bool { (u: UserProfile) => FounderShown(f, u) }
  function FunderShownFn(f: Filters): UserProfile -> bool { (u: UserProfile) => FunderShown(f, u) }

  /** `filteredFounders`: the founders meeting every active filter and the search, in order. */
  function FilteredFounders(users: seq<UserProfile>, f: Filters): (r: seq<UserProfile>)
    ensures forall u :: u in r <==> u in users && u.role == Founder && FounderShown(f, u)
  {
    Seqs.Filter(Founders(users), FounderShownFn(f))
  }

  /** `filteredFunders`: the funders meeting the preferred-stage filter and the search, in order. */
  function FilteredFunders(users: seq<UserProfile>, f: Filters): (r: seq<UserProfile>)
    ensures forall u :: u in r <==> u in users && u.role == Funder && FunderShown(f, u)
  {
    Seqs.Filter(Funders(users), FunderShownFn(f))
  }

  /** Both filtered lists keep the order of their role list. */
  lemma FilteredListsKeepOrder(users: seq<UserProfile>, f: Filters)
    ensures Seqs.IsSubsequence(FilteredFounders(users, f), Founders(users))
    ensures Seqs.IsSubsequence(FilteredFunders(users, f), Funders(users))
  {
    Seqs.FilterIsSubsequence(Founders(users), FounderShownFn(f));
    Seqs.FilterIsSubsequence(Funders(users), FunderShownFn(f));
  }

  /** With no filter and no search term, every founder and every funder is shown. */
  lemma NoFiltersShowEveryone(users: seq<UserProfile>)
    ensures FilteredFounders(users, Filters("", "", "", "")) == Founders(users)
    ensures FilteredFunders(users, Filters("", "", "", "")) == Funders(users)
  {
    forall u: UserProfile ensures NameMatches(u.fullName, "") { EmptySearchMatchesAll(u.fullName); }
    Seqs.FilterAll(Founders(users), FounderShownFn(Filters("", "", "", "")));
    Seqs.FilterAll(Funders(users), FunderShownFn(Filters("", "", "", "")));
  }

  /** Filtering by two tests that agree everywhere gives the same list. */
  lemma {:induction false} FilterSameTest(s: seq<UserProfile>, p: UserProfile -> bool, q: UserProfile -> bool)
    requires forall u :: p(u) == q(u)
    ensures Seqs.Filter(s, p) == Seqs.Filter(s, q)
  {
    if s != [] {
      FilterSameTest(s[1..], p, q);
    }
  }

  /** The funder list does not depend on the industry and funding-stage filters. */
  lemma FundersIgnoreFounderFilters(users: seq<UserProfile>, f: Filters, industry: string, fundingStage: string)
    ensures FilteredFunders(users, f) == FilteredFunders(users, f.(industry := industry, fundingStage := fundingStage))
  {
    FilterSameTest(Funders(users), FunderShownFn(f),
                   FunderShownFn(f.(industry := industry, fundingStage := fundingStage)));
  }
}
