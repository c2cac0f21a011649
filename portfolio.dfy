/** The repository list of the portfolio page: which repositories get a card
    and what each card shows. The GitHub request itself is not modelled; the
    list it returns is an input. */
module Portfolio {
  import opened Wrappers

  /** One repository record as the GitHub API returns it (the fields used). */
  datatype Repo = Repo(
    name: string,
    language: Option<string>,
    description: Option<string>,
    stars: int,
    forks: int,
    updatedAt: string,
    htmlUrl: string)

  /** The choices one project card makes; its HTML markup is not modelled. */
  datatype Card = Card(
    title: string,
    color: string,
    badge: Option<string>,
    description: string,
    stars: Option<int>,
    forks: Option<int>,
    updatedAt: string,
    link: string)

  /** The text of the repository counter: the page's own placeholder until a
      count is written into it. */
  datatype CountText = Placeholder(text: string) | Count(n: nat)

  /** Repositories shown in their own section and kept out of the grid. */
  const FeaturedRepos: seq<string> := ["GeoMaster", "Football_Predictor"]

  const DefaultColor: string := "#8b5cf6"

  const DefaultDescription: string := "Projet de développement personnel"

  const LanguageColors: map<string, string> := map[
    "JavaScript" := "#f1e05a",
    "Python" := "#3572A5",
    "HTML" := "#e34c26",
    "CSS" := "#563d7c",
    "TypeScript" := "#2b7489"]

  /** The repositories of the grid: those not featured, in their order. */
  function OtherRepos(repos: seq<Repo>, featured: seq<string>): (r: seq<Repo>)
    ensures |r| <= |repos|
    ensures forall x :: x in r <==> x in repos && x.name !in featured
  {
    if repos == [] then []
    else (if repos[0].name in featured then [] else [repos[0]]) + OtherRepos(repos[1..], featured)
  }

  /** The filter keeps the relative order of what it keeps: filtering a
      concatenation is concatenating the filtered parts. */
  lemma {:induction false} OtherReposAppend(a: seq<Repo>, b: seq<Repo>, featured: seq<string>)
    ensures OtherRepos(a + b, featured) == OtherRepos(a, featured) + OtherRepos(b, featured)
  {
    if a != [] {
      assert (a + b)[0] == a[0] && (a + b)[1..] == a[1..] + b;
      OtherReposAppend(a[1..], b, featured);
    } else {
      assert a + b == b;
    }
  }

  /** A repository list with nothing featured in it is shown whole. */
  lemma {:induction false} OtherReposKeepsAll(repos: seq<Repo>, featured: seq<string>)
    requires forall k :: 0 <= k < |repos| ==> repos[k].name !in featured
    ensures OtherRepos(repos, featured) == repos
  {
    if repos != [] {
      OtherReposKeepsAll(repos[1..], featured);
    }
  }

  /** Filtering twice is filtering once. */
  lemma {:induction false} OtherReposIdempotent(repos: seq<Repo>, featured: seq<string>)
    ensures OtherRepos(OtherRepos(repos, featured), featured) == OtherRepos(repos, featured)
  {
    var r := OtherRepos(repos, featured);
    forall k | 0 <= k < |r| ensures r[k].name !in featured {
      assert r[k] in r;
    }
    OtherReposKeepsAll(r, featured);
  }

  /** The card title: the name with every underscore shown as a space. */
  function Title(name: string): (t: string)
    ensures |t| == |name|
    ensures forall k :: 0 <= k < |name| ==> t[k] == if name[k] == '_' then ' ' else name[k]
  {
    if name == [] then [] else [if name[0] == '_' then ' ' else name[0]] + Title(name[1..])
  }

  /** No underscore survives in a title, a name without one is its own title,
      and a title is its own title. */
  lemma TitleProperties(name: string)
    ensures '_' !in Title(name)
    ensures '_' !in name ==> Title(name) == name
    ensures Title(Title(name)) == Title(name)
  {
  }

  /** The icon colour: the table's colour for a known language, otherwise
      the default. The default is used exactly when the language is missing
      or not in the table, since no language of the table has that colour. */
  function LanguageColor(language: Option<string>): (color: string)
    ensures color == DefaultColor <==> language.None? || language.value !in LanguageColors
    ensures color in LanguageColors.Values + {DefaultColor}
  {
    if language.Some? && language.value in LanguageColors then
      assert DefaultColor !in LanguageColors.Values;
      LanguageColors[language.value]
    else DefaultColor
  }

  /** The description shown: the repository's own, unless it is missing or
      empty, in which case the fixed fallback. Never empty. */
  function DescriptionText(description: Option<string>): (d: string)
    ensures d != []
    ensures description.Some? && description.value != [] ==> d == description.value
    ensures description.None? || description.value == [] ==> d == DefaultDescription
  {
    if description.Some? && description.value != [] then description.value else DefaultDescription
  }

  /** The language badge appears only for a present, non-empty language. */
  function Badge(language: Option<string>): (b: Option<string>)
    ensures b.Some? <==> language.Some? && language.value != []
    ensures b.Some? ==> b == language
  {
    if language.Some? && language.value != [] then language else None
  }

  /** A star or fork count is shown only when it is positive. */
  function Stat(count: int): (s: Option<int>)
    ensures s.Some? <==> count > 0
    ensures s.Some? ==> s.value == count
  {
    if count > 0 then Some(count) else None
  }

  function CreateProjectCard(repo: Repo): (c: Card)
    ensures |c.title| == |repo.name| && '_' !in c.title
    ensures c.description != []
    ensures c.stars.Some? <==> repo.stars > 0
    ensures c.forks.Some? <==> repo.forks > 0
    ensures c.link == repo.htmlUrl
  {
    TitleProperties(repo.name);
    Card(Title(repo.name), LanguageColor(repo.language), Badge(repo.language),
         DescriptionText(repo.description), Stat(repo.stars), Stat(repo.forks),
         repo.updatedAt, repo.htmlUrl)
  }

  /** What the project grid holds after rendering: nothing is written when
      the grid element is missing; otherwise one card per non-featured
      repository, in order. */
  function DisplayAllProjects(containerPresent: bool, repos: seq<Repo>): (grid: Option<seq<Card>>)
    ensures grid.Some? <==> containerPresent
    ensures grid.Some? ==> |grid.value| == |OtherRepos(repos, FeaturedRepos)|
    ensures grid.Some? ==> forall k :: 0 <= k < |grid.value| ==>
      grid.value[k] == CreateProjectCard(OtherRepos(repos, FeaturedRepos)[k])
  {
    if !containerPresent then None
    else
      var others := OtherRepos(repos, FeaturedRepos);
      Some(seq(|others|, k requires 0 <= k < |others| => CreateProjectCard(others[k])))
  }

  /** No featured repository gets a card in the grid, and every other one
      does. */
  lemma DisplayExcludesFeatured(repos: seq<Repo>)
    ensures var others := OtherRepos(repos, FeaturedRepos);
            (forall k :: 0 <= k < |others| ==> others[k].name !in FeaturedRepos) &&
            (forall x :: x in repos && x.name !in FeaturedRepos ==> x in others)
  {
    var others := OtherRepos(repos, FeaturedRepos);
    forall k | 0 <= k < |others| ensures others[k].name !in FeaturedRepos {
      assert others[k] in others;
    }
  }

  /** The counter after `updateRepoCount`: written with the number of
      repositories only when the element exists and the list is not empty. */
  function UpdateRepoCount(element: Option<CountText>, repos: seq<Repo>): (shown: Option<CountText>)
    ensures shown.Some? <==> element.Some?
    ensures element.Some? && |repos| > 0 ==> shown == Some(Count(|repos|))
    ensures |repos| == 0 ==> shown == element
  {
    if element.Some? && |repos| > 0 then Some(Count(|repos|)) else element
  }

  /** The counter never comes to read 0 unless it already did. */
  lemma RepoCountNeverWritesZero(element: Option<CountText>, repos: seq<Repo>)
    ensures UpdateRepoCount(element, repos) == Some(Count(0)) ==> element == Some(Count(0))
  {
  }
}
