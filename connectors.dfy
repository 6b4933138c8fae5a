/** An HTTP response as the connectors see it: either ok with its decoded body or
    not ok with a status code. */
module Http {
  datatype Response<T> = Ok(body: T) | NotOk(status: int)
}

/** src/api/github.ts: repository counts per skill and for the job title. */
module GitHub {
  import opened JsText
  import opened JsMath
  import opened Http
  import opened Career
  import LogScale

  /** The search result: total_count and the stargazer counts of the returned items
      (None for an item without the field). */
  datatype SearchResult = SearchResult(totalCount: int, stars: seq<Option<int>>)

  datatype SkillData = SkillData(name: string, repoCount: int, topStars: int, marketAvg: int)

  datatype AnalysisData = AnalysisData(skills: seq<SkillData>, techTrend: int, marketPosition: int)

  /** searchGitHub either yields the body or throws on a non-ok response. */
  datatype Outcome<T> = Done(value: T) | Thrown(status: int)

  /** normalize with divisor 6 (10^6 repositories score 100). */
  function Normalize(count: int): (r: nat)
    ensures r <= 100
    ensures count <= 0 ==> r == 0
  {
    LogScale.Normalize(count, 6)
  }

  lemma NormalizeCountOne()
    ensures Normalize(1) == 0
  {
    LogScale.NormalizeOne(6);
  }

  lemma NormalizeMillion(count: int)
    requires count >= 1000000
    ensures Normalize(count) == 100
  {
    assert LogScale.Pow(10, 6) == 1000000;
    LogScale.NormalizeSaturates(count, 6);
  }

  /** items[0]?.stargazers_count ?? 0. */
  function TopStars(stars: seq<Option<int>>): (r: int)
    ensures stars == [] ==> r == 0
    ensures stars != [] && stars[0].Some? ==> r == stars[0].value
    ensures stars != [] && stars[0].None? ==> r == 0
  {
    if stars != [] && stars[0].Some? then stars[0].value else 0
  }

  function ToSkillData(name: string, result: SearchResult): SkillData
  {
    SkillData(name, result.totalCount, TopStars(result.stars), Normalize(result.totalCount))
  }

  /** Math.round(sum of marketAvg / count), or 50 without skills. */
  function TechTrend(skills: seq<SkillData>): (r: int)
    ensures skills == [] ==> r == 50
  {
    if skills == [] then 50
    else RoundMean(seq(|skills|, i requires 0 <= i < |skills| => skills[i].marketAvg))
  }

  /** The tech trend is on the same 0-100 scale as the per-skill scores. */
  lemma TechTrendBounded(skills: seq<SkillData>)
    requires forall i :: 0 <= i < |skills| ==> 0 <= skills[i].marketAvg <= 100
    ensures 0 <= TechTrend(skills) <= 100
  {
    if skills != [] {
      RoundMeanWithin(seq(|skills|, i requires 0 <= i < |skills| => skills[i].marketAvg), 0, 100);
    }
  }

  /** Every search for the given names is ok. */
  predicate AllOk(names: seq<string>, search: string -> Response<SearchResult>)
  {
    forall i :: 0 <= i < |names| ==> search(names[i]).Ok?
  }

  /** The first name whose search is not ok. */
  function FirstFailure(names: seq<string>, search: string -> Response<SearchResult>): (k: nat)
    requires !AllOk(names, search)
    ensures k < |names| && search(names[k]).NotOk?
    ensures forall i :: 0 <= i < k ==> search(names[i]).Ok?
  {
    if search(names[0]).NotOk? then 0 else FirstFailure(names[1..], search) + 1
  }

  /** The per-skill entries, in declared order. */
  function SkillsData(names: seq<string>, search: string -> Response<SearchResult>): (r: seq<SkillData>)
    requires AllOk(names, search)
    ensures |r| == |names|
    ensures forall i :: 0 <= i < |names| ==> r[i] == ToSkillData(names[i], search(names[i]).body)
    ensures forall i :: 0 <= i < |r| ==> 0 <= r[i].marketAvg <= 100
  {
    seq(|names|, i requires 0 <= i < |names| => ToSkillData(names[i], search(names[i]).body))
  }

  /** fetchGitHubData for the given skill names and job title: one search per skill,
      then one for the job title. Any non-ok response makes the whole call throw. */
  function FetchFor(names: seq<string>, jobTitle: string, search: string -> Response<SearchResult>): (r: Outcome<AnalysisData>)
    ensures r.Done? <==> AllOk(names, search) && search(jobTitle).Ok?
    ensures r.Done? ==>
      r.value.skills == SkillsData(names, search)
      && r.value.marketPosition == Normalize(search(jobTitle).body.totalCount)
      && 0 <= r.value.techTrend <= 100 && 0 <= r.value.marketPosition <= 100
    ensures r.Thrown? && !AllOk(names, search) ==>
      exists i :: 0 <= i < |names| && search(names[i]) == NotOk(r.status)
    ensures r.Thrown? && AllOk(names, search) ==> search(jobTitle) == NotOk(r.status)
  {
    if !AllOk(names, search) then Thrown(search(names[FirstFailure(names, search)]).status)
    else if search(jobTitle).NotOk? then Thrown(search(jobTitle).status)
    else
      var skills := SkillsData(names, search);
      TechTrendBounded(skills);
      Done(AnalysisData(skills, TechTrend(skills), Normalize(search(jobTitle).body.totalCount)))
  }

  /** fetchGitHubData: the searches run over the declared skills of the input. */
  function FetchGitHubData(input: CareerInput, search: string -> Response<SearchResult>): (r: Outcome<AnalysisData>)
    ensures r.Done? <==> AllOk(SplitSkills(input.skills), search) && search(input.jobTitle).Ok?
    ensures r.Done? ==>
      |r.value.skills| == |SplitSkills(input.skills)|
      && 0 <= r.value.techTrend <= 100 && 0 <= r.value.marketPosition <= 100
  {
    FetchFor(SplitSkills(input.skills), input.jobTitle, search)
  }
}

/** src/api/stackexchange.ts: question counts per tag. */
module StackExchange {
  import opened JsText
  import opened Http
  import LogScale

  /** The tag-info body: items, each with an optional count; the list itself may be absent. */
  datatype TagResponse = TagResponse(items: Option<seq<Option<int>>>)

  datatype SkillData = SkillData(name: string, questionCount: int, demandScore: int)

  datatype Outcome<T> = Done(value: T) | Thrown(status: int)

  /** normalize with divisor 7 (10^7 questions score 100). */
  function Normalize(count: int): (r: nat)
    ensures r <= 100
    ensures count <= 0 ==> r == 0
  {
    LogScale.Normalize(count, 7)
  }

  lemma NormalizeTenMillion(count: int)
    requires count >= 10000000
    ensures Normalize(count) == 100
  {
    assert LogScale.Pow(10, 7) == 10000000;
    LogScale.NormalizeSaturates(count, 7);
  }

  /** data.items?.[0]?.count ?? 0. */
  function TagCount(body: TagResponse): (c: int)
    ensures body.items.None? || body.items.value == [] ==> c == 0
    ensures body.items.Some? && body.items.value != [] && body.items.value[0].Some? ==> c == body.items.value[0].value
  {
    match body.items
    case None => 0
    case Some(items) => if items != [] && items[0].Some? then items[0].value else 0
  }

  /** fetchTag: a non-ok response throws; otherwise the first item's count. */
  function FetchTag(resp: Response<TagResponse>): (r: Outcome<int>)
    ensures r.Thrown? <==> resp.NotOk?
    ensures resp.Ok? ==> r.value == TagCount(resp.body)
  {
    match resp
    case NotOk(status) => Thrown(status)
    case Ok(body) => Done(TagCount(body))
  }

  /** name.toLowerCase().trim(). */
  function TagOf(name: string): string
  {
    Trim(ToLower(name))
  }

  /** A response without items scores zero demand. */
  lemma NoItemsNoDemand(body: TagResponse)
    requires body.items.None? || body.items.value == []
    ensures Normalize(TagCount(body)) == 0
  {
  }

  /** fetchStackExchangeData: one entry per skill, in order, keeping the original name;
      the lookup uses the lower-cased, trimmed tag. Any failing lookup throws. */
  function FetchStackExchangeData(skills: seq<string>, fetchTag: string -> Response<TagResponse>): (r: Outcome<seq<SkillData>>)
    ensures r.Done? <==> forall i :: 0 <= i < |skills| ==> fetchTag(TagOf(skills[i])).Ok?
    ensures r.Done? ==> |r.value| == |skills| && forall i :: 0 <= i < |skills| ==>
      (var count := TagCount(fetchTag(TagOf(skills[i])).body);
       r.value[i] == SkillData(skills[i], count, Normalize(count)) && 0 <= r.value[i].demandScore <= 100)
    ensures r.Thrown? ==> exists i :: 0 <= i < |skills| && fetchTag(TagOf(skills[i])) == NotOk(r.status)
    decreases |skills|
  {
    if skills == [] then Done([])
    else match FetchTag(fetchTag(TagOf(skills[0])))
      case Thrown(status) => Thrown(status)
      case Done(count) =>
        match FetchStackExchangeData(skills[1..], fetchTag)
        case Thrown(status) => Thrown(status)
        case Done(rest) => Done([SkillData(skills[0], count, Normalize(count))] + rest)
  }
}

/** src/api/npm.ts: last-month download counts. */
module Npm {
  import opened JsText
  import opened Http
  import LogScale

  /** The downloads body; the field may be absent. */
  datatype DownloadsBody = DownloadsBody(downloads: Option<int>)

  datatype SkillData = SkillData(name: string, downloads: int, popularityScore: int)

  /** normalize with divisor 9 (10^9 downloads score 100). */
  function Normalize(downloads: int): (r: nat)
    ensures r <= 100
    ensures downloads <= 0 ==> r == 0
  {
    LogScale.Normalize(downloads, 9)
  }

  lemma NormalizeBillion(downloads: int)
    requires downloads >= 1000000000
    ensures Normalize(downloads) == 100
  {
    assert LogScale.Pow(10, 9) == 1000000000;
    LogScale.NormalizeSaturates(downloads, 9);
  }

  /** fetchDownloads: a non-ok response (a package unknown to npm) counts as zero
      downloads, and so does a body without the field. */
  function Downloads(resp: Response<DownloadsBody>): (n: int)
    ensures resp.NotOk? ==> n == 0
    ensures resp.Ok? && resp.body.downloads.None? ==> n == 0
    ensures resp.Ok? && resp.body.downloads.Some? ==> n == resp.body.downloads.value
  {
    match resp
    case NotOk(_) => 0
    case Ok(body) => if body.downloads.Some? then body.downloads.value else 0
  }

  /** fetchNPMData: never fails on a resolved response, a non-ok one scoring 0; each skill is looked up by its lower-cased name. */
  function FetchNpmData(skills: seq<string>, fetch: string -> Response<DownloadsBody>): (r: seq<SkillData>)
    ensures |r| == |skills|
    ensures forall i :: 0 <= i < |skills| ==>
      r[i].name == skills[i] && r[i].downloads == Downloads(fetch(ToLower(skills[i])))
      && r[i].popularityScore == Normalize(r[i].downloads) && 0 <= r[i].popularityScore <= 100
  {
    seq(|skills|, i requires 0 <= i < |skills| =>
      var n := Downloads(fetch(ToLower(skills[i])));
      SkillData(skills[i], n, Normalize(n)))
  }

  /** A package npm does not know scores zero popularity instead of failing the call. */
  lemma UnknownPackageScoresZero(skills: seq<string>, fetch: string -> Response<DownloadsBody>, i: nat)
    requires i < |skills| && fetch(ToLower(skills[i])).NotOk?
    ensures FetchNpmData(skills, fetch)[i].popularityScore == 0
  {
  }
}

/** src/api/pypi.ts: release counts of Python packages. */
module PyPI {
  import opened JsText
  import opened Http
  import LogScale

  /** The package body: releases maps a version to its files; the field may be absent. */
  datatype PackageBody = PackageBody(releases: Option<map<string, nat>>)

  datatype SkillData = SkillData(name: string, releaseCount: int, maturityScore: int)

  /** normalize with divisor 3 (10^3 releases score 100). */
  function Normalize(releaseCount: int): (r: nat)
    ensures r <= 100
    ensures releaseCount <= 0 ==> r == 0
  {
    LogScale.Normalize(releaseCount, 3)
  }

  lemma NormalizeThousand(releaseCount: int)
    requires releaseCount >= 1000
    ensures Normalize(releaseCount) == 100
  {
    assert LogScale.Pow(10, 3) == 1000;
    LogScale.NormalizeSaturates(releaseCount, 3);
  }

  /** fetchPackage: the number of release keys; zero for a non-ok response or no releases. */
  function ReleaseCount(resp: Response<PackageBody>): (n: nat)
    ensures resp.NotOk? ==> n == 0
    ensures resp.Ok? && resp.body.releases.None? ==> n == 0
    ensures resp.Ok? && resp.body.releases.Some? ==> n == |resp.body.releases.value.Keys|
  {
    match resp
    case NotOk(_) => 0
    case Ok(body) => if body.releases.Some? then |body.releases.value.Keys| else 0
  }

  /** fetchPyPIData: never fails on a resolved response, a non-ok one scoring 0; each skill is looked up by its lower-cased name. */
  function FetchPyPIData(skills: seq<string>, fetch: string -> Response<PackageBody>): (r: seq<SkillData>)
    ensures |r| == |skills|
    ensures forall i :: 0 <= i < |skills| ==>
      r[i].name == skills[i] && r[i].releaseCount == ReleaseCount(fetch(ToLower(skills[i])))
      && r[i].maturityScore == Normalize(r[i].releaseCount) && 0 <= r[i].maturityScore <= 100
  {
    seq(|skills|, i requires 0 <= i < |skills| =>
      var n := ReleaseCount(fetch(ToLower(skills[i])));
      SkillData(skills[i], n, Normalize(n)))
  }

  /** One more release never lowers the maturity score. */
  lemma MoreReleasesNoLowerScore(m: map<string, nat>, version: string, files: nat)
    ensures Normalize(ReleaseCount(Ok(PackageBody(Some(m))))) <= Normalize(ReleaseCount(Ok(PackageBody(Some(m[version := files])))))
  {
    assert m.Keys <= m[version := files].Keys;
    LogScale.NormalizeMonotone(|m.Keys|, |m[version := files].Keys|, 3);
  }
}
