/**
 * The GitHub page (`app/github/page.tsx`): fetch a repository by URL or an
 * organisation by name, propose a dataset name from it, and start
 * generating a dataset from the selected source, remembering each source
 * a generation was started for.
 *
 * What each request gave is a parameter of its handler.
 */
module GitHubPage {
  import opened Wrappers
  import opened Text
  import opened Json
  import opened Toasts

  // ---------------------------------------------------------------------------
  // Repository names
  // ---------------------------------------------------------------------------

  /**
   * The repository name asked for: the input itself, unless it mentions
   * `github.com` and splitting at `github.com/` gives a second part; then
   * that part (up to any further `github.com/`) without one trailing slash.
   */
  function RepoName(url: string): string {
    if !Contains(url, "github.com") then url
    else
      match IndexOf(url, "github.com/")
      case None => url
      case Some(i) =>
        var rest := url[i + |"github.com/"|..];
        var part := match IndexOf(rest, "github.com/") case None => rest case Some(j) => rest[..j];
        DropTrailingSlash(part)
  }

  /** An input without `github.com/` is used as the name unchanged. */
  lemma RepoNameUnchanged(url: string)
    requires !Contains(url, "github.com/")
    ensures RepoName(url) == url
  {
  }

  /** `https://github.com/<path>` asks for `<path>`, less one trailing slash. */
  lemma RepoNameOfUrl(path: string)
    requires !Contains(path, "github.com/")
    ensures RepoName("https://github.com/" + path) == DropTrailingSlash(path)
  {
    var url := "https://github.com/" + path;
    assert url[8..19] == "github.com/";
    assert OccursAt(url, "github.com/", 8);
    assert OccursAt(url, "github.com", 8) by { assert url[8..18] == "github.com"; }
    forall j: nat | j < 8 ensures !OccursAt(url, "github.com/", j) {
      assert url[j] == "https://"[j] != 'g';
      assert url[j..j + 11][0] == url[j];
    }
    assert IndexOf(url, "github.com/") == Some(8);
    assert url[19..] == path;
  }

  // ---------------------------------------------------------------------------
  // Dataset names
  // ---------------------------------------------------------------------------

  predicate IsSlugChar(c: char) {
    'a' <= c <= 'z' || '0' <= c <= '9'
  }

  /** `toLowerCase` on an ASCII letter. */
  function LowerAscii(c: char): (l: char)
    ensures 'A' <= c <= 'Z' ==> 'a' <= l <= 'z'
    ensures !('A' <= c <= 'Z') ==> l == c
  {
    if 'A' <= c <= 'Z' then (c as int + 32) as char else c
  }

  /** One character of the slug: lower-cased, and `-` unless a letter or digit. */
  function SlugChar(c: char): (s: char)
    ensures IsSlugChar(s) || s == '-'
  {
    var l := LowerAscii(c);
    if IsSlugChar(l) then l else '-'
  }

  /** `name.toLowerCase().replace(/[^a-z0-9]/g, '-')`. */
  function SlugBody(name: string): (body: string)
    ensures |body| == |name|
    ensures forall i :: 0 <= i < |name| ==> body[i] == SlugChar(name[i])
  {
    seq(|name|, i requires 0 <= i < |name| => SlugChar(name[i]))
  }

  /** The proposed dataset name: the slug followed by `-dataset`. */
  function DatasetSlug(name: string): (slug: string)
    ensures |slug| == |name| + 8
    ensures forall i :: 0 <= i < |slug| ==> IsSlugChar(slug[i]) || slug[i] == '-'
    ensures EndsWith(slug, "-dataset")
  {
    var body := SlugBody(name);
    assert (body + "-dataset")[|body|..] == "-dataset";
    body + "-dataset"
  }

  /** Slugging a slug changes nothing, and letter case does not matter. */
  lemma SlugBodyIdempotent(name: string)
    ensures SlugBody(SlugBody(name)) == SlugBody(name)
    ensures forall i :: 0 <= i < |name| ==> SlugChar(LowerAscii(name[i])) == SlugChar(name[i])
  {
  }

  // ---------------------------------------------------------------------------
  // The page
  // ---------------------------------------------------------------------------

  /** The repository fields the page uses. */
  datatype Repository = Repository(name: string, fullName: string)

  /**
   * What a repository fetch gave: the repository, or a failure whose
   * message is `""` when the error had none.
   */
  datatype RepoOutcome = RepoFailed(message: string) | RepoFetched(repo: Repository)

  /** What an organisation fetch gave: a failure, or the number of repositories listed. */
  datatype OrgOutcome = OrgFailed | OrgFetched(repoCount: nat)

  /** What the generate request gave: a failure before a body was read, or the body. */
  datatype GenerateOutcome = GenerateThrew | GenerateAnswered(body: Json)

  /** The body posted to start a dataset generation. */
  datatype GenerateRequest = GenerateRequest(sourceType: string, sourceName: string, datasetName: string, description: string)

  /** The source of a generation: the selected repository, else the organisation. */
  function Source(selected: Option<Repository>, orgName: string): (source: (string, string))
    ensures selected.Some? ==> source == ("repository", selected.value.fullName)
    ensures selected.None? ==> source == ("organization", orgName)
  {
    if selected.Some? then ("repository", selected.value.fullName) else ("organization", orgName)
  }

  /** `${data.message || 'Unknown error'}`: the text of a refusal. */
  function RefusalText(body: Json): string {
    TemplateText(OrElse(Member(body, "message"), Str("Unknown error")))
  }

  /** Whether the generate response reports a start: a truthy `success` or `task_id`. */
  predicate Started(body: Json) {
    TruthyOpt(Member(body, "success")) || TruthyOpt(Member(body, "task_id"))
  }

  class GitHubPage {
    var repoUrl: string
    var orgName: string
    var datasetName: string
    var loadingRepo: bool
    var loadingOrg: bool
    var selectedRepo: Option<Repository>
    var processedRepos: seq<string>
    var toasts: seq<Toast>

    constructor()
      ensures repoUrl == "" && orgName == "" && datasetName == ""
      ensures !loadingRepo && !loadingOrg && selectedRepo.None? && processedRepos == [] && toasts == []
    {
      repoUrl := "";
      orgName := "";
      datasetName := "";
      loadingRepo := false;
      loadingOrg := false;
      selectedRepo := None;
      processedRepos := [];
      toasts := [];
    }

    /**
     * `handleFetchRepository`: a blank URL is refused without a request;
     * otherwise `requested` is the repository name asked for, and a fetched
     * repository is selected with its dataset name proposed.
     */
    method HandleFetchRepository(outcome: RepoOutcome) returns (requested: Option<string>)
      modifies this`loadingRepo, this`selectedRepo, this`datasetName, this`toasts
      ensures Strip(old(repoUrl)) == "" ==>
        requested.None? && toasts == old(toasts) + [Failure("Please enter a repository URL")]
        && selectedRepo == old(selectedRepo) && datasetName == old(datasetName) && loadingRepo == old(loadingRepo)
      ensures Strip(old(repoUrl)) != "" ==> requested == Some(RepoName(old(repoUrl))) && !loadingRepo
      ensures Strip(old(repoUrl)) != "" && outcome.RepoFetched? ==>
        selectedRepo == Some(outcome.repo) && datasetName == DatasetSlug(outcome.repo.name)
        && toasts == old(toasts) + [Success("Repository " + outcome.repo.name + " fetched successfully")]
      ensures Strip(old(repoUrl)) != "" && outcome.RepoFailed? ==>
        selectedRepo == old(selectedRepo) && datasetName == old(datasetName)
        && toasts == old(toasts) + [Failure(if outcome.message != "" then outcome.message
                                            else "Failed to fetch repository information")]
    {
      if Strip(repoUrl) == "" {
        toasts := toasts + [Failure("Please enter a repository URL")];
        return None;
      }
      loadingRepo := true;
      requested := Some(RepoName(repoUrl));
      ApplyRepoOutcome(outcome);
      loadingRepo := false;
    }

    /** What a repository request's answer does to the page. */
    method ApplyRepoOutcome(outcome: RepoOutcome)
      modifies this`selectedRepo, this`datasetName, this`toasts
      ensures outcome.RepoFetched? ==>
        selectedRepo == Some(outcome.repo) && datasetName == DatasetSlug(outcome.repo.name)
        && toasts == old(toasts) + [Success("Repository " + outcome.repo.name + " fetched successfully")]
      ensures outcome.RepoFailed? ==>
        selectedRepo == old(selectedRepo) && datasetName == old(datasetName)
        && toasts == old(toasts) + [Failure(if outcome.message != "" then outcome.message
                                            else "Failed to fetch repository information")]
    {
      match outcome {
        case RepoFetched(repo) =>
          selectedRepo := Some(repo);
          toasts := toasts + [Success("Repository " + repo.name + " fetched successfully")];
          datasetName := DatasetSlug(repo.name);
        case RepoFailed(message) =>
          toasts := toasts + [Failure(if message != "" then message else "Failed to fetch repository information")];
      }
    }

    /**
     * `handleFetchOrganization`: a blank name is refused without a request;
     * a fetched organisation proposes its dataset name.
     */
    method HandleFetchOrganization(outcome: OrgOutcome) returns (requested: Option<string>)
      modifies this`loadingOrg, this`datasetName, this`toasts
      ensures Strip(old(orgName)) == "" ==>
        requested.None? && toasts == old(toasts) + [Failure("Please enter an organization name")]
        && datasetName == old(datasetName) && loadingOrg == old(loadingOrg)
      ensures Strip(old(orgName)) != "" ==> requested == Some(old(orgName)) && !loadingOrg
      ensures Strip(old(orgName)) != "" && outcome.OrgFetched? ==>
        datasetName == DatasetSlug(old(orgName))
        && toasts == old(toasts) + [
          Success("Organization " + old(orgName) + " fetched successfully"),
          Info("Found " + NatToString(outcome.repoCount) + " repositories in " + old(orgName))]
      ensures Strip(old(orgName)) != "" && outcome.OrgFailed? ==>
        datasetName == old(datasetName) && toasts == old(toasts) + [Failure("Failed to fetch organization information")]
    {
      if Strip(orgName) == "" {
        toasts := toasts + [Failure("Please enter an organization name")];
        return None;
      }
      loadingOrg := true;
      requested := Some(orgName);
      match outcome {
        case OrgFetched(repoCount) =>
          toasts := toasts + [
            Success("Organization " + orgName + " fetched successfully"),
            Info("Found " + NatToString(repoCount) + " repositories in " + orgName)];
          datasetName := DatasetSlug(orgName);
        case OrgFailed =>
          toasts := toasts + [Failure("Failed to fetch organization information")];
      }
      loadingOrg := false;
    }

    /**
     * `handleGenerateDataset`: refused without a dataset name, or without
     * a repository or organisation; otherwise the request names the source,
     * and when the response reports a start the source joins the history
     * and the form is cleared.
     */
    method HandleGenerateDataset(outcome: GenerateOutcome) returns (request: Option<GenerateRequest>)
      modifies this`repoUrl, this`orgName, this`datasetName, this`selectedRepo, this`processedRepos, this`toasts
      ensures old(datasetName) == "" ==>
        request.None? && toasts == old(toasts) + [Failure("Please enter a dataset name")]
        && processedRepos == old(processedRepos)
      ensures old(datasetName) != "" && old(selectedRepo).None? && old(orgName) == "" ==>
        request.None? && toasts == old(toasts) + [Failure("Please fetch a repository or organization first")]
        && processedRepos == old(processedRepos)
      ensures request.Some? <==> old(datasetName) != "" && (old(selectedRepo).Some? || old(orgName) != "")
      ensures request.Some? ==>
        var source := Source(old(selectedRepo), old(orgName));
        request.value == GenerateRequest(source.0, source.1, old(datasetName),
                                         "Dataset generated from " + source.0 + " " + source.1)
      ensures request.Some? && outcome.GenerateAnswered? && outcome.body != Null && Started(outcome.body) ==>
        processedRepos == old(processedRepos) + [request.value.sourceName]
        && repoUrl == "" && orgName == "" && datasetName == "" && selectedRepo.None?
        && toasts == old(toasts) + [Success("Dataset " + old(datasetName) + " creation started successfully")]
      ensures !(request.Some? && outcome.GenerateAnswered? && outcome.body != Null && Started(outcome.body)) ==>
        processedRepos == old(processedRepos) && repoUrl == old(repoUrl) && orgName == old(orgName)
        && datasetName == old(datasetName) && selectedRepo == old(selectedRepo)
      ensures request.Some? && outcome.GenerateAnswered? && outcome.body != Null && !Started(outcome.body) ==>
        toasts == old(toasts) + [Failure("Failed to create dataset: " + RefusalText(outcome.body))]
      ensures request.Some? && (outcome.GenerateThrew? || outcome.body == Null) ==>
        toasts == old(toasts) + [Failure("Failed to generate dataset")]
    {
      if datasetName == "" {
        toasts := toasts + [Failure("Please enter a dataset name")];
        return None;
      }
      if selectedRepo.None? && orgName == "" {
        toasts := toasts + [Failure("Please fetch a repository or organization first")];
        return None;
      }
      var source := Source(selectedRepo, orgName);
      request := Some(GenerateRequest(source.0, source.1, datasetName,
                                      "Dataset generated from " + source.0 + " " + source.1));
      ApplyGenerateOutcome(outcome, source.1);
    }

    /**
     * What the generate request's answer does: a start records the source
     * and clears the form; anything else leaves the form and shows why.
     * Reading `success` of a `null` body throws, which the page reports
     * like a failed request.
     */
    method ApplyGenerateOutcome(outcome: GenerateOutcome, sourceName: string)
      modifies this`repoUrl, this`orgName, this`datasetName, this`selectedRepo, this`processedRepos, this`toasts
      ensures outcome.GenerateAnswered? && outcome.body != Null && Started(outcome.body) ==>
        processedRepos == old(processedRepos) + [sourceName]
        && repoUrl == "" && orgName == "" && datasetName == "" && selectedRepo.None?
        && toasts == old(toasts) + [Success("Dataset " + old(datasetName) + " creation started successfully")]
      ensures !(outcome.GenerateAnswered? && outcome.body != Null && Started(outcome.body)) ==>
        processedRepos == old(processedRepos) && repoUrl == old(repoUrl) && orgName == old(orgName)
        && datasetName == old(datasetName) && selectedRepo == old(selectedRepo)
      ensures outcome.GenerateAnswered? && outcome.body != Null && !Started(outcome.body) ==>
        toasts == old(toasts) + [Failure("Failed to create dataset: " + RefusalText(outcome.body))]
      ensures outcome.GenerateThrew? || outcome.body == Null ==>
        toasts == old(toasts) + [Failure("Failed to generate dataset")]
    {
      match outcome {
        case GenerateAnswered(body) =>
          if body == Null {
            toasts := toasts + [Failure("Failed to generate dataset")];
          } else if Started(body) {
            toasts := toasts + [Success("Dataset " + datasetName + " creation started successfully")];
            processedRepos := processedRepos + [sourceName];
            repoUrl := "";
            orgName := "";
            datasetName := "";
            selectedRepo := None;
          } else {
            toasts := toasts + [Failure("Failed to create dataset: " + RefusalText(body))];
          }
        case GenerateThrew =>
          toasts := toasts + [Failure("Failed to generate dataset")];
      }
    }
  }
}
