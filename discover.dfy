// Discovery aggregation helpers: result builders, name normalisation, GitHub
// URL normalisation, the post-search filter and the list of search sources.

module Discovery {
  import opened Text
  import opened AppTypes

  // ---------------------------------------------------------------------
  // Builders.

  /** `DiscoverResult::new`: a result with a single install option. */
  function NewResult(name: string, description: Option<string>, source: DiscoverSource, installCommand: string): DiscoverResult {
    DiscoverResult(name, description, source, None, None, None, [InstallOption(source, installCommand)])
  }

  function WithStars(r: DiscoverResult, stars: nat): DiscoverResult { r.(stars := Some(stars)) }
  function WithUrl(r: DiscoverResult, url: string): DiscoverResult { r.(url := Some(url)) }
  function WithLanguage(r: DiscoverResult, language: string): DiscoverResult { r.(language := Some(language)) }

  /** A new result carries exactly one install option, for its own source and the given command,
      and no stars, URL or language; each `with_*` sets one field and leaves the rest alone. */
  lemma BuilderSpec(name: string, description: Option<string>, source: DiscoverSource, cmd: string,
                    stars: nat, url: string, language: string)
    ensures var r := NewResult(name, description, source, cmd);
      && r.name == name && r.description == description && r.source == source
      && |r.installOptions| == 1 && r.installOptions[0] == InstallOption(source, cmd)
      && r.stars.None? && r.url.None? && r.language.None?
      && WithStars(r, stars) == r.(stars := Some(stars))
      && WithUrl(WithStars(r, stars), url).stars == Some(stars)
      && WithUrl(WithStars(r, stars), url).url == Some(url)
      && WithLanguage(r, language).installOptions == r.installOptions
  {
  }

  // ---------------------------------------------------------------------
  // Name normalisation.

  function RemoveSeparators(s: string): string {
    if |s| == 0 then ""
    else (if s[0] == '-' || s[0] == '_' then "" else [s[0]]) + RemoveSeparators(s[1..])
  }

  /** No separator is left, every other character stays, and a string without separators is
      returned unchanged. */
  lemma {:induction false} RemoveSeparatorsSpec(s: string)
    ensures var r := RemoveSeparators(s);
      && '-' !in r && '_' !in r
      && (forall c :: c in r ==> c in s)
      && ('-' !in s && '_' !in s ==> r == s)
  {
    if |s| > 0 {
      RemoveSeparatorsSpec(s[1..]);
      assert s == [s[0]] + s[1..];
    }
  }

  /** `normalize_name`: lowercase, with every '-' and '_' removed. */
  function NormalizeName(name: string): string {
    RemoveSeparators(Lower(name))
  }

  /** A normalised name has no separators and no upper-case letter, and normalising again
      changes nothing. */
  lemma NormalizeNameSpec(name: string)
    ensures var n := NormalizeName(name);
      && '-' !in n && '_' !in n
      && (forall c :: c in n ==> !IsUpper(c))
      && NormalizeName(n) == n
  {
    var l := Lower(name);
    var n := RemoveSeparators(l);
    RemoveSeparatorsSpec(l);
    RemoveSeparatorsSpec(n);
    forall c | c in n
      ensures !IsUpper(c)
    {
      assert c in l;
    }
    assert Lower(n) == n;
  }

  lemma {:induction false} RemoveSeparatorsConcat(a: string, b: string)
    ensures RemoveSeparators(a + b) == RemoveSeparators(a) + RemoveSeparators(b)
  {
    if |a| > 0 {
      RemoveSeparatorsConcat(a[1..], b);
      assert (a + b)[1..] == a[1..] + b;
    } else {
      assert a + b == b;
    }
  }

  /** Removing separators from words joined by at most one separator joins the words. */
  lemma RemoveJoined(a: string, sep: string, b: string)
    requires '-' !in a && '_' !in a && '-' !in b && '_' !in b
    requires sep == "-" || sep == "_" || sep == ""
    ensures RemoveSeparators(a + sep + b) == a + b
  {
    RemoveSeparatorsConcat(a + sep, b);
    RemoveSeparatorsConcat(a, sep);
    RemoveSeparatorsSpec(a);
    RemoveSeparatorsSpec(b);
    assert RemoveSeparators(sep) == "";
    assert RemoveSeparators(a + sep) == a;
  }

  /** Lowercasing checked character by character. */
  lemma LowerPointwise(u: string, l: string)
    requires |u| == |l| && forall i :: 0 <= i < |u| ==> LowerChar(u[i]) == l[i]
    ensures Lower(u) == l
  {
  }

  // The recorded cases take the input as a parameter fixed by `requires`, so that the verifier
  // does not unfold the recursive functions over a literal argument.

  lemma NormalizePlainExample(u: string)
    requires u == "ripgrep"
    ensures NormalizeName(u) == "ripgrep"
  {
    LowerOfLower(u);
    RemoveSeparatorsSpec(u);
  }

  lemma NormalizeDashExample(u: string)
    requires u == "rip-grep"
    ensures NormalizeName(u) == "ripgrep"
  {
    LowerOfLower(u);
    RemoveDash(u);
  }

  lemma NormalizeUnderscoreExample(u: string)
    requires u == "rip_grep"
    ensures NormalizeName(u) == "ripgrep"
  {
    LowerOfLower(u);
    RemoveJoined("rip", "_", "grep");
    assert u == "rip" + "_" + "grep";
    assert "ripgrep" == "rip" + "grep";
  }

  lemma RemoveDash(v: string)
    requires v == "rip-grep"
    ensures RemoveSeparators(v) == "ripgrep"
  {
    RemoveJoined("rip", "-", "grep");
    assert v == "rip" + "-" + "grep";
    assert "ripgrep" == "rip" + "grep";
  }

  /** Upper-case letters are lowered as the separators go. */
  lemma NormalizeCaseExample(u: string)
    requires u == "Rip-Grep"
    ensures NormalizeName(u) == "ripgrep"
  {
    LowerPointwise(u, "rip-grep");
    RemoveDash("rip-grep");
  }

  // ---------------------------------------------------------------------
  // GitHub URL normalisation.

  /** "owner/repo" from the path after the host: ".git" and trailing slashes removed, the first
      two segments both non-empty, lowercased. */
  function OwnerRepoOfPath(path: string): (r: Option<string>)
    ensures r.Some? ==>
      var parts := Split(TrimEndMatches(TrimEndMatches(path, ".git"), "/"), '/');
      && |parts| >= 2 && parts[0] != "" && parts[1] != ""
      && r.value == Lower(parts[0] + "/" + parts[1])
  {
    var cleaned := TrimEndMatches(TrimEndMatches(path, ".git"), "/");
    var parts := Split(cleaned, '/');
    if |parts| >= 2 && parts[0] != "" && parts[1] != "" then Some(Lower(parts[0] + "/" + parts[1]))
    else None
  }

  /** The optional prefixes, each removed at most once, in this order. */
  function StripSchemes(s: string): string {
    DropPrefix(DropPrefix(DropPrefix(DropPrefix(DropPrefix(DropPrefix(s, "git+"), "ssh://"), "git://"), "https://"), "http://"), "git@")
  }

  /** The `github:owner/repo` shorthand, when the rest holds a '/'. */
  function ShorthandRepo(s: string): (r: Option<string>)
    ensures r.Some? ==> StartsWith(s, "github:")
  {
    var rest := StripPrefix(s, "github:");
    if rest.Some? && '/' in TrimEndMatches(rest.value, ".git") then Some(Lower(TrimEndMatches(rest.value, ".git")))
    else None
  }

  /** A URL naming the host: optional prefixes, then "github.com/" or "github.com:", then the path. */
  function HostedRepo(s: string): Option<string> {
    var t := StripSchemes(s);
    if StartsWith(t, "github.com/") || StartsWith(t, "github.com:") then OwnerRepoOfPath(t[11..])
    else None
  }

  /** `extract_github_owner_repo`. */
  function ExtractGithubOwnerRepo(url: string): Option<string> {
    var s := Trim(url);
    var shorthand := ShorthandRepo(s);
    if shorthand.Some? then shorthand else HostedRepo(s)
  }

  /** The same steps as the source, rebinding the remaining text after each prefix. */
  method ExtractOwnerRepo(url: string) returns (r: Option<string>)
    ensures r == ExtractGithubOwnerRepo(url)
  {
    var s := Trim(url);
    var rest := StripPrefix(s, "github:");
    if rest.Some? {
      var cleaned := TrimEndMatches(rest.value, ".git");
      if '/' in cleaned {
        return Some(Lower(cleaned));
      }
    }
    var prefixes := ["git+", "ssh://", "git://", "https://", "http://", "git@"];
    var i := 0;
    var t := s;
    while i < |prefixes|
      invariant 0 <= i <= |prefixes|
      invariant i == 0 ==> t == s
      invariant i == 1 ==> t == DropPrefix(s, "git+")
      invariant i == 2 ==> t == DropPrefix(DropPrefix(s, "git+"), "ssh://")
      invariant i == 3 ==> t == DropPrefix(DropPrefix(DropPrefix(s, "git+"), "ssh://"), "git://")
      invariant i == 4 ==> t == DropPrefix(DropPrefix(DropPrefix(DropPrefix(s, "git+"), "ssh://"), "git://"), "https://")
      invariant i == 5 ==> t == DropPrefix(DropPrefix(DropPrefix(DropPrefix(DropPrefix(s, "git+"), "ssh://"), "git://"), "https://"), "http://")
      invariant i == 6 ==> t == StripSchemes(s)
    {
      var p := StripPrefix(t, prefixes[i]);
      if p.Some? {
        t := p.value;
      }
      i := i + 1;
    }
    var path := StripPrefix(t, "github.com/");
    if path.None? {
      path := StripPrefix(t, "github.com:");
    }
    if path.None? {
      return None;
    }
    var cleaned := TrimEndMatches(TrimEndMatches(path.value, ".git"), "/");
    var parts := Split(cleaned, '/');
    if |parts| >= 2 && parts[0] != "" && parts[1] != "" {
      r := Some(Lower(parts[0] + "/" + parts[1]));
    } else {
      r := None;
    }
  }

  lemma LowerKeepsChar(s: string, c: char)
    requires c in s && !IsUpper(c)
    ensures c in Lower(s)
  {
    var k :| 0 <= k < |s| && s[k] == c;
    assert Lower(s)[k] == c;
  }

  lemma {:induction false} OwnerRepoOfPathSpec(path: string)
    ensures var r := OwnerRepoOfPath(path);
      r.Some? ==>
        && IsLower(r.value) && '/' in r.value
        && exists owner: string, repo: string ::
          && owner != "" && repo != "" && '/' !in owner && '/' !in repo
          && r.value == Lower(owner + "/" + repo)
  {
    var r := OwnerRepoOfPath(path);
    if r.Some? {
      var parts := Split(TrimEndMatches(TrimEndMatches(path, ".git"), "/"), '/');
      var j := parts[0] + "/" + parts[1];
      LowerIsLower(j);
      assert j[|parts[0]|] == '/';
      LowerKeepsChar(j, '/');
      assert '/' !in parts[0] && '/' !in parts[1];
    }
  }

  /** A normalised repository name is lowercase and has a '/'; outside the shorthand form it is
      exactly two non-empty segments joined by '/'. */
  lemma ExtractGithubOwnerRepoSpec(url: string)
    ensures var r := ExtractGithubOwnerRepo(url);
      r.Some? ==> IsLower(r.value) && '/' in r.value
    ensures var r := ExtractGithubOwnerRepo(url);
      r.Some? && !StartsWith(Trim(url), "github:") ==>
        exists owner: string, repo: string ::
          && owner != "" && repo != "" && '/' !in owner && '/' !in repo
          && r.value == Lower(owner + "/" + repo)
  {
    var s := Trim(url);
    if ShorthandRepo(s).Some? {
      var c := TrimEndMatches(StripPrefix(s, "github:").value, ".git");
      LowerIsLower(c);
      LowerKeepsChar(c, '/');
    } else {
      var t := StripSchemes(s);
      if StartsWith(t, "github.com/") || StartsWith(t, "github.com:") {
        OwnerRepoOfPathSpec(t[11..]);
      }
    }
  }

  /** Splitting "owner/repo" at '/' gives the two segments. */
  lemma SplitTwo(owner: string, repo: string)
    requires '/' !in owner && '/' !in repo
    ensures Split(owner + "/" + repo, '/') == [owner, repo]
  {
    var j := owner + "/" + repo;
    assert j[|owner|] == '/';
    assert j[..|owner|] == owner;
    assert IndexOf(j, '/') == |owner|;
    assert j[|owner| + 1..] == repo;
  }

  /** Removing ".git" and then trailing slashes from `j` followed by one optional suffix gives `j`. */
  lemma TrimSuffixes(j: string, suffix: string)
    requires |j| > 0 && j[|j| - 1] != '/' && !EndsWith(j, ".git")
    requires suffix == "" || suffix == ".git" || suffix == "/"
    ensures TrimEndMatches(TrimEndMatches(j + suffix, ".git"), "/") == j
  {
    var path := j + suffix;
    assert !EndsWith(j, "/");
    if suffix == ".git" {
      assert EndsWith(path, ".git");
      assert path[..|path| - 4] == j;
    } else if suffix == "/" {
      assert path[|path| - 1] == '/';
      assert !EndsWith(path, ".git");
      assert EndsWith(path, "/");
      assert path[..|path| - 1] == j;
    } else {
      assert path == j;
    }
  }

  /** A path "owner/repo", optionally followed by ".git" or '/', gives "owner/repo" lowercased. */
  lemma OwnerRepoOfSimplePath(owner: string, repo: string, suffix: string)
    requires owner != "" && repo != "" && '/' !in owner && '/' !in repo
    requires !EndsWith(owner + "/" + repo, ".git")
    requires suffix == "" || suffix == ".git" || suffix == "/"
    ensures OwnerRepoOfPath(owner + "/" + repo + suffix) == Some(Lower(owner + "/" + repo))
  {
    var j := owner + "/" + repo;
    assert j[|j| - 1] == repo[|repo| - 1];
    TrimSuffixes(j, suffix);
    SplitTwo(owner, repo);
  }

  lemma TrimNoop(s: string)
    requires |s| > 0 && !IsWhitespace(s[0]) && !IsWhitespace(s[|s| - 1])
    ensures Trim(s) == s
  {
  }

  /** `https://github.com/<path>`: the path alone decides. */
  lemma HttpsForm(path: string)
    requires |path| > 0 && !IsWhitespace(path[|path| - 1])
    ensures ExtractGithubOwnerRepo("https://github.com/" + path) == OwnerRepoOfPath(path)
  {
    var url := "https://github.com/" + path;
    TrimNoop(url);
    assert url[0] == 'h';
    assert !StartsWith(url, "github:") && !StartsWith(url, "git+");
    assert !StartsWith(url, "ssh://") && !StartsWith(url, "git://");
    assert StartsWith(url, "https://") && url[8..] == "github.com/" + path;
    var rest := "github.com/" + path;
    assert rest[3] == 'h';
    assert !StartsWith(rest, "http://") && !StartsWith(rest, "git@");
    assert StripSchemes(url) == rest;
    assert StartsWith(rest, "github.com/") && rest[11..] == path;
  }

  /** The `git+` URL is its own trim, not the shorthand, and `git+` is the only difference
      from the https URL once the prefixes are stripped. */
  lemma GitPlusSteps(path: string)
    requires |path| > 0 && !IsWhitespace(path[|path| - 1])
    ensures Trim("git+https://github.com/" + path) == "git+https://github.com/" + path
    ensures ShorthandRepo("git+https://github.com/" + path).None?
    ensures StripSchemes("git+https://github.com/" + path) == StripSchemes("https://github.com/" + path)
  {
    var u := "https://github.com/" + path;
    var url := "git+https://github.com/" + path;
    assert url == "git+" + u;
    TrimNoop(url);
    assert url[3] == '+' && u[0] == 'h';
    assert !StartsWith(url, "github:") && !StartsWith(u, "git+");
    assert DropPrefix(url, "git+") == u;
  }

  /** The https URL is its own trim and not the shorthand. */
  lemma HttpsSteps(path: string)
    requires |path| > 0 && !IsWhitespace(path[|path| - 1])
    ensures Trim("https://github.com/" + path) == "https://github.com/" + path
    ensures ShorthandRepo("https://github.com/" + path).None?
  {
    var u := "https://github.com/" + path;
    TrimNoop(u);
    assert u[0] == 'h';
    assert !StartsWith(u, "github:");
  }

  /** Two trimmed URLs outside the shorthand that agree once the prefixes are stripped name
      the same repository. */
  lemma SameHosted(x: string, y: string)
    requires Trim(x) == x && ShorthandRepo(x).None?
    requires Trim(y) == y && ShorthandRepo(y).None?
    requires StripSchemes(x) == StripSchemes(y)
    ensures ExtractGithubOwnerRepo(x) == ExtractGithubOwnerRepo(y)
  {
    ExtractViaHosted(x);
    ExtractViaHosted(y);
  }

  /** Outside the shorthand, a trimmed URL is read through its host part alone. */
  lemma ExtractViaHosted(x: string)
    requires Trim(x) == x && ShorthandRepo(x).None?
    ensures ExtractGithubOwnerRepo(x) == HostedRepo(x)
  {
  }

  /** `git+https://github.com/<path>`: the path alone decides. */
  lemma GitPlusForm(path: string)
    requires |path| > 0 && !IsWhitespace(path[|path| - 1])
    ensures ExtractGithubOwnerRepo("git+https://github.com/" + path) == OwnerRepoOfPath(path)
  {
    GitPlusSteps(path);
    HttpsSteps(path);
    SameHosted("git+https://github.com/" + path, "https://github.com/" + path);
    HttpsForm(path);
  }

  /** `git@github.com:<path>`: the path alone decides. */
  lemma SshForm(path: string)
    requires |path| > 0 && !IsWhitespace(path[|path| - 1])
    ensures ExtractGithubOwnerRepo("git@github.com:" + path) == OwnerRepoOfPath(path)
  {
    var url := "git@github.com:" + path;
    TrimNoop(url);
    assert url[3] == '@';
    assert !StartsWith(url, "github:") && !StartsWith(url, "git+") && !StartsWith(url, "git://");
    assert url[0] == 'g';
    assert !StartsWith(url, "ssh://") && !StartsWith(url, "https://") && !StartsWith(url, "http://");
    assert StartsWith(url, "git@") && url[4..] == "github.com:" + path;
    var rest := "github.com:" + path;
    assert StripSchemes(url) == rest;
    assert rest[10] == ':';
    assert !StartsWith(rest, "github.com/");
    assert StartsWith(rest, "github.com:") && rest[11..] == path;
  }

  /** `github:<owner>/<repo>`: the shorthand, lowercased. */
  lemma ShorthandForm(path: string)
    requires |path| > 0 && !IsWhitespace(path[|path| - 1]) && '/' in path && !EndsWith(path, ".git")
    ensures ExtractGithubOwnerRepo("github:" + path) == Some(Lower(path))
  {
    var url := "github:" + path;
    TrimNoop(url);
    assert StartsWith(url, "github:") && url[7..] == path;
    assert StripPrefix(url, "github:") == Some(path);
    assert TrimEndMatches(path, ".git") == path;
    assert ShorthandRepo(url) == Some(Lower(path));
  }

  /** `github_urls_match`: both parse to the same repository. */
  predicate GithubUrlsMatch(url1: string, url2: string) {
    var a := ExtractGithubOwnerRepo(url1);
    var b := ExtractGithubOwnerRepo(url2);
    a.Some? && b.Some? && a.value == b.value
  }

  /** Matching is symmetric, and false when either URL is not a GitHub repository URL. */
  lemma GithubUrlsMatchSpec(url1: string, url2: string)
    ensures GithubUrlsMatch(url1, url2) <==> GithubUrlsMatch(url2, url1)
    ensures ExtractGithubOwnerRepo(url1).None? || ExtractGithubOwnerRepo(url2).None? ==> !GithubUrlsMatch(url1, url2)
    ensures GithubUrlsMatch(url1, url1) <==> ExtractGithubOwnerRepo(url1).Some?
  {
  }

  // The recorded cases below write each URL as host part + path so that the verifier reasons
  // about the two pieces instead of unfolding the whole literal.

  lemma LowerOwnerRepoPlain(o: string, r: string)
    requires o == "owner" && r == "repo"
    ensures Lower(o + "/" + r) == o + "/" + r
  {
    assert Lower("owner") == "owner";
    assert Lower("repo") == "repo";
    LowerConcat(o, "/");
    LowerConcat(o + "/", r);
    assert Lower("/") == "/";
  }

  /** "owner/repo", bare or followed by ".git" or '/'. */
  lemma OwnerRepoLiteral(path: string, suffix: string)
    requires path == "owner/repo"
    requires suffix == "" || suffix == ".git" || suffix == "/"
    ensures OwnerRepoOfPath(path + suffix) == Some(path)
  {
    var o, r := "owner", "repo";
    assert path == o + "/" + r;
    assert path[|path| - 4..] == r;
    assert !EndsWith(path, ".git");
    OwnerRepoOfSimplePath(o, r, suffix);
    LowerOwnerRepoPlain(o, r);
  }

  // The recorded cases take the repository path as a parameter fixed by `requires`.

  lemma HttpsExample(path: string)
    requires path == "owner/repo"
    ensures ExtractGithubOwnerRepo("https://github.com/" + path) == Some("owner/repo")
  {
    OwnerRepoLiteral(path, "");
    assert path + "" == path;
    HttpsForm(path);
  }

  lemma DotGitExample(path: string)
    requires path == "owner/repo"
    ensures ExtractGithubOwnerRepo("https://github.com/" + (path + ".git")) == Some("owner/repo")
  {
    OwnerRepoLiteral(path, ".git");
    HttpsForm(path + ".git");
  }

  lemma GitPlusExample(path: string)
    requires path == "owner/repo"
    ensures ExtractGithubOwnerRepo("git+https://github.com/" + (path + ".git")) == Some("owner/repo")
  {
    OwnerRepoLiteral(path, ".git");
    GitPlusForm(path + ".git");
  }

  lemma SshExample(path: string)
    requires path == "owner/repo"
    ensures ExtractGithubOwnerRepo("git@github.com:" + (path + ".git")) == Some("owner/repo")
  {
    OwnerRepoLiteral(path, ".git");
    SshForm(path + ".git");
  }

  lemma TrailingSlashExample(path: string)
    requires path == "owner/repo"
    ensures ExtractGithubOwnerRepo("https://github.com/" + (path + "/")) == Some("owner/repo")
  {
    OwnerRepoLiteral(path, "/");
    HttpsForm(path + "/");
  }

  lemma ShorthandExample(path: string)
    requires path == "owner/repo"
    ensures ExtractGithubOwnerRepo("github:" + path) == Some("owner/repo")
  {
    var o, r := "owner", "repo";
    assert path == o + "/" + r;
    assert path[5] == '/';
    assert path[|path| - 4..] == r;
    assert !EndsWith(path, ".git");
    LowerOwnerRepoPlain(o, r);
    ShorthandForm(path);
  }

  /** Text that starts with none of the prefixes' first letters keeps all of it. */
  lemma NoSchemeStripped(a: string)
    requires |a| > 0 && a[0] != 'g' && a[0] != 's' && a[0] != 'h'
    ensures StripSchemes(a) == a
  {
  }

  /** A plain word is not a repository. */
  lemma NotAUrlExample(a: string)
    requires a == "not-a-url"
    ensures ExtractGithubOwnerRepo(a) == None
  {
    TrimNoop(a);
    assert !StartsWith(a, "github:");
    ExtractViaHosted(a);
    NoSchemeStripped(a);
  }

  /** An HTTPS URL whose host does not start like "github.com" is not a GitHub repository. */
  lemma OtherHost(rest: string)
    requires |rest| > 3 && !IsWhitespace(rest[|rest| - 1]) && rest[0] != 'h' && rest[3] != '@' && rest[3] != 'h'
    ensures ExtractGithubOwnerRepo("https://" + rest) == None
  {
    var g := "https://" + rest;
    TrimNoop(g);
    assert g[0] == 'h';
    assert !StartsWith(g, "github:") && !StartsWith(g, "git+");
    assert !StartsWith(g, "ssh://") && !StartsWith(g, "git://");
    assert DropPrefix(g, "https://") == rest;
    assert !StartsWith(rest, "http://") && !StartsWith(rest, "git@");
    assert StripSchemes(g) == rest;
    assert !StartsWith(rest, "github.com/") && !StartsWith(rest, "github.com:");
  }

  lemma OtherHostExample()
    ensures ExtractGithubOwnerRepo("https://" + "gitlab.com/owner/repo") == None
  {
    OtherHost("gitlab.com/owner/repo");
  }

  lemma OwnerRepoCase(o: string, r: string)
    requires o == "Owner" && r == "Repo"
    ensures OwnerRepoOfPath(o + "/" + r) == Some("owner/repo")
  {
    var u := o + "/" + r;
    assert u[|u| - 4..] == r;
    assert !EndsWith(u, ".git");
    OwnerRepoOfSimplePath(o, r, "");
    assert u + "" == u;
    LowerOwnerRepo(o, r);
  }

  lemma LowerOwnerRepo(o: string, r: string)
    requires o == "Owner" && r == "Repo"
    ensures Lower(o + "/" + r) == "owner/repo"
  {
    assert Lower("Owner") == "owner";
    assert Lower("Repo") == "repo";
    LowerConcat(o, "/");
    LowerConcat(o + "/", r);
    assert Lower("/") == "/";
    assert "owner" + "/" + "repo" == "owner/repo";
  }

  /** Letter case in owner and repo does not matter. */
  lemma CaseExample(o: string, r: string)
    requires o == "Owner" && r == "Repo"
    ensures ExtractGithubOwnerRepo("https://github.com/" + (o + "/" + r)) == Some("owner/repo")
  {
    OwnerRepoCase(o, r);
    HttpsForm(o + "/" + r);
  }

  /** The recorded matches: two URL forms of one repository, and two letter cases. */
  lemma GitPlusMatchExample(path: string)
    requires path == "owner/repo"
    ensures GithubUrlsMatch("https://github.com/" + path, "git+https://github.com/" + (path + ".git"))
  {
    HttpsExample(path);
    GitPlusExample(path);
  }

  lemma CaseMatchExample(o: string, r: string, path: string)
    requires o == "Owner" && r == "Repo" && path == "owner/repo"
    ensures GithubUrlsMatch("https://github.com/" + (o + "/" + r), "https://github.com/" + path)
  {
    CaseExample(o, r);
    HttpsExample(path);
  }

  // ---------------------------------------------------------------------
  // Post-search filter.

  /** The test inside `filter_github_results`: non-GitHub results are kept, and a GitHub result
      is then matched against registries it cannot be. */
  predicate KeepForEnabled(r: DiscoverResult, enabled: set<string>) {
    if r.source != GitHub then true
    else match r.source
      case CratesIo => "cargo" in enabled
      case PyPI => "pip" in enabled
      case Npm => "npm" in enabled
      case _ => true
  }

  function FilterGithubResults(results: seq<DiscoverResult>, enabled: set<string>): seq<DiscoverResult> {
    if |results| == 0 then []
    else (if KeepForEnabled(results[0], enabled) then [results[0]] else []) + FilterGithubResults(results[1..], enabled)
  }

  /** As written the filter keeps everything: its registry arms are unreachable. */
  lemma {:induction false} FilterGithubResultsIsIdentity(results: seq<DiscoverResult>, enabled: set<string>)
    ensures FilterGithubResults(results, enabled) == results
  {
    if |results| > 0 {
      FilterGithubResultsIsIdentity(results[1..], enabled);
      assert results == [results[0]] + results[1..];
    }
  }

  // ---------------------------------------------------------------------
  // Search sources.

  /** The search implementations, with what the AI search is built from. */
  datatype SearchSource =
    | CratesIoSearch | NpmSearch | PyPISearch | BrewSearch | AptSearch | GitHubSearch
    | AiSearch(installedTools: seq<string>, enabledSources: seq<string>)

  /** The registry search for a package-manager name, if it has one. */
  function RegistrySearch(name: string): Option<SearchSource> {
    if name == "cargo" then Some(CratesIoSearch)
    else if name == "npm" then Some(NpmSearch)
    else if name == "pip" then Some(PyPISearch)
    else if name == "brew" then Some(BrewSearch)
    else if name == "apt" then Some(AptSearch)
    else None
  }

  predicate IsRegistry(s: SearchSource) {
    s in {CratesIoSearch, NpmSearch, PyPISearch, BrewSearch, AptSearch}
  }

  function Registries(enabled: seq<string>): (r: seq<SearchSource>)
    ensures |r| <= |enabled|
  {
    if |enabled| == 0 then []
    else
      var init := Registries(enabled[..|enabled| - 1]);
      var s := RegistrySearch(enabled[|enabled| - 1]);
      if s.Some? then init + [s.value] else init
  }

  /** `get_enabled_sources`: the registries of the enabled names in order, then GitHub, then the
      AI search when a provider is configured. */
  function EnabledSources(enabled: seq<string>, installed: seq<string>, aiConfigured: bool): seq<SearchSource> {
    Registries(enabled) + [GitHubSearch] + (if aiConfigured then [AiSearch(installed, enabled)] else [])
  }

  method GetEnabledSources(enabled: seq<string>, installed: seq<string>, aiConfigured: bool) returns (sources: seq<SearchSource>)
    ensures sources == EnabledSources(enabled, installed, aiConfigured)
  {
    sources := [];
    for i := 0 to |enabled|
      invariant sources == Registries(enabled[..i])
    {
      assert enabled[..i + 1][..i] == enabled[..i];
      var s := RegistrySearch(enabled[i]);
      if s.Some? {
        sources := sources + [s.value];
      }
    }
    assert enabled[..|enabled|] == enabled;
    sources := sources + [GitHubSearch];
    if aiConfigured {
      sources := sources + [AiSearch(installed, enabled)];
    }
  }

  lemma {:induction false} RegistriesSpec(enabled: seq<string>)
    ensures forall s :: s in Registries(enabled) ==> IsRegistry(s)
    ensures forall s :: s in Registries(enabled) <==> exists n :: n in enabled && RegistrySearch(n) == Some(s)
  {
    if |enabled| > 0 {
      var init := enabled[..|enabled| - 1];
      RegistriesSpec(init);
      assert enabled == init + [enabled[|enabled| - 1]];
    }
  }

  /** GitHub is searched exactly once, right after the registries; the AI search is last exactly
      when a provider is configured, and is given every enabled name. */
  lemma EnabledSourcesSpec(enabled: seq<string>, installed: seq<string>, aiConfigured: bool)
    ensures var r := EnabledSources(enabled, installed, aiConfigured);
      && multiset(r)[GitHubSearch] == 1
      && r[|Registries(enabled)|] == GitHubSearch
      && (forall i :: 0 <= i < |Registries(enabled)| ==> IsRegistry(r[i]))
      && (aiConfigured <==> r[|r| - 1].AiSearch?)
      && (aiConfigured ==> r[|r| - 1] == AiSearch(installed, enabled))
      && |r| == |Registries(enabled)| + (if aiConfigured then 2 else 1)
  {
    var reg := Registries(enabled);
    RegistriesSpec(enabled);
    assert GitHubSearch !in reg;
    assert multiset(reg)[GitHubSearch] == 0;
    assert forall i :: 0 <= i < |reg| ==> reg[i] in reg;
  }
}
