// String parsers and mappers of the command-line side: the install-command allow-list that
// turns a suggested command into a program and its arguments, GitHub URL parsing, cutting the
// JSON out of an AI answer, reading a version policy, and the package names and commands of
// a migration between sources.

module Parsers {
  import opened Text
  import opened AppTypes

  datatype Result<T> = Ok(value: T) | Err(error: string)

  // ---------------------------------------------------------------------
  // Whitespace tokens.

  /** A token as `split_whitespace` yields them: non-empty, without whitespace. */
  predicate IsWord(w: string) {
    |w| > 0 && forall i :: 0 <= i < |w| ==> !IsWhitespace(w[i])
  }

  lemma {:induction false} WordPrefixOfWord(w: string, t: string)
    requires IsWord(w)
    requires |t| == 0 || IsWhitespace(t[0])
    ensures WordPrefix(w + t) == w
    decreases |w|
  {
    assert (w + t)[0] == w[0];
    if |w| > 1 {
      assert (w + t)[1..] == w[1..] + t;
      WordPrefixOfWord(w[1..], t);
    } else {
      assert (w + t)[1..] == t;
    }
  }

  /** Splitting words joined by single spaces gives the words back. */
  lemma {:induction false} WordsOfJoin(ws: seq<string>)
    requires forall i :: 0 <= i < |ws| ==> IsWord(ws[i])
    ensures Words(Join(ws, " ")) == ws
    decreases |ws|
  {
    if |ws| == 1 {
      var w := ws[0];
      WordPrefixOfWord(w, "");
      assert w + "" == w;
      assert w[|w|..] == "";
    } else if |ws| > 1 {
      var w := ws[0];
      var rest := Join(ws[1..], " ");
      var s := w + " " + rest;
      assert Join(ws, " ") == s;
      WordPrefixOfWord(w, " " + rest);
      assert w + (" " + rest) == s;
      assert s[|w|..] == " " + rest;
      assert (" " + rest)[1..] == rest;
      WordsOfJoin(ws[1..]);
      assert ws == [w] + ws[1..];
    }
  }

  // ---------------------------------------------------------------------
  // The install-command allow-list.

  /** A command with its program and arguments kept apart, and the text shown to the user. */
  datatype SafeCommand = SafeCommand(program: string, args: seq<string>, display: string)

  /** The token shapes `parse_install_cmd_to_safe_command` accepts, each followed by exactly one
      package name. */
  const InstallShapes: seq<seq<string>> := [
    ["cargo", "install"],
    ["pip", "install"],
    ["pip3", "install"],
    ["pip", "install", "--upgrade"],
    ["pip3", "install", "--upgrade"],
    ["npm", "install", "-g"],
    ["brew", "install"],
    ["sudo", "apt", "install", "-y"],
    ["sudo", "snap", "install"],
    ["flatpak", "install", "-y"]
  ]

  /** Splits `cmd` on whitespace and accepts it only when it is one of the shapes followed by a
      package name that `validPackage` (`validate_package_name`) accepts. */
  function ParseInstallCommand(cmd: string, validPackage: string -> bool): (r: Option<SafeCommand>) {
    var parts := Words(cmd);
    if |parts| < 2 then None
    else
      var shape := parts[..|parts| - 1];
      var package := parts[|parts| - 1];
      if shape in InstallShapes && validPackage(package) then
        Some(SafeCommand(parts[0], parts[1..], cmd))
      else None
  }

  /** The accepted commands are exactly the listed shapes followed by a valid package. */
  lemma ParseInstallCommandAccepts(cmd: string, validPackage: string -> bool)
    ensures var parts := Words(cmd);
      ParseInstallCommand(cmd, validPackage).Some? <==>
        |parts| >= 2 && parts[..|parts| - 1] in InstallShapes && validPackage(parts[|parts| - 1])
  {
  }

  /** The program and its arguments are the command's tokens, the package is the last of them,
      and the command is shown verbatim. */
  lemma ParseInstallCommandTokens(cmd: string, validPackage: string -> bool)
    ensures var r := ParseInstallCommand(cmd, validPackage);
      r.Some? ==>
        && [r.value.program] + r.value.args == Words(cmd) && r.value.display == cmd
        && |r.value.args| >= 1 && validPackage(r.value.args[|r.value.args| - 1])
  {
    var parts := Words(cmd);
    if |parts| >= 2 {
      assert parts == [parts[0]] + parts[1..];
    }
  }

  /** A blank command is refused. */
  lemma BlankCommandRefused(cmd: string, validPackage: string -> bool)
    requires AllWhitespace(cmd)
    ensures ParseInstallCommand(cmd, validPackage).None?
  {
    WordsOfBlank(cmd);
  }

  /** Shapes off the list are refused: an option between `cargo install` and the package, an
      apt install without `-y`, or a second package. */
  lemma UnlistedShapesRefused(cmd: string, validPackage: string -> bool, a: string, b: string)
    requires Words(cmd) == ["cargo", "install", "--git", a]
      || Words(cmd) == ["sudo", "apt", "install", a]
      || Words(cmd) == ["cargo", "install", a, b]
    requires a != "install" && a != "--upgrade" && a != "-g" && a != "-y"
    ensures ParseInstallCommand(cmd, validPackage).None?
  {
    var parts := Words(cmd);
    var shape := parts[..|parts| - 1];
    assert shape == ["cargo", "install", "--git"] || shape == ["sudo", "apt", "install"] || shape == ["cargo", "install", a];
  }

  // ---------------------------------------------------------------------
  // GitHub URLs.

  /** `trim_start_matches` with a string pattern: the prefix removed as often as it occurs. */
  function TrimStartMatches(s: string, p: string): (r: string)
    requires |p| > 0
    ensures |r| <= |s| && r == s[|s| - |r|..]
    ensures !StartsWith(r, p)
    decreases |s|
  {
    if StartsWith(s, p) then TrimStartMatches(s[|p|..], p) else s
  }

  /** Owner and repository: the part before the first `/` and the part after it up to the
      next `/`, the repository without trailing `.git`s. */
  function OwnerRepo(path: string): (r: Option<(string, string)>)
    ensures r.Some? <==> '/' in path
  {
    if '/' in path then
      var k := IndexOf(path, '/');
      Some((path[..k], TrimEndMatches(Before(path[k + 1..], '/'), ".git")))
    else None
  }

  /** The two parts are the first two pieces of splitting the path on `/`, as with `split('/')`
      and a check for at least two pieces. */
  lemma OwnerRepoIsSplit(path: string)
    ensures var parts := Split(path, '/');
      && (OwnerRepo(path).Some? <==> |parts| >= 2)
      && (|parts| >= 2 ==> OwnerRepo(path) == Some((parts[0], TrimEndMatches(parts[1], ".git"))))
  {
    if '/' in path {
      var rest := path[IndexOf(path, '/') + 1..];
      if '/' in rest {
        assert Split(rest, '/')[0] == rest[..IndexOf(rest, '/')];
      } else {
        SplitNoSeparator(rest, '/');
      }
    } else {
      SplitNoSeparator(path, '/');
    }
  }

  /** The path after `https://github.com/`, or else after `http://github.com/`. */
  function WebPath(u: string): (r: Option<string>)
    ensures r.Some? <==> StartsWith(u, "https://github.com/") || StartsWith(u, "http://github.com/")
  {
    match StripPrefix(u, "https://github.com/")
    case Some(path) => Some(path)
    case None => StripPrefix(u, "http://github.com/")
  }

  /** `parse_github_url`: the trimmed input as shorthand `owner/repo`, then as
      `git@github.com:owner/repo`, then as `https://` or `http://github.com/owner/repo`; the
      first form whose path has two parts wins. */
  function ParseGitHubUrl(url: string): (r: Result<(string, string)>)
    ensures r.Err? ==> r.error == "Invalid GitHub URL format: " + Trim(url)
  {
    var u := Trim(url);
    if !Contains(u, "github.com") && '/' in u && ':' !in u && OwnerRepo(u).Some? then
      Ok(OwnerRepo(u).value)
    else if StartsWith(u, "git@github.com:") && OwnerRepo(TrimStartMatches(u, "git@github.com:")).Some? then
      Ok(OwnerRepo(TrimStartMatches(u, "git@github.com:")).value)
    else if WebPath(u).Some? && OwnerRepo(WebPath(u).value).Some? then
      Ok(OwnerRepo(WebPath(u).value).value)
    else Err("Invalid GitHub URL format: " + u)
  }

  /** Without a separator there is one piece, the whole text. */
  lemma {:induction false} SplitNoSeparator(s: string, sep: char)
    requires sep !in s
    ensures Split(s, sep) == [s]
  {
  }

  /** Splitting `a + [sep] + b` with no separator in `a`. */
  lemma SplitFirst(a: string, sep: char, b: string)
    requires sep !in a
    ensures Split(a + [sep] + b, sep) == [a] + Split(b, sep)
  {
    var s := a + [sep] + b;
    assert s[|a|] == sep;
    var k := IndexOf(s, sep);
    assert s[..|a|] == a;
    assert k == |a|;
    assert s[k + 1..] == b;
  }

  /** Text that starts and ends with a non-whitespace character is its own trim. */
  lemma TrimOfEnds(s: string)
    requires |s| > 0 && !IsWhitespace(s[0]) && !IsWhitespace(s[|s| - 1])
    ensures Trim(s) == s
  {
    assert TrimStart(s) == s;
    assert TrimEnd(s) == s;
  }

  /** The first `/` of `owner/...` follows the owner. */
  lemma FirstSlashAfterOwner(owner: string, tail: string)
    requires '/' !in owner
    ensures IndexOf(owner + "/" + tail, '/') == |owner|
    ensures (owner + "/" + tail)[..|owner|] == owner && (owner + "/" + tail)[|owner| + 1..] == tail
  {
    var path := owner + "/" + tail;
    assert path[|owner|] == '/';
    assert path[..|owner|] == owner;
  }
  /** The path part up to the next `/`. */
  lemma BeforeOf(repo: string, rest: string)
    requires '/' !in repo
    requires rest == "" || rest[0] == '/'
    ensures Before(repo + rest, '/') == repo
  {
    var after := repo + rest;
    if rest != "" {
      assert after[|repo|] == '/';
      assert after[..|repo|] == repo;
    } else {
      assert after == repo;
    }
  }
  /** `owner/repo`, followed by nothing or by more path, names that owner and repository. */
  lemma OwnerRepoOf(owner: string, repo: string, rest: string)
    requires '/' !in owner && '/' !in repo
    requires rest == "" || rest[0] == '/'
    ensures OwnerRepo(owner + "/" + repo + rest) == Some((owner, TrimEndMatches(repo, ".git")))
  {
    var tail := repo + rest;
    assert owner + "/" + repo + rest == owner + "/" + tail;
    FirstSlashAfterOwner(owner, tail);
    BeforeOf(repo, rest);
  }

  /** A URL of the web form names the parts of its path. */
  lemma WebFormSteps(u: string)
    requires Trim(u) == u && Contains(u, "github.com") && !StartsWith(u, "git@github.com:")
    requires WebPath(u).Some?
    ensures ParseGitHubUrl(u).Ok? <==> OwnerRepo(WebPath(u).value).Some?
    ensures OwnerRepo(WebPath(u).value).Some? ==> ParseGitHubUrl(u) == Ok(OwnerRepo(WebPath(u).value).value)
  {
  }

  /** The prefixes of the web form. */
  predicate IsWebPrefix(host: string) {
    host == "https://github.com/" || host == "http://github.com/"
  }

  /** A web URL mentions `github.com`, is not of the SSH form, and has its path after the
      prefix. */
  lemma WebUrlPath(host: string, path: string)
    requires IsWebPrefix(host)
    ensures WebPath(host + path) == Some(path)
    ensures Contains(host + path, "github.com")
    ensures !StartsWith(host + path, "git@github.com:")
  {
    var url := host + path;
    var i := |host| - 11;
    assert url[i..][..10] == "github.com";
    assert StartsWith(url[i..], "github.com");
    assert url[..|host|] == host;
    assert url[|host|..] == path;
    assert !StartsWith(url, "git@github.com:") by {
      assert url[..15][0] == 'h';
    }
    if host == "http://github.com/" {
      assert !StartsWith(url, "https://github.com/") by {
        if |url| >= 19 {
          assert url[..19][4] == ':';
        }
      }
    }
  }

  /** The web forms `https://github.com/<path>` and `http://github.com/<path>` succeed exactly
      when the path has two parts, and then name them. */
  lemma WebForm(host: string, path: string)
    requires IsWebPrefix(host)
    requires |path| > 0 && !IsWhitespace(path[|path| - 1])
    ensures ParseGitHubUrl(host + path).Ok? <==> OwnerRepo(path).Some?
    ensures OwnerRepo(path).Some? ==> ParseGitHubUrl(host + path) == Ok(OwnerRepo(path).value)
  {
    var url := host + path;
    assert url[0] == 'h' && url[|url| - 1] == path[|path| - 1];
    TrimOfEnds(url);
    WebUrlPath(host, path);
    WebFormSteps(url);
  }

  /** A URL of the SSH form names the parts of what follows the prefix. */
  lemma SshFormSteps(u: string)
    requires Trim(u) == u && StartsWith(u, "git@github.com:") && ':' in u && WebPath(u).None?
    ensures var stripped := TrimStartMatches(u, "git@github.com:");
      && (ParseGitHubUrl(u).Ok? <==> OwnerRepo(stripped).Some?)
      && (OwnerRepo(stripped).Some? ==> ParseGitHubUrl(u) == Ok(OwnerRepo(stripped).value))
  {
  }

  /** The prefix, the `:` and the path of an SSH URL. */
  lemma SshUrlPath(path: string)
    ensures var url := "git@github.com:" + path;
      && StartsWith(url, "git@github.com:") && ':' in url && WebPath(url).None?
      && TrimStartMatches(url, "git@github.com:") == TrimStartMatches(path, "git@github.com:")
  {
    var url := "git@github.com:" + path;
    assert url[14] == ':';
    assert url[..15] == "git@github.com:";
    assert url[15..] == path;
    assert !StartsWith(url, "https://github.com/") by {
      if |url| >= 19 {
        assert url[..19][0] == 'g';
      }
    }
    assert !StartsWith(url, "http://github.com/") by {
      if |url| >= 18 {
        assert url[..18][0] == 'g';
      }
    }
  }

  /** The SSH form `git@github.com:<path>` succeeds exactly when the path, with every leading
      repetition of the prefix removed, has two parts, and then names them. */
  lemma SshForm(path: string)
    requires |path| > 0 && !IsWhitespace(path[|path| - 1])
    ensures var url := "git@github.com:" + path;
      var stripped := TrimStartMatches(path, "git@github.com:");
      && (ParseGitHubUrl(url).Ok? <==> OwnerRepo(stripped).Some?)
      && (OwnerRepo(stripped).Some? ==> ParseGitHubUrl(url) == Ok(OwnerRepo(stripped).value))
  {
    var url := "git@github.com:" + path;
    assert url[0] == 'g' && url[|url| - 1] == path[|path| - 1];
    TrimOfEnds(url);
    SshUrlPath(path);
    SshFormSteps(url);
  }

  /** The shorthand `owner/repo` (some `/`, no `:`, no `github.com`) names its first two parts. */
  lemma ShorthandForm(path: string)
    requires |path| > 0 && !IsWhitespace(path[0]) && !IsWhitespace(path[|path| - 1])
    requires '/' in path && ':' !in path && !Contains(path, "github.com")
    ensures OwnerRepo(path).Some? && ParseGitHubUrl(path) == Ok(OwnerRepo(path).value)
  {
    TrimOfEnds(path);
  }

  /** Owner and repository come out in their own letter case, without a trailing `.git`, from
      all three forms. */
  lemma GitHubUrlForms(owner: string, repo: string)
    requires IsWord(owner) && IsWord(repo) && '/' !in owner && '/' !in repo
    requires ':' !in owner && ':' !in repo
    ensures var path, expected := owner + "/" + repo, Ok((owner, TrimEndMatches(repo, ".git")));
      && ParseGitHubUrl("https://github.com/" + path) == expected
      && ParseGitHubUrl("http://github.com/" + path) == expected
      && ParseGitHubUrl("git@github.com:" + path) == expected
  {
    var path := owner + "/" + repo;
    OwnerRepoOfPair(owner, repo);
    WebForm("https://github.com/", path);
    WebForm("http://github.com/", path);
    SshForm(path);
    NoColonNotSsh(path);
  }

  /** Extra path segments after the repository are ignored. */
  lemma WebUrlExtraSegments(host: string, owner: string, repo: string, rest: string)
    requires IsWebPrefix(host)
    requires '/' !in owner && '/' !in repo && |rest| > 0 && rest[0] == '/'
    requires !IsWhitespace(rest[|rest| - 1])
    ensures ParseGitHubUrl(host + (owner + "/" + repo + rest)) == Ok((owner, TrimEndMatches(repo, ".git")))
  {
    var path := owner + "/" + repo + rest;
    OwnerRepoOf(owner, repo, rest);
    assert path[|path| - 1] == rest[|rest| - 1];
    WebForm(host, path);
  }

  /** Trimming twice is trimming once. */
  lemma TrimIdempotent(s: string)
    ensures Trim(Trim(s)) == Trim(s)
  {
    var t := Trim(s);
    if |t| > 0 {
      TrimOfEnds(t);
    }
  }

  /** Surrounding whitespace does not matter: the input is trimmed first. */
  lemma ParseGitHubUrlTrims(url: string)
    ensures ParseGitHubUrl(Trim(url)) == ParseGitHubUrl(url)
  {
    TrimIdempotent(url);
  }

  /** `owner/repo` names that owner and repository and ends like the repository. */
  lemma OwnerRepoOfPair(owner: string, repo: string)
    requires IsWord(owner) && IsWord(repo) && '/' !in owner && '/' !in repo
    ensures var path := owner + "/" + repo;
      && OwnerRepo(path) == Some((owner, TrimEndMatches(repo, ".git")))
      && |path| > 0 && !IsWhitespace(path[|path| - 1])
  {
    var path := owner + "/" + repo;
    OwnerRepoOf(owner, repo, "");
    assert path + "" == path;
    assert path[|path| - 1] == repo[|repo| - 1];
  }

  /** Text without a `:` does not start with the SSH prefix. */
  lemma NoColonNotSsh(s: string)
    requires ':' !in s
    ensures !StartsWith(s, "git@github.com:")
  {
    if |s| >= 15 {
      assert s[..15][14] == s[14];
    }
  }

  /** Both web prefixes contain a `/`. */
  lemma NoSlashNotWeb(u: string)
    requires '/' !in u
    ensures WebPath(u).None?
  {
    if |u| >= 18 {
      assert u[..18][6] == u[6] && u[6] != '/';
    }
    if |u| >= 19 {
      assert u[..19][6] == u[6];
    }
  }

  /** Without a `/` no form yields two parts, so the input is refused. */
  lemma NoSlashRefused(url: string)
    requires '/' !in Trim(url)
    ensures ParseGitHubUrl(url).Err?
  {
    var u := Trim(url);
    var p := TrimStartMatches(u, "git@github.com:");
    assert p == u[|u| - |p|..];
    assert '/' !in p;
    NoSlashNotWeb(u);
  }

  /** A trimmed input with a `:` that has neither the SSH prefix nor a web prefix is refused. */
  lemma RefusedOffForms(url: string)
    requires ':' in Trim(url)
    requires !StartsWith(Trim(url), "git@github.com:") && WebPath(Trim(url)).None?
    ensures ParseGitHubUrl(url).Err?
  {
  }

  /** A GitLab URL has a `:` and none of the GitHub prefixes. */
  lemma GitLabPrefixes(u: string)
    requires StartsWith(u, "https://gitlab.com/")
    ensures ':' in u
    ensures !StartsWith(u, "git@github.com:") && WebPath(u).None?
  {
    assert u[..19] == "https://gitlab.com/";
    assert u[5] == ':';
    assert !StartsWith(u, "git@github.com:") by {
      assert u[0] == 'h';
    }
    assert !StartsWith(u, "https://github.com/") by {
      assert u[11] == 'l';
    }
    assert !StartsWith(u, "http://github.com/") by {
      assert u[4] == 's';
    }
  }

  /** A URL of another host, such as `https://gitlab.com/owner/repo`, is refused. */
  lemma OtherHostRefused(url: string)
    requires StartsWith(Trim(url), "https://gitlab.com/")
    ensures ParseGitHubUrl(url).Err?
  {
    GitLabPrefixes(Trim(url));
    RefusedOffForms(url);
  }

  // ---------------------------------------------------------------------
  // JSON in an AI answer.

  /** From the first `open` through the last `close`, or the error for a missing opening
      character, a missing closing character, or a closing one that comes first. */
  function ExtractBetween(response: string, open: char, close: char, noOpen: string, noClose: string): (r: Result<string>)
    requires open != close
  {
    if open !in response then Err(noOpen)
    else if close !in response then Err(noClose)
    else
      var start := IndexOf(response, open);
      var end := LastIndexOf(response, close);
      if end <= start then Err("Invalid JSON structure in response")
      else Ok(response[start..end + 1])
  }

  /** `extract_json_object`. */
  function ExtractJsonObject(response: string): Result<string> {
    ExtractBetween(response, '{', '}', "No JSON object found in response", "No closing brace found in response")
  }

  /** `extract_json_array`. */
  function ExtractJsonArray(response: string): Result<string> {
    ExtractBetween(response, '[', ']', "No JSON array found in response", "No closing bracket found in response")
  }

  /** The cut runs from the first opening character to the last closing one, so it starts and
      ends with them; it fails exactly when one of them is missing or the last closing character
      precedes the first opening one. */
  lemma ExtractBetweenSpec(response: string, open: char, close: char, noOpen: string, noClose: string)
    requires open != close
    ensures var r := ExtractBetween(response, open, close, noOpen, noClose);
      r.Ok? <==> open in response && close in response && IndexOf(response, open) < LastIndexOf(response, close)
    ensures var r := ExtractBetween(response, open, close, noOpen, noClose);
      r.Ok? ==> var a, b := IndexOf(response, open), LastIndexOf(response, close);
        r.value == response[a..b + 1] && open !in response[..a] && close !in response[b + 1..]
    ensures var r := ExtractBetween(response, open, close, noOpen, noClose);
      r.Ok? ==> |r.value| >= 2 && r.value[0] == open && r.value[|r.value| - 1] == close
    ensures open !in response ==> ExtractBetween(response, open, close, noOpen, noClose) == Err(noOpen)
    ensures open in response && close !in response ==> ExtractBetween(response, open, close, noOpen, noClose) == Err(noClose)
  {
    if open in response && close in response {
      var a := IndexOf(response, open);
      var b := LastIndexOf(response, close);
      if a < b {
        assert response[a..b + 1][0] == open;
      }
    }
  }

  /** Cutting an already cut answer changes nothing. */
  lemma ExtractBetweenIdempotent(response: string, open: char, close: char, noOpen: string, noClose: string)
    requires open != close
    requires ExtractBetween(response, open, close, noOpen, noClose).Ok?
    ensures var cut := ExtractBetween(response, open, close, noOpen, noClose).value;
      ExtractBetween(cut, open, close, noOpen, noClose) == Ok(cut)
  {
    var a := IndexOf(response, open);
    var b := LastIndexOf(response, close);
    var cut := response[a..b + 1];
    assert cut[0] == open;
    assert IndexOf(cut, open) == 0;
    assert cut[|cut| - 1] == close;
    assert cut[0..|cut|] == cut;
  }

  /** An extracted tool as the AI describes it; the JSON parsing itself is not modelled. */
  datatype ExtractedTool = ExtractedTool(name: string, description: string)

  /** `parse_extract_response`: cut out the JSON object, parse it with `parse` (absent when the
      JSON is malformed), and insist on a name and a description. */
  function ParseExtractResponse(response: string, parse: string -> Option<ExtractedTool>): (r: Result<ExtractedTool>)
    ensures r.Ok? ==> r.value.name != "" && r.value.description != ""
    ensures ExtractJsonObject(response).Err? ==> r == Err(ExtractJsonObject(response).error)
    ensures ExtractJsonObject(response).Ok? ==>
      var parsed := parse(ExtractJsonObject(response).value);
      && (parsed.None? ==> r == Err("Failed to parse AI extraction response"))
      && (parsed.Some? && parsed.value.name == "" ==> r == Err("Extracted tool has no name"))
      && (parsed.Some? && parsed.value.name != "" && parsed.value.description == "" ==>
            r == Err("Extracted tool has no description"))
      && (parsed.Some? && parsed.value.name != "" && parsed.value.description != "" ==> r == Ok(parsed.value))
  {
    match ExtractJsonObject(response)
    case Err(e) => Err(e)
    case Ok(json) =>
      match parse(json)
      case None => Err("Failed to parse AI extraction response")
      case Some(tool) =>
        if tool.name == "" then Err("Extracted tool has no name")
        else if tool.description == "" then Err("Extracted tool has no description")
        else Ok(tool)
  }

  // ---------------------------------------------------------------------
  // Version policies on the command line.

  /** `parse_policy`: case-insensitive; `pin` is accepted for pinned. */
  function ParsePolicy(s: string): (r: Result<VersionPolicy>)
    ensures r.Err? ==> r.error == "Invalid policy '" + s + "'. Valid options: latest, stable, pinned"
  {
    var l := Lower(s);
    if l == "latest" then Ok(Latest)
    else if l == "stable" then Ok(Stable)
    else if l == "pinned" || l == "pin" then Ok(Pinned)
    else Err("Invalid policy '" + s + "'. Valid options: latest, stable, pinned")
  }

  function PolicyName(p: VersionPolicy): string {
    match p
    case Latest => "latest"
    case Stable => "stable"
    case Pinned => "pinned"
  }

  /** Parsing accepts exactly the four lower-cased words, reads them as their policies, and
      only the case-folded text matters. */
  lemma ParsePolicySpec(s: string, t: string)
    ensures ParsePolicy(s).Ok? <==> Lower(s) in {"latest", "stable", "pinned", "pin"}
    ensures Lower(s) == "latest" ==> ParsePolicy(s) == Ok(Latest)
    ensures Lower(s) == "stable" ==> ParsePolicy(s) == Ok(Stable)
    ensures Lower(s) == "pinned" || Lower(s) == "pin" ==> ParsePolicy(s) == Ok(Pinned)
    ensures Lower(s) == Lower(t) && ParsePolicy(s).Ok? ==> ParsePolicy(t) == ParsePolicy(s)
  {
  }

  /** Every policy's own name parses back to it, in any letter case. */
  lemma PolicyNameRoundTrip(p: VersionPolicy, s: string)
    requires Lower(s) == PolicyName(p)
    ensures ParsePolicy(PolicyName(p)) == Ok(p)
    ensures ParsePolicy(s) == Ok(p)
  {
    LowerOfLower(PolicyName(p));
  }

  // ---------------------------------------------------------------------
  // Migrations between sources.

  /** `get_target_package_name`: the name a tool has on the target source. */
  function TargetPackageName(tool: string, target: string): string {
    if target == "cargo" then
      if tool == "fd" || tool == "fd-find" then "fd-find"
      else if tool == "dust" then "du-dust"
      else if tool == "delta" || tool == "git-delta" then "git-delta"
      else if tool == "tldr" || tool == "tealdeer" then "tealdeer"
      else tool
    else tool
  }

  /** The renames for cargo, and every other name or target unchanged. */
  lemma TargetPackageNames(tool: string, target: string)
    ensures TargetPackageName("fd", "cargo") == "fd-find" && TargetPackageName("fd-find", "cargo") == "fd-find"
    ensures TargetPackageName("dust", "cargo") == "du-dust"
    ensures TargetPackageName("delta", "cargo") == "git-delta" && TargetPackageName("git-delta", "cargo") == "git-delta"
    ensures TargetPackageName("tldr", "cargo") == "tealdeer" && TargetPackageName("tealdeer", "cargo") == "tealdeer"
    ensures target != "cargo" ==> TargetPackageName(tool, target) == tool
    ensures tool !in {"fd", "dust", "delta", "tldr", "fd-find", "git-delta", "tealdeer"} ==> TargetPackageName(tool, target) == tool
  {
  }

  /** Mapping a name that is already the target's name changes nothing. */
  lemma TargetPackageNameIdempotent(tool: string, target: string)
    ensures TargetPackageName(TargetPackageName(tool, target), target) == TargetPackageName(tool, target)
  {
  }

  /** What comes before the packages in a migration group's install command: the target's
      install command, or a comment for a target without one. */
  function InstallPrefix(to: string): string {
    if to == "cargo" then "cargo install "
    else if to == "pip" then "pip install "
    else if to == "npm" then "npm install -g "
    else "# Install from " + to + ": "
  }

  /** What comes before the tools in a migration group's uninstall command. */
  function UninstallPrefix(from: string): string {
    if from == "apt" then "sudo apt remove "
    else if from == "snap" then "sudo snap remove "
    else if from == "cargo" then "cargo uninstall "
    else if from == "pip" then "pip uninstall -y "
    else if from == "npm" then "npm uninstall -g "
    else "# Uninstall from " + from + ": "
  }

  /** The install command of a migration group, on the target package names. */
  function MigrationInstall(to: string, packages: seq<string>): (r: string)
    ensures StartsWith(r, InstallPrefix(to)) && EndsWith(r, Join(packages, " "))
    ensures |r| == |InstallPrefix(to)| + |Join(packages, " ")|
  {
    var r := InstallPrefix(to) + Join(packages, " ");
    assert r[..|InstallPrefix(to)|] == InstallPrefix(to);
    assert r[|InstallPrefix(to)|..] == Join(packages, " ");
    r
  }

  /** The uninstall command of a migration group, on the tools' original names. */
  function MigrationUninstall(from: string, tools: seq<string>): (r: string)
    ensures StartsWith(r, UninstallPrefix(from)) && EndsWith(r, Join(tools, " "))
    ensures |r| == |UninstallPrefix(from)| + |Join(tools, " ")|
  {
    var r := UninstallPrefix(from) + Join(tools, " ");
    assert r[..|UninstallPrefix(from)|] == UninstallPrefix(from);
    assert r[|UninstallPrefix(from)|..] == Join(tools, " ");
    r
  }

  /** The allow-list shape of the install commands of cargo, pip and npm. */
  function InstallShapeOf(to: string): seq<string>
    requires to == "cargo" || to == "pip" || to == "npm"
  {
    if to == "cargo" then ["cargo", "install"]
    else if to == "pip" then ["pip", "install"]
    else ["npm", "install", "-g"]
  }

  /** Joining a non-empty tail behind a first part. */
  lemma JoinCons(w: string, rest: seq<string>, sep: string)
    requires |rest| > 0
    ensures Join([w] + rest, sep) == w + sep + Join(rest, sep)
  {
    assert ([w] + rest)[1..] == rest;
  }

  /** The npm install command as joined words. */
  lemma NpmInstallJoin(package: string)
    ensures MigrationInstall("npm", [package]) == Join(["npm", "install", "-g", package], " ")
  {
    assert Join([package], " ") == package;
    JoinCons("-g", [package], " ");
    assert ["install", "-g", package] == ["install"] + ["-g", package];
    JoinCons("install", ["-g", package], " ");
    assert ["npm", "install", "-g", package] == ["npm"] + ["install", "-g", package];
    JoinCons("npm", ["install", "-g", package], " ");
    assert MigrationInstall("npm", [package]) == "npm" + " " + ("install" + " " + ("-g" + " " + package));
  }

  /** The cargo and pip install commands as joined words. */
  lemma PlainInstallJoin(to: string, package: string)
    requires to == "cargo" || to == "pip"
    ensures MigrationInstall(to, [package]) == Join([to, "install", package], " ")
  {
    assert Join([package], " ") == package;
    JoinCons("install", [package], " ");
    assert [to, "install", package] == [to] + ["install", package];
    JoinCons(to, ["install", package], " ");
    assert MigrationInstall(to, [package]) == to + " " + ("install" + " " + package);
  }

  /** A one-package install command for cargo, pip or npm is its shape and package joined by
      single spaces. */
  lemma MigrationInstallJoin(to: string, package: string)
    requires to == "cargo" || to == "pip" || to == "npm"
    ensures MigrationInstall(to, [package]) == Join(InstallShapeOf(to) + [package], " ")
  {
    if to == "npm" {
      NpmInstallJoin(package);
      assert InstallShapeOf(to) + [package] == ["npm", "install", "-g", package];
    } else {
      PlainInstallJoin(to, package);
      assert InstallShapeOf(to) + [package] == [to, "install", package];
    }
  }

  /** A single-package install command for cargo, pip or npm is one the install allow-list
      accepts (for a package name it deems valid), run as that source's program with the
      package as its last argument. */
  lemma MigrationInstallAccepted(to: string, package: string, validPackage: string -> bool)
    requires to == "cargo" || to == "pip" || to == "npm"
    requires IsWord(package) && validPackage(package)
    ensures var cmd := MigrationInstall(to, [package]);
      var r := ParseInstallCommand(cmd, validPackage);
      && r.Some? && r.value.program == to && r.value.display == cmd
      && |r.value.args| >= 1 && r.value.args[|r.value.args| - 1] == package
  {
    var cmd := MigrationInstall(to, [package]);
    var ws := InstallShapeOf(to) + [package];
    MigrationInstallWords(to, package);
    ShapeListed(to);
    assert ws[..|ws| - 1] == InstallShapeOf(to);
    ParseInstallCommandAccepts(cmd, validPackage);
    ParseInstallCommandTokens(cmd, validPackage);
  }

  /** The shapes of cargo, pip and npm are on the allow-list and start with the source. */
  lemma ShapeListed(to: string)
    requires to == "cargo" || to == "pip" || to == "npm"
    ensures InstallShapeOf(to) in InstallShapes && InstallShapeOf(to)[0] == to
  {
    if to == "cargo" {
      assert InstallShapes[0] == InstallShapeOf(to);
    } else if to == "pip" {
      assert InstallShapes[1] == InstallShapeOf(to);
    } else {
      assert InstallShapes[5] == InstallShapeOf(to);
    }
  }

  /** The one-package install command splits into its shape and the package. */
  lemma MigrationInstallWords(to: string, package: string)
    requires to == "cargo" || to == "pip" || to == "npm"
    requires IsWord(package)
    ensures Words(MigrationInstall(to, [package])) == InstallShapeOf(to) + [package]
  {
    var ws := InstallShapeOf(to) + [package];
    forall i | 0 <= i < |ws|
      ensures IsWord(ws[i])
    {
    }
    WordsOfJoin(ws);
    MigrationInstallJoin(to, package);
  }

  /** Targets and sources without a known command get a comment instead. */
  lemma MigrationCommentsFallback(to: string, from: string, packages: seq<string>, tools: seq<string>)
    ensures to !in {"cargo", "pip", "npm"} ==> StartsWith(MigrationInstall(to, packages), "# Install from ")
    ensures from !in {"apt", "snap", "cargo", "pip", "npm"} ==> StartsWith(MigrationUninstall(from, tools), "# Uninstall from ")
  {
    var i := MigrationInstall(to, packages);
    var u := MigrationUninstall(from, tools);
    if to !in {"cargo", "pip", "npm"} {
      assert InstallPrefix(to) == "# Install from " + (to + ": ");
      assert i[..15] == InstallPrefix(to)[..15];
    }
    if from !in {"apt", "snap", "cargo", "pip", "npm"} {
      assert UninstallPrefix(from) == "# Uninstall from " + (from + ": ");
      assert u[..17] == UninstallPrefix(from)[..17];
    }
  }
}
