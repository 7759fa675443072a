// The README popup of the Discover tab: opening it from a result's URL, scrolling, the link
// picker, and the links found in the README text.

module Readme {
  import opened Text

  // ---------------------------------------------------------------------
  // Links in a README.

  /** First position at or after `from` that holds `c`. */
  function FindChar(s: string, from: nat, c: char): (r: Option<nat>)
    requires from <= |s|
    ensures r.Some? ==> from <= r.value < |s| && s[r.value] == c
    ensures r.Some? ==> forall k :: from <= k < r.value ==> s[k] != c
    ensures r.None? ==> forall k :: from <= k < |s| ==> s[k] != c
    decreases |s| - from
  {
    if from == |s| then None
    else if s[from] == c then Some(from)
    else FindChar(s, from + 1, c)
  }

  /** A markdown link `[text](url)` starting at `i`, with the position after it. The text runs
      to the first `]` and the url to the first `)`; both are non-empty. */
  function MarkdownLinkAt(s: string, i: nat): (r: Option<(string, string, nat)>)
    requires i <= |s|
    ensures r.Some? ==> i < r.value.2 <= |s|
    ensures r.Some? ==> |r.value.0| > 0 && ']' !in r.value.0 && |r.value.1| > 0 && ')' !in r.value.1
    ensures r.Some? ==> s[i..r.value.2] == "[" + r.value.0 + "](" + r.value.1 + ")"
  {
    if i < |s| && s[i] == '[' then
      match FindChar(s, i + 1, ']')
      case None => None
      case Some(j) =>
        if j > i + 1 && j + 1 < |s| && s[j + 1] == '(' then
          (match FindChar(s, j + 2, ')')
           case None => None
           case Some(k) =>
             if k > j + 2 then
               assert s[i..k + 1] == "[" + s[i + 1..j] + "](" + s[j + 2..k] + ")";
               Some((s[i + 1..j], s[j + 2..k], k + 1))
             else None)
        else None
    else None
  }

  /** The markdown links from position `i` on, left to right, without overlaps. */
  function MarkdownLinks(s: string, i: nat): (r: seq<(string, string)>)
    requires i <= |s|
    ensures forall k :: 0 <= k < |r| ==> |r[k].0| > 0 && |r[k].1| > 0 && ')' !in r[k].1
    decreases |s| - i
  {
    if i == |s| then []
    else match MarkdownLinkAt(s, i)
      case Some((text, url, next)) => [(text, url)] + MarkdownLinks(s, next)
      case None => MarkdownLinks(s, i + 1)
  }

  /** Characters a bare URL may contain: no whitespace, `)`, `]`, `<` or `>`. */
  predicate UrlChar(c: char) {
    !IsWhitespace(c) && c != ')' && c != ']' && c != '<' && c != '>'
  }

  /** End of the longest run of URL characters from `from`. */
  function UrlEnd(s: string, from: nat): (r: nat)
    requires from <= |s|
    ensures from <= r <= |s|
    ensures forall k :: from <= k < r ==> UrlChar(s[k])
    ensures r < |s| ==> !UrlChar(s[r])
    decreases |s| - from
  {
    if from < |s| && UrlChar(s[from]) then UrlEnd(s, from + 1) else from
  }

  /** A bare `http://` or `https://` URL starting at `i`, with at least one character after the
      scheme, taken as long as possible. */
  function BareUrlAt(s: string, i: nat): (r: Option<(string, nat)>)
    requires i <= |s|
    ensures r.Some? ==> i < r.value.1 <= |s| && r.value.0 == s[i..r.value.1]
    ensures r.Some? ==> StartsWith(r.value.0, "http://") || StartsWith(r.value.0, "https://")
  {
    if StartsWith(s[i..], "https://") && UrlEnd(s, i + 8) > i + 8 then
      assert s[i..UrlEnd(s, i + 8)][..8] == s[i..][..8];
      Some((s[i..UrlEnd(s, i + 8)], UrlEnd(s, i + 8)))
    else if StartsWith(s[i..], "http://") && UrlEnd(s, i + 7) > i + 7 then
      assert s[i..UrlEnd(s, i + 7)][..7] == s[i..][..7];
      Some((s[i..UrlEnd(s, i + 7)], UrlEnd(s, i + 7)))
    else None
  }

  /** The bare URLs from position `i` on, left to right, without overlaps. */
  function BareUrls(s: string, i: nat): (r: seq<string>)
    requires i <= |s|
    ensures forall k :: 0 <= k < |r| ==> StartsWith(r[k], "http://") || StartsWith(r[k], "https://")
    decreases |s| - i
  {
    if i == |s| then []
    else match BareUrlAt(s, i)
      case Some((url, next)) => [url] + BareUrls(s, next)
      case None => BareUrls(s, i + 1)
  }

  function UrlsOf(links: seq<(string, string)>): seq<string> {
    seq(|links|, k requires 0 <= k < |links| => links[k].1)
  }

  /** Appends each URL, as its own text, unless a link with that URL is already there. */
  function AddBare(links: seq<(string, string)>, urls: seq<string>): seq<(string, string)>
    decreases |urls|
  {
    if |urls| == 0 then links
    else AddBare(if urls[0] in UrlsOf(links) then links else links + [(urls[0], urls[0])], urls[1..])
  }

  /** `extract_markdown_links`: the markdown links in order, then every bare URL not already
      present. */
  function ExtractLinks(content: string): seq<(string, string)> {
    AddBare(MarkdownLinks(content, 0), BareUrls(content, 0))
  }

  /** Adding bare URLs keeps the links already there in front, makes every URL present, and
      appends only new URLs, each once and labelled with itself. */
  lemma {:induction false} AddBareSpec(links: seq<(string, string)>, urls: seq<string>)
    ensures var r := AddBare(links, urls);
      && |links| <= |r| && r[..|links|] == links
      && (forall u :: u in urls ==> u in UrlsOf(r))
      && (forall k :: |links| <= k < |r| ==> r[k].0 == r[k].1 && r[k].1 in urls)
      && (forall k :: |links| <= k < |r| ==> r[k].1 !in UrlsOf(r[..k]))
    decreases |urls|
  {
    if |urls| > 0 {
      var next := if urls[0] in UrlsOf(links) then links else links + [(urls[0], urls[0])];
      AddBareSpec(next, urls[1..]);
      var r := AddBare(links, urls);
      assert r == AddBare(next, urls[1..]);
      assert r[..|next|] == next by {
        assert |next| <= |r|;
      }
      if urls[0] !in UrlsOf(links) {
        assert UrlsOf(next)[|links|] == urls[0];
      }
      assert urls[0] in UrlsOf(next);
      assert UrlsOf(next) == UrlsOf(r[..|next|]);
      forall u | u in urls
        ensures u in UrlsOf(r)
      {
        if u == urls[0] {
          var k :| 0 <= k < |next| && UrlsOf(next)[k] == u;
          assert UrlsOf(r)[k] == u;
        } else {
          assert u in urls[1..];
        }
      }
      forall k | |links| <= k < |r|
        ensures r[k].0 == r[k].1 && r[k].1 in urls && r[k].1 !in UrlsOf(r[..k])
      {
        if k < |next| {
          assert k == |links| && next == links + [(urls[0], urls[0])];
          assert r[k] == next[k];
          assert r[..k] == links;
        } else {
          assert r[k].1 in urls[1..];
        }
      }
    }
  }

  /** The extracted links: the markdown links come first and in order; every bare URL is among
      the links; each link added for a bare URL shows that URL as its text and repeats no URL
      before it. */
  lemma ExtractLinksSpec(content: string)
    ensures var md := MarkdownLinks(content, 0);
      var r := ExtractLinks(content);
      && |md| <= |r| && r[..|md|] == md
      && (forall u :: u in BareUrls(content, 0) ==> u in UrlsOf(r))
      && (forall k :: |md| <= k < |r| ==> r[k].0 == r[k].1 && r[k].1 in BareUrls(content, 0))
      && (forall k :: |md| <= k < |r| ==> r[k].1 !in UrlsOf(r[..k]))
      && (forall k :: 0 <= k < |r| ==> |r[k].1| > 0)
  {
    var md := MarkdownLinks(content, 0);
    var bare := BareUrls(content, 0);
    AddBareSpec(md, bare);
    var r := ExtractLinks(content);
    forall k | 0 <= k < |r|
      ensures |r[k].1| > 0
    {
      if k < |md| {
        assert r[k] == md[k];
      } else {
        assert StartsWith(r[k].1, "http://") || StartsWith(r[k].1, "https://");
      }
    }
  }

  // ---------------------------------------------------------------------
  // Locating the README on GitHub.

  /** `owner/repo` of a GitHub URL as `github_readme_url` extracts it: the `https://github.com/`
      or `http://github.com/` prefix removed (the URL kept when it has neither), then trailing
      slashes and trailing `.git`s removed. */
  function RepoPath(url: string): (r: string)
    ensures !EndsWith(r, ".git")
    ensures var stripped := if StartsWith(url, "https://github.com/") then url[19..]
        else if StartsWith(url, "http://github.com/") then url[18..] else url;
      |r| <= |stripped| && r == stripped[..|r|]
  {
    var stripped := match StripPrefix(url, "https://github.com/")
      case Some(rest) => rest
      case None => (match StripPrefix(url, "http://github.com/") case Some(rest) => rest case None => url);
    var noSlash := TrimEndMatches(stripped, "/");
    var r := TrimEndMatches(noSlash, ".git");
    assert stripped[..|r|] == noSlash[..|r|];
    r
  }

  /** The file names `find_readme_filename` accepts, compared case-insensitively. */
  const ReadmeNames: seq<string> := ["readme.md", "readme.adoc", "readme.rst", "readme.txt", "readme"]

  /** The first listed file whose lowercased name is one of the README names. */
  function FindReadmeName(files: seq<string>): (r: Option<string>)
    ensures r.Some? ==> r.value in files && Lower(r.value) in ReadmeNames
    ensures r.None? <==> forall f :: f in files ==> Lower(f) !in ReadmeNames
  {
    if |files| == 0 then None
    else if Lower(files[0]) in ReadmeNames then Some(files[0])
    else FindReadmeName(files[1..])
  }

  lemma FindReadmeNameIsFirst(files: seq<string>, k: nat)
    requires k < |files| && Lower(files[k]) in ReadmeNames
    requires forall j :: 0 <= j < k ==> Lower(files[j]) !in ReadmeNames
    ensures FindReadmeName(files) == Some(files[k])
    decreases k
  {
    if k > 0 {
      FindReadmeNameIsFirst(files[1..], k - 1);
    }
  }

  // ---------------------------------------------------------------------
  // The popup.

  newtype u16 = x: int | 0 <= x < 0x1_0000

  const U16Max: u16 := 0xFFFF

  function SaturatingAdd16(a: u16, b: u16): (r: u16)
    ensures a as int + b as int <= U16Max as int ==> r as int == a as int + b as int
    ensures a as int + b as int > U16Max as int ==> r == U16Max
  {
    if a as int + b as int > U16Max as int then U16Max else a + b
  }

  function SaturatingSub16(a: u16, b: u16): (r: u16)
    ensures b <= a ==> r == a - b
    ensures b > a ==> r == 0
  {
    if b > a then 0 else a - b
  }

  datatype ReadmePopup = ReadmePopup(
    toolName: string, content: string, scrollOffset: u16, loading: bool,
    links: seq<(string, string)>, showLinks: bool, selectedLink: nat)

  datatype NoticeLevel = Info | Warning | Error

  /** A toast notification. */
  datatype Notice = Notice(level: NoticeLevel, text: string)

  /** What fetching the README gave: its text, or the error. */
  datatype Fetch = Fetched(content: string) | FetchFailed(error: string)

  /** The GitHub repository URL `open_readme` works from: the result's own URL when it is on
      GitHub; for a crates.io or npm page, what the registry reports (`registryRepo`, absent
      when the lookup fails); otherwise none. */
  function GitHubUrl(url: string, registryRepo: Option<string>): (r: Option<string>)
    ensures Contains(url, "github.com") ==> r == Some(url)
    ensures !Contains(url, "github.com") && !Contains(url, "crates.io") && !Contains(url, "npmjs.com") ==> r.None?
  {
    if Contains(url, "github.com") then Some(url)
    else if Contains(url, "crates.io") || Contains(url, "npmjs.com") then registryRepo
    else None
  }

  /** Whether `open_readme` finds a GitHub repository to fetch the README from. */
  predicate OnGitHub(url: string, registryRepo: Option<string>) {
    var gh := GitHubUrl(url, registryRepo);
    gh.Some? && Contains(gh.value, "github.com")
  }

  /** The list-related state of the README popup and the notifications it posts. */
  class ReadmeViewer {
    var popup: Option<ReadmePopup>
    var notices: seq<Notice>

    /** While the link picker shows, the highlighted link exists. */
    predicate Valid()
      reads this
    {
      popup.Some? && popup.value.showLinks ==> popup.value.selectedLink < |popup.value.links|
    }

    constructor ()
      ensures Valid() && popup.None? && notices == []
    {
      popup := None;
      notices := [];
    }

    /** `open_readme`: with a GitHub repository for the result, show the README and its links,
        or drop the popup with an error if it cannot be fetched; without one, hand the URL to
        the browser (returned as `browse`); without any URL, warn. */
    method OpenReadme(toolName: string, url: Option<string>, registryRepo: Option<string>, fetched: Fetch)
      returns (browse: Option<string>)
      requires Valid()
      modifies this
      ensures Valid()
      ensures url.None? ==>
        browse.None? && popup == old(popup) && notices == old(notices) + [Notice(Warning, "No URL available for " + toolName)]
      ensures url.Some? && OnGitHub(url.value, registryRepo) && fetched.Fetched? ==>
        browse.None? && notices == old(notices)
        && popup == Some(ReadmePopup(toolName, fetched.content, 0, false, ExtractLinks(fetched.content), false, 0))
      ensures url.Some? && OnGitHub(url.value, registryRepo) && fetched.FetchFailed? ==>
        browse.None? && popup.None? && notices == old(notices) + [Notice(Error, "Failed to fetch README: " + fetched.error)]
      ensures url.Some? && !OnGitHub(url.value, registryRepo) ==>
        browse == url && popup == old(popup) && notices == old(notices) + [Notice(Info, "Opening " + toolName + " in browser")]
    {
      browse := None;
      if url.None? {
        notices := notices + [Notice(Warning, "No URL available for " + toolName)];
        return;
      }
      if OnGitHub(url.value, registryRepo) {
        popup := Some(ReadmePopup(toolName, "", 0, true, [], false, 0));
        match fetched
        case Fetched(content) =>
          popup := Some(popup.value.(content := content, loading := false, links := ExtractLinks(content)));
        case FetchFailed(e) =>
          popup := None;
          notices := notices + [Notice(Error, "Failed to fetch README: " + e)];
      } else {
        notices := notices + [Notice(Info, "Opening " + toolName + " in browser")];
        browse := url;
      }
    }

    method CloseReadme()
      modifies this
      ensures Valid() && popup.None? && notices == old(notices)
    {
      popup := None;
    }

    predicate HasPopup()
      reads this
    {
      popup.Some?
    }

    /** `scroll_readme_up`: towards the top, stopping at 0; nothing without a popup. */
    method ScrollUp(amount: u16)
      requires Valid()
      modifies this
      ensures Valid()
      ensures old(popup).None? ==> popup.None?
      ensures old(popup).Some? ==>
        popup == Some(old(popup).value.(scrollOffset := SaturatingSub16(old(popup).value.scrollOffset, amount)))
      ensures notices == old(notices)
    {
      if popup.Some? {
        popup := Some(popup.value.(scrollOffset := SaturatingSub16(popup.value.scrollOffset, amount)));
      }
    }

    /** `scroll_readme_down`: towards the bottom, stopping at 65535; nothing without a popup. */
    method ScrollDown(amount: u16)
      requires Valid()
      modifies this
      ensures Valid()
      ensures old(popup).None? ==> popup.None?
      ensures old(popup).Some? ==>
        popup == Some(old(popup).value.(scrollOffset := SaturatingAdd16(old(popup).value.scrollOffset, amount)))
      ensures notices == old(notices)
    {
      if popup.Some? {
        popup := Some(popup.value.(scrollOffset := SaturatingAdd16(popup.value.scrollOffset, amount)));
      }
    }

    /** `toggle_readme_links`: with links, show or hide the picker, starting at the first link;
        without any, say so and change nothing. */
    method ToggleLinks()
      requires Valid()
      modifies this
      ensures Valid()
      ensures old(popup).None? ==> popup.None? && notices == old(notices)
      ensures old(popup).Some? && |old(popup).value.links| > 0 ==>
        notices == old(notices) && popup == Some(old(popup).value.(showLinks := !old(popup).value.showLinks, selectedLink := 0))
      ensures old(popup).Some? && |old(popup).value.links| == 0 ==>
        popup == old(popup) && notices == old(notices) + [Notice(Info, "No links found in this README")]
    {
      if popup.Some? {
        if |popup.value.links| > 0 {
          popup := Some(popup.value.(showLinks := !popup.value.showLinks, selectedLink := 0));
        } else {
          notices := notices + [Notice(Info, "No links found in this README")];
        }
      }
    }

    /** `select_next_link`: one link down, stopping at the last; only while the picker shows. */
    method SelectNextLink()
      requires Valid()
      modifies this
      ensures Valid() && notices == old(notices)
      ensures old(popup).Some? && old(popup).value.showLinks ==>
        var p := old(popup).value;
        popup == Some(p.(selectedLink := if p.selectedLink + 1 < |p.links| - 1 then p.selectedLink + 1 else |p.links| - 1))
      ensures !(old(popup).Some? && old(popup).value.showLinks) ==> popup == old(popup)
    {
      if popup.Some? && popup.value.showLinks && |popup.value.links| > 0 {
        var p := popup.value;
        popup := Some(p.(selectedLink := if p.selectedLink + 1 < |p.links| - 1 then p.selectedLink + 1 else |p.links| - 1));
      }
    }

    /** `select_prev_link`: one link up, only above the first and while the picker shows. */
    method SelectPrevLink()
      requires Valid()
      modifies this
      ensures Valid() && notices == old(notices)
      ensures old(popup).Some? && old(popup).value.showLinks && old(popup).value.selectedLink > 0 ==>
        popup == Some(old(popup).value.(selectedLink := old(popup).value.selectedLink - 1))
      ensures !(old(popup).Some? && old(popup).value.showLinks && old(popup).value.selectedLink > 0) ==>
        popup == old(popup)
    {
      if popup.Some? && popup.value.showLinks && popup.value.selectedLink > 0 {
        popup := Some(popup.value.(selectedLink := popup.value.selectedLink - 1));
      }
    }

    /** `open_selected_link`: hand the highlighted link's URL to the browser (returned as
        `link`) and announce it; in every case the picker is closed afterwards. */
    method OpenSelectedLink() returns (link: Option<string>)
      requires Valid()
      modifies this
      ensures Valid()
      ensures old(popup).Some? && old(popup).value.showLinks ==>
        var p := old(popup).value;
        && link == Some(p.links[p.selectedLink].1)
        && notices == old(notices) + [Notice(Info, "Opening " + p.links[p.selectedLink].1)]
      ensures !(old(popup).Some? && old(popup).value.showLinks) ==> link.None? && notices == old(notices)
      ensures old(popup).None? ==> popup.None?
      ensures old(popup).Some? ==> popup == Some(old(popup).value.(showLinks := false))
    {
      link := None;
      if popup.Some? && popup.value.showLinks && popup.value.selectedLink < |popup.value.links| {
        var url := popup.value.links[popup.value.selectedLink].1;
        link := Some(url);
        notices := notices + [Notice(Info, "Opening " + url)];
      }
      if popup.Some? {
        popup := Some(popup.value.(showLinks := false));
      }
    }
  }
}
