/** The `web_fetch` and `web_search` tools (`tools/web.py`): URL scheme
    checking, how a fetched page becomes text and is cut, and how parsed
    search hits are paired with snippets and listed. The HTTP exchange is
    an input, and so are the regular-expression matches the search page
    yields and the element rewriting that precedes tag removal. */
module WebTools {
  import opened Wrappers
  import opened Text

  // ---------------------------------------------------------------------
  // URL scheme
  // ---------------------------------------------------------------------

  /** Characters `urllib.parse` accepts in a scheme. */
  predicate SchemeChar(c: char) {
    IsLetter(c) || ('0' <= c <= '9') || c == '+' || c == '-' || c == '.'
  }

  predicate SchemeChars(s: string) {
    forall k :: 0 <= k < |s| ==> SchemeChar(s[k])
  }

  /** `urlparse(url).scheme`: the lower-cased text before the first colon
      when it starts with a letter and holds only scheme characters, and
      "" otherwise. */
  function Scheme(url: string): (r: string)
    ensures r != "" ==> exists i :: 0 < i < |url| && url[i] == ':' && r == Lower(url[..i])
    ensures ':' !in url ==> r == ""
  {
    match Find(url, ":")
    case None =>
      NoCharFindNone(url, ':');
      ""
    case Some(i) =>
      assert url[i..i + 1] == ":";
      if i > 0 && IsLetter(url[0]) && SchemeChars(url[..i]) then Lower(url[..i]) else ""
  }

  /** The scheme of a text that begins with a scheme and a colon. */
  lemma SchemeOf(scheme: string, rest: string)
    requires |scheme| > 0 && IsLetter(scheme[0]) && SchemeChars(scheme)
    ensures Scheme(scheme + ":" + rest) == Lower(scheme)
  {
    var url := scheme + ":" + rest;
    assert ':' !in scheme by {
      forall k | 0 <= k < |scheme| ensures scheme[k] != ':' {
        assert SchemeChar(scheme[k]);
      }
    }
    FindCharAfter(scheme, ':', rest);
    assert url[..|scheme|] == scheme;
    assert Find(url, ":") == Some(|scheme|);
  }

  const HttpsPrefix: string := "https://"
  const InvalidSchemeText: string := "Error: Invalid URL scheme: "

  /** The URL `web_fetch` requests: one without a scheme is given
      "https://"; then only "http" and "https" are accepted. */
  function CheckUrl(url: string): (r: Result<string, string>)
    ensures Scheme(url) == "" ==> r == Success(HttpsPrefix + url)
    ensures Scheme(url) != "" ==>
              (r.Success? <==> Scheme(url) in {"http", "https"})
              && (r.Success? ==> r.value == url)
              && (r.Failure? ==> r.error == InvalidSchemeText + Scheme(url))
  {
    var u := if Scheme(url) == "" then HttpsPrefix + url else url;
    var s := Scheme(u);
    if Scheme(url) == "" then
      SchemeOf("https", "//" + url);
      assert u == "https" + ":" + ("//" + url);
      assert Lower("https") == "https";
      Success(u)
    else if s == "http" || s == "https" then Success(u)
    else Failure(InvalidSchemeText + s)
  }

  /** Every accepted URL has the scheme "http" or "https", so nothing else
      is ever requested. */
  lemma AcceptedSchemes(url: string)
    requires CheckUrl(url).Success?
    ensures Scheme(CheckUrl(url).value) in {"http", "https"}
  {
    if Scheme(url) == "" {
      SchemeOf("https", "//" + url);
      assert HttpsPrefix + url == "https" + ":" + ("//" + url);
      assert Lower("https") == "https";
    }
  }

  // ---------------------------------------------------------------------
  // HTML to text
  // ---------------------------------------------------------------------

  /** `re.sub(r"<[^>]+>", "", s)`: every `<`, one or more characters other
      than `>`, and a `>` is removed, scanning from the left. */
  function RemoveTags(s: string): (r: string)
    ensures |r| <= |s|
    decreases |s|
  {
    if |s| == 0 then ""
    else if s[0] == '<' && |s| > 1 && s[1] != '>' && Find(s, ">").Some? then
      var j := Find(s, ">").value;
      RemoveTags(s[j + 1..])
    else [s[0]] + RemoveTags(s[1..])
  }

  /** Text without `<` passes tag removal unchanged. */
  lemma {:induction false} RemoveTagsPlain(s: string)
    requires '<' !in s
    ensures RemoveTags(s) == s
    decreases |s|
  {
    if |s| > 0 {
      RemoveTagsPlain(s[1..]);
      assert s == [s[0]] + s[1..];
    }
  }

  /** A tag after plain text is removed and nothing else changes. */
  lemma {:induction false} TagRemoved(a: string, tag: string, b: string)
    requires '<' !in a && |tag| > 0 && '>' !in tag
    ensures RemoveTags(a + "<" + tag + ">" + b) == a + RemoveTags(b)
    decreases |a|
  {
    var s := a + "<" + tag + ">" + b;
    if |a| > 0 {
      assert s[1..] == a[1..] + "<" + tag + ">" + b;
      TagRemoved(a[1..], tag, b);
      assert s == [a[0]] + s[1..];
    } else {
      assert s == "<" + tag + ">" + b;
      assert s[1] == tag[0];
      assert '>' !in "<" + tag;
      FindCharAfter("<" + tag, '>', b);
      assert s == ("<" + tag) + ">" + b;
      assert s[|tag| + 2..] == b;
    }
  }

  /** The entity replacements, in the order they are applied: `&amp;` is
      decoded before `&lt;` and `&gt;`. */
  function DecodeEntities(s: string): string {
    var a := ReplaceAll(s, "&nbsp;", " ");
    var b := ReplaceAll(a, "&amp;", "&");
    var c := ReplaceAll(b, "&lt;", "<");
    var d := ReplaceAll(c, "&gt;", ">");
    var e := ReplaceAll(d, "&quot;", "\"");
    ReplaceAll(e, "&#39;", "'")
  }

  /** The non-empty texts of `xs`, in order. */
  function NonEmpty(xs: seq<string>): (r: seq<string>)
    ensures forall x :: x in r <==> x in xs && x != ""
  {
    if |xs| == 0 then []
    else
      assert forall x :: x in xs <==> x == xs[0] || x in xs[1..];
      if xs[0] != "" then [xs[0]] + NonEmpty(xs[1..]) else NonEmpty(xs[1..])
  }

  /** The lines of a text, each stripped, without the empty ones. */
  function KeptLines(lines: seq<string>): (r: seq<string>)
    ensures forall x :: x in r <==> x in StripEach(lines) && x != ""
  {
    NonEmpty(StripEach(lines))
  }

  /** No two newlines in a row. */
  predicate NoBlankLine(s: string) {
    forall k :: 0 <= k < |s| - 1 ==> !(s[k] == '\n' && s[k + 1] == '\n')
  }

  /** Pieces that are non-empty and free of newlines. */
  predicate LinePieces(xs: seq<string>) {
    forall k :: 0 <= k < |xs| ==> xs[k] != "" && '\n' !in xs[k]
  }

  /** Joining non-empty newline-free pieces leaves no blank line, and the
      joined text begins with the first piece's first character and ends
      with the last piece's last character. */
  lemma {:induction false} JoinLines(xs: seq<string>)
    requires |xs| > 0 && LinePieces(xs)
    ensures var s := Join(xs, "\n");
            && NoBlankLine(s) && |s| > 0
            && s[0] == xs[0][0] && s[|s| - 1] == xs[|xs| - 1][|xs[|xs| - 1]| - 1]
    decreases |xs|
  {
    if |xs| > 1 {
      var rest := Join(xs[1..], "\n");
      JoinLines(xs[1..]);
      var s := xs[0] + "\n" + rest;
      assert Join(xs, "\n") == s;
      forall k | 0 <= k < |s| - 1
        ensures !(s[k] == '\n' && s[k + 1] == '\n')
      {
        if k < |xs[0]| {
          assert s[k] == xs[0][k];
        } else if k == |xs[0]| {
          assert s[k + 1] == rest[0] == xs[1][0];
        } else {
          assert s[k] == rest[k - |xs[0]| - 1] && s[k + 1] == rest[k - |xs[0]|];
        }
      }
    }
  }

  /** `re.sub(r"\n{3,}", "\n\n", s)`. */
  function CollapseNewlines(s: string): string
    decreases |s|
  {
    if |s| >= 3 && s[..3] == "\n\n\n" then "\n\n" + CollapseNewlines(DropNewlines(s[3..]))
    else if |s| == 0 then ""
    else [s[0]] + CollapseNewlines(s[1..])
  }

  /** The text after its leading newlines. */
  function DropNewlines(s: string): (r: string)
    ensures |r| <= |s|
  {
    if |s| > 0 && s[0] == '\n' then DropNewlines(s[1..]) else s
  }

  /** A text without blank lines has no run of three newlines to collapse. */
  lemma {:induction false} CollapseNothing(s: string)
    requires NoBlankLine(s)
    ensures CollapseNewlines(s) == s
    decreases |s|
  {
    if |s| > 0 {
      if |s| >= 3 {
        assert !(s[0] == '\n' && s[1] == '\n');
        assert s[..3] != "\n\n\n";
      }
      CollapseNothing(s[1..]);
      assert s == [s[0]] + s[1..];
    }
  }

  /** The text between entity decoding and the final clean-up. */
  function Cleaned(decoded: string): string {
    Join(KeptLines(Split(decoded, '\n')), "\n")
  }

  /** `_html_to_text`. `rewrite` is the element rewriting that comes first
      (script and style removal, line breaks for `br`, `p`, `div`, `li`
      and headings). */
  function HtmlToText(html: string, rewrite: string -> string): string {
    var decoded := DecodeEntities(RemoveTags(rewrite(html)));
    Strip(CollapseNewlines(Cleaned(decoded)))
  }

  /** The kept lines are stripped, non-empty and free of newlines. */
  lemma KeptLinesShape(decoded: string)
    ensures var xs := KeptLines(Split(decoded, '\n'));
            LinePieces(xs) && forall k :: 0 <= k < |xs| ==> Strip(xs[k]) == xs[k]
  {
    var pieces := Split(decoded, '\n');
    var xs := KeptLines(pieces);
    SplitPiecesFree(decoded, '\n');
    forall k | 0 <= k < |xs|
      ensures xs[k] != "" && '\n' !in xs[k] && Strip(xs[k]) == xs[k]
    {
      assert xs[k] in xs;
      var j :| 0 <= j < |pieces| && StripEach(pieces)[j] == xs[k];
      StripChars(pieces[j], '\n');
      StripStripped(pieces[j]);
    }
  }

  /** Text made of lines that are stripped and non-empty, joined by single
      newlines, is left alone by the collapse and the final strip, and
      splits back into those lines. */
  lemma JoinedLinesSettled(xs: seq<string>)
    requires LinePieces(xs) && forall k :: 0 <= k < |xs| ==> Strip(xs[k]) == xs[k]
    ensures var s := Join(xs, "\n");
            && Strip(CollapseNewlines(s)) == s
            && NoBlankLine(s)
            && (|xs| > 0 ==> Split(s, '\n') == xs)
  {
    var s := Join(xs, "\n");
    if |xs| > 0 {
      JoinLines(xs);
      CollapseNothing(s);
      StrippedEnds(xs[0]);
      StrippedEnds(xs[|xs| - 1]);
      StripKeeps(s);
      SplitJoin(xs, '\n');
    } else {
      assert s == "";
      assert CollapseNewlines(s) == "";
      assert Strip("") == "";
    }
  }

  /** The converted text is its lines, each stripped and non-empty, joined
      by single newlines: the collapse and the final strip change nothing. */
  lemma HtmlToTextLines(html: string, rewrite: string -> string)
    ensures var decoded := DecodeEntities(RemoveTags(rewrite(html)));
            var xs := KeptLines(Split(decoded, '\n'));
            var t := HtmlToText(html, rewrite);
            && t == Join(xs, "\n")
            && NoBlankLine(t)
            && (|xs| > 0 ==> Split(t, '\n') == xs)
            && forall k :: 0 <= k < |xs| ==> xs[k] != "" && Strip(xs[k]) == xs[k]
  {
    var decoded := DecodeEntities(RemoveTags(rewrite(html)));
    KeptLinesShape(decoded);
    JoinedLinesSettled(KeptLines(Split(decoded, '\n')));
  }

  // ---------------------------------------------------------------------
  // Fetching
  // ---------------------------------------------------------------------

  /** What the HTTP exchange gives: a page with its content type, an error
      status, a request error, or another exception. */
  datatype Response = Page(contentType: string, body: string)
                    | StatusError(code: int, reason: string)
                    | RequestError(message: string)
                    | OtherError(message: string)

  const MaxChars: nat := 50000
  const TruncatedNote: string := "\n\n... (truncated)"

  /** A page's text: JSON as it is, HTML converted, anything else as it is. */
  function PageText(contentType: string, body: string, rewrite: string -> string): (r: string)
    ensures Contains(contentType, "application/json") ==> r == body
    ensures !Contains(contentType, "application/json") && Contains(contentType, "text/html") ==> r == HtmlToText(body, rewrite)
    ensures !Contains(contentType, "text/html") ==> r == body
  {
    if Contains(contentType, "application/json") then body
    else if Contains(contentType, "text/html") then HtmlToText(body, rewrite)
    else body
  }

  /** Text over 50000 characters keeps its first 50000 and a note. */
  function CutText(text: string): (r: string)
    ensures |text| <= MaxChars ==> r == text
    ensures |text| > MaxChars ==> |r| == MaxChars + |TruncatedNote| && r[..MaxChars] == text[..MaxChars]
                                  && r[MaxChars..] == TruncatedNote
  {
    if |text| > MaxChars then text[..MaxChars] + TruncatedNote else text
  }

  /** `web_fetch`. `get` is the HTTP exchange for a checked URL. */
  function Fetch(url: string, prompt: string, get: string -> Response, rewrite: string -> string): (r: string)
    ensures CheckUrl(url).Failure? ==> r == CheckUrl(url).error
    ensures CheckUrl(url).Success? && get(CheckUrl(url).value).Page? ==>
              var u := CheckUrl(url).value;
              var p := get(u);
              r == "Content from " + u + ":\n\n" + CutText(PageText(p.contentType, p.body, rewrite))
                   + "\n\n---\nUser prompt: " + prompt
    ensures CheckUrl(url).Success? && get(CheckUrl(url).value).StatusError? ==>
              var p := get(CheckUrl(url).value);
              r == "Error: HTTP " + IntToString(p.code) + " - " + p.reason
    ensures CheckUrl(url).Success? && get(CheckUrl(url).value).RequestError? ==>
              r == "Error fetching URL: " + get(CheckUrl(url).value).message
    ensures CheckUrl(url).Success? && get(CheckUrl(url).value).OtherError? ==>
              r == "Error: " + get(CheckUrl(url).value).message
  {
    match CheckUrl(url)
    case Failure(e) => e
    case Success(u) =>
      match get(u)
      case Page(ct, body) =>
        "Content from " + u + ":\n\n" + CutText(PageText(ct, body, rewrite)) + "\n\n---\nUser prompt: " + prompt
      case StatusError(code, reason) => "Error: HTTP " + IntToString(code) + " - " + reason
      case RequestError(m) => "Error fetching URL: " + m
      case OtherError(m) => "Error: " + m
  }

  // ---------------------------------------------------------------------
  // Searching
  // ---------------------------------------------------------------------

  const MaxResults: int := 10

  /** `min(max_results, 10)`; nothing raises a negative value. */
  function Clamp(maxResults: int): (r: int)
    ensures r <= MaxResults
    ensures r <= maxResults && (r == maxResults || r == MaxResults)
  {
    if maxResults < MaxResults then maxResults else MaxResults
  }

  /** One search hit. */
  datatype Hit = Hit(title: string, url: string, snippet: string)

  /** The hit built from the `i`-th link match: its title stripped, its
      URL (a DuckDuckGo redirect replaced by its `uddg` target when that
      can be read, `redirect`), and the `i`-th snippet stripped, or "" when
      there are fewer snippets. */
  const RedirectMark: string := "uddg="

  function MakeHit(link: (string, string), i: nat, snippets: seq<string>, redirect: string -> Option<string>): (h: Hit)
    ensures h.title == Strip(link.1)
    ensures h.snippet == if i < |snippets| then Strip(snippets[i]) else ""
    ensures !Contains(link.0, RedirectMark) ==> h.url == link.0
  {
    var url := if Contains(link.0, RedirectMark) && redirect(link.0).Some? then redirect(link.0).value else link.0;
    Hit(Strip(link.1), url, if i < |snippets| then Strip(snippets[i]) else "")
  }

  /** `_parse_ddg_results`: the first `maxResults` link matches (Python's
      `matches[:max_results]`), each paired with the snippet at the same
      position. */
  function ParseResults(links: seq<(string, string)>, snippets: seq<string>, maxResults: int,
                        redirect: string -> Option<string>): (r: seq<Hit>)
    ensures |r| <= |links|
    ensures 0 <= maxResults ==> |r| == if maxResults < |links| then maxResults else |links|
    ensures forall i :: 0 <= i < |r| ==> r[i].title == Strip(links[i].1)
    ensures forall i :: 0 <= i < |r| ==> r[i].snippet == if i < |snippets| then Strip(snippets[i]) else ""
  {
    var taken := PySlice(links, 0, maxResults);
    assert forall i :: 0 <= i < |taken| ==> taken[i] == links[i];
    seq(|taken|, i requires 0 <= i < |taken| => MakeHit(taken[i], i, snippets, redirect))
  }

  /** The listed hits never exceed ten, and never exceed a non-negative
      `max_results`. */
  lemma SearchBound(links: seq<(string, string)>, snippets: seq<string>, maxResults: int,
                    redirect: string -> Option<string>)
    requires maxResults >= 0
    ensures |ParseResults(links, snippets, Clamp(maxResults), redirect)| <= maxResults
    ensures |ParseResults(links, snippets, Clamp(maxResults), redirect)| <= MaxResults
  {
  }

  /** A negative `max_results` is not raised to zero: Python's slice then
      drops matches from the end instead. */
  lemma NegativeMaxDropsFromEnd(links: seq<(string, string)>, snippets: seq<string>, maxResults: int,
                                redirect: string -> Option<string>)
    requires maxResults < 0 && |links| + maxResults >= 0
    ensures |ParseResults(links, snippets, Clamp(maxResults), redirect)| == |links| + maxResults
  {
  }

  /** The lines listing one hit, numbered `n`. */
  function HitLines(n: nat, h: Hit): seq<string> {
    [NatToString(n) + ". " + h.title, "   URL: " + h.url]
    + (if h.snippet != "" then ["   " + h.snippet] else [])
    + [""]
  }

  /** The lines of the hits, numbered from `n` in order. */
  function AllHitLines(hits: seq<Hit>, n: nat): seq<string>
    decreases |hits|
  {
    if |hits| == 0 then [] else HitLines(n, hits[0]) + AllHitLines(hits[1..], n + 1)
  }

  /** Listing a concatenation continues the numbering. */
  lemma {:induction false} AllHitLinesConcat(a: seq<Hit>, b: seq<Hit>, n: nat)
    ensures AllHitLines(a + b, n) == AllHitLines(a, n) + AllHitLines(b, n + |a|)
    decreases |a|
  {
    if |a| == 0 {
      assert a + b == b;
    } else {
      assert (a + b)[1..] == a[1..] + b;
      AllHitLinesConcat(a[1..], b, n + 1);
      ConcatAssoc(HitLines(n, a[0]), AllHitLines(a[1..], n + 1), AllHitLines(b, n + |a|));
    }
  }

  /** Hit `i` (from 0) is listed as number `i + 1`, after the hits before
      it and before the hits after it. */
  lemma HitListed(hits: seq<Hit>, i: nat)
    requires i < |hits|
    ensures AllHitLines(hits, 1) ==
              AllHitLines(hits[..i], 1) + HitLines(i + 1, hits[i]) + AllHitLines(hits[i + 1..], i + 2)
  {
    assert hits == hits[..i] + hits[i..];
    AllHitLinesConcat(hits[..i], hits[i..], 1);
    assert AllHitLines(hits[i..], i + 1) == HitLines(i + 1, hits[i]) + AllHitLines(hits[i + 1..], i + 2) by {
      assert hits[i..][1..] == hits[i + 1..];
    }
    ConcatAssoc(AllHitLines(hits[..i], 1), HitLines(i + 1, hits[i]), AllHitLines(hits[i + 1..], i + 2));
  }

  /** What the search request gives: the page, or the exception. */
  datatype SearchPage = SearchHtml(links: seq<(string, string)>, snippets: seq<string>) | SearchFailed(message: string)

  /** `web_search`: no hits gives a fixed message; otherwise a header line
      and each hit's lines, joined by newlines. */
  function Search(query: string, maxResults: int, page: SearchPage, redirect: string -> Option<string>): (r: string)
    ensures page.SearchFailed? ==> r == "Error performing search: " + page.message
    ensures page.SearchHtml? && |ParseResults(page.links, page.snippets, Clamp(maxResults), redirect)| == 0 ==>
              r == "No search results found for: " + query
    ensures page.SearchHtml? && |ParseResults(page.links, page.snippets, Clamp(maxResults), redirect)| > 0 ==>
              r == Join(["Search results for: " + query + "\n"]
                        + AllHitLines(ParseResults(page.links, page.snippets, Clamp(maxResults), redirect), 1), "\n")
  {
    match page
    case SearchFailed(m) => "Error performing search: " + m
    case SearchHtml(links, snippets) =>
      var hits := ParseResults(links, snippets, Clamp(maxResults), redirect);
      if |hits| == 0 then "No search results found for: " + query
      else Join(["Search results for: " + query + "\n"] + AllHitLines(hits, 1), "\n")
  }
}
