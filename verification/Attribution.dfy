/** Signed touch tokens on outbound links, and the message checks that must survive them. */
module Attribution {
  import opened Options
  import opened Text

  // ---------------------------------------------------------------- the URL scanner

  predicate UrlChar(c: char) {
    !IsSpace(c) && c != '>' && c != '\"' && c != ')' && c != ']'
  }

  predicate Scheme(s: string, n: nat) {
    && n < |s| && n >= 6
    && LowerChar(s[0]) == 'h' && LowerChar(s[1]) == 't' && LowerChar(s[2]) == 't' && LowerChar(s[3]) == 'p'
    && (n == 6 || (n == 7 && LowerChar(s[4]) == 's'))
    && s[n - 2] == ':' && s[n - 1] == '/' && s[n] == '/'
  }

  /** The length of the longest run of URL characters at the front. */
  function Run(s: string): (n: nat)
    ensures n <= |s| && forall i | 0 <= i < n :: UrlChar(s[i])
    ensures n < |s| ==> !UrlChar(s[n])
  {
    if s == "" || !UrlChar(s[0]) then 0 else 1 + Run(s[1..])
  }

  /** The length of the URL that begins `s`; zero when none does. */
  function MatchLength(s: string): (n: nat)
    ensures n <= |s| && (n > 0 ==> n >= 8)
  {
    if Scheme(s, 6) then (if Run(s[7..]) == 0 then 0 else 7 + Run(s[7..]))
    else if Scheme(s, 7) then (if Run(s[8..]) == 0 then 0 else 8 + Run(s[8..]))
    else 0
  }

  function Urls(s: string): seq<string>
    decreases |s|
  {
    if s == "" then []
    else if MatchLength(s) > 0 then [s[..MatchLength(s)]] + Urls(s[MatchLength(s)..])
    else Urls(s[1..])
  }

  // ---------------------------------------------------------------- putting the token on every link

  function Extension(url: string, token: string): string {
    (if '?' in url then "&t=" else "?t=") + token
  }

  function TokenizeLinks(s: string, token: string): string
    decreases |s|
  {
    if s == "" then ""
    else
      var n := MatchLength(s);
      if n > 0 then s[..n] + Extension(s[..n], token) + TokenizeLinks(s[n..], token)
      else [s[0]] + TokenizeLinks(s[1..], token)
  }

  function Extended(urls: seq<string>, token: string): (r: seq<string>)
    ensures |r| == |urls| && forall i | 0 <= i < |urls| :: r[i] == urls[i] + Extension(urls[i], token)
  {
    seq(|urls|, i requires 0 <= i < |urls| => urls[i] + Extension(urls[i], token))
  }

  ghost predicate UrlText(s: string) { forall i | 0 <= i < |s| :: UrlChar(s[i]) }

  lemma {:induction false} RunOf(a: string, b: string)
    requires UrlText(a) && (b == "" || !UrlChar(b[0]))
    ensures Run(a + b) == |a|
  {
    if a != "" {
      assert (a + b)[1..] == a[1..] + b;
      RunOf(a[1..], b);
    } else {
      assert a + b == b;
    }
  }

  lemma ExtensionIsUrlText(url: string, token: string)
    requires UrlText(token)
    ensures UrlText(Extension(url, token))
  {
  }

  /** A link stays one link, longer by its extension, when URL text is put behind it. */
  lemma MatchGrows(s: string, n: nat, more: string, rest: string)
    requires n == MatchLength(s) > 0 && UrlText(more) && (rest == "" || !UrlChar(rest[0]))
    ensures MatchLength(s[..n] + more + rest) == n + |more|
  {
    var t := s[..n] + more + rest;
    var k := if Scheme(s, 6) then 7 else 8;
    assert Scheme(t, k - 1) && (k == 8 ==> !Scheme(t, 6)) by {
      assert forall i | 0 <= i < k :: t[i] == s[i];
    }
    assert forall i | k <= i < n :: s[i] == s[k..][i - k];
    assert t[k..] == (s[k..n] + more) + rest;
    RunOf(s[k..n] + more, rest);
  }

  /** Nothing is inserted among the first eight characters. */
  lemma {:induction false} FrontIsKept(s: string, token: string)
    ensures var t := TokenizeLinks(s, token);
      && (|s| < 8 ==> t == s)
      && (|s| >= 8 ==> |t| >= 8 && t[..8] == s[..8])
    decreases |s|
  {
    hide MatchLength;
    if s != "" {
      var n := MatchLength(s);
      if n > 0 {
        var t := TokenizeLinks(s, token);
        assert t[..n] == s[..n];
        assert t[..8] == t[..n][..8] && s[..8] == s[..n][..8];
      } else {
        FrontIsKept(s[1..], token);
        SameFront(s[0], s[1..], TokenizeLinks(s[1..], token));
        assert s == [s[0]] + s[1..];
      }
    }
  }

  /** Strings that agree on eight characters still do behind one more. */
  lemma SameFront(c: char, s: string, u: string)
    requires (|s| < 8 ==> u == s) && (|s| >= 8 ==> |u| >= 8 && u[..8] == s[..8])
    ensures |s| >= 7 ==> |u| >= 7 && ([c] + u)[..8] == ([c] + s)[..8]
  {
    if |s| >= 8 {
      assert u[..8][..7] == u[..7] && s[..8][..7] == s[..7];
      assert ([c] + u)[..8] == [c] + u[..7] && ([c] + s)[..8] == [c] + s[..7];
    }
  }

  lemma NoNewMatch(s: string, t: string)
    requires MatchLength(s) == 0 && |s| > 0
    requires |s| <= 8 ==> t == s
    requires |s| > 8 ==> |t| > 8 && t[..9] == s[..9]
    ensures MatchLength(t) == 0
  {
    if |s| > 8 {
      assert forall i | 0 <= i < 9 :: t[i] == t[..9][i] == s[i];
      assert Scheme(t, 6) <==> Scheme(s, 6);
      assert Scheme(t, 7) <==> Scheme(s, 7);
      assert t[7..][0] == s[7..][0] && t[8..][0] == s[8..][0];
    }
  }

  /** A copied character begins no link. */
  lemma CopiedBeginsNoLink(s: string, token: string)
    requires MatchLength(s) == 0 && s != ""
    ensures MatchLength([s[0]] + TokenizeLinks(s[1..], token)) == 0
  {
    var u := TokenizeLinks(s[1..], token);
    var t := [s[0]] + u;
    FrontIsKept(s[1..], token);
    if |s| <= 8 {
      assert t == s;
    } else {
      assert t[..9] == [s[0]] + u[..8] && s[..9] == [s[0]] + s[1..][..8];
    }
    NoNewMatch(s, t);
  }

  /** What follows a link is empty or starts with a character that no link contains. */
  lemma LinkEnds(s: string, token: string)
    requires MatchLength(s) > 0
    ensures var rest := TokenizeLinks(s[MatchLength(s)..], token); rest == "" || !UrlChar(rest[0])
  {
    var n := MatchLength(s);
    var k := if Scheme(s, 6) then 7 else 8;
    var r := s[n..];
    if r != "" {
      assert r[0] == s[k..][n - k];
      assert MatchLength(r) == 0;
    }
  }

  /** Scanning the rewritten text finds the same links, each longer by the token. */
  lemma {:induction false} LinksAreExtended(s: string, token: string)
    requires UrlText(token)
    ensures Urls(TokenizeLinks(s, token)) == Extended(Urls(s), token)
    decreases |s|
  {
    hide MatchLength;
    var n := MatchLength(s);
    var t := TokenizeLinks(s, token);
    if s == "" {
    } else if n > 0 {
      var more, rest := Extension(s[..n], token), TokenizeLinks(s[n..], token);
      ExtensionIsUrlText(s[..n], token);
      LinkEnds(s, token);
      MatchGrows(s, n, more, rest);
      LinksAreExtended(s[n..], token);
      assert t == s[..n] + more + rest;
      assert t[..n + |more|] == s[..n] + more && t[n + |more|..] == rest;
      assert Urls(s) == [s[..n]] + Urls(s[n..]);
    } else {
      CopiedBeginsNoLink(s, token);
      LinksAreExtended(s[1..], token);
      assert t[1..] == TokenizeLinks(s[1..], token);
    }
  }

  // ---------------------------------------------------------------- the checks a message must pass

  /** Words that begin in `s`; `gap` says whether white space stands before it. */
  function Words(s: string, gap: bool): nat {
    if s == "" then 0
    else (if gap && !IsSpace(s[0]) then 1 else 0) + Words(s[1..], IsSpace(s[0]))
  }

  predicate Allowed(url: string, prefixes: seq<string>) {
    exists i | 0 <= i < |prefixes| :: Lower(prefixes[i]) <= Lower(url)
  }

  /** The link and length checks of `validate`, which looks at the trimmed body. */
  predicate PassesChecks(body: string, prefixes: seq<string>, maxWords: nat) {
    && (forall i | 0 <= i < |Urls(Strip(body))| :: Allowed(Urls(Strip(body))[i], prefixes))
    && Words(Strip(body), true) <= maxWords
  }

  lemma {:induction false} SpaceAfterAddsNothing(s: string, w: char, gap: bool)
    requires IsSpace(w)
    ensures Urls(s + [w]) == Urls(s) && Words(s + [w], gap) == Words(s, gap)
    decreases |s|
  {
    if s != "" {
      SpaceEndsMatch(s, w);
      var n := if MatchLength(s) > 0 then MatchLength(s) else 1;
      assert (s + [w])[n..] == s[n..] + [w] && (s + [w])[..n] == s[..n];
      SpaceAfterAddsNothing(s[n..], w, false);
      assert (s + [w])[1..] == s[1..] + [w];
      SpaceAfterAddsNothing(s[1..], w, IsSpace(s[0]));
    } else {
      assert [w][1..] == "";
      assert s + [w] == [w];
    }
  }

  lemma SpaceEndsMatch(s: string, w: char)
    requires IsSpace(w)
    ensures MatchLength(s + [w]) == MatchLength(s)
  {
    var t := s + [w];
    assert Scheme(t, 6) <==> Scheme(s, 6);
    assert Scheme(t, 7) <==> Scheme(s, 7);
    if |s| >= 7 { assert t[7..] == s[7..] + [w]; SpaceEndsRun(s[7..], w); }
    if |s| >= 8 { assert t[8..] == s[8..] + [w]; SpaceEndsRun(s[8..], w); }
  }

  lemma {:induction false} SpaceEndsRun(s: string, w: char)
    requires IsSpace(w)
    ensures Run(s + [w]) == Run(s)
  {
    if s != "" {
      assert (s + [w])[1..] == s[1..] + [w];
      SpaceEndsRun(s[1..], w);
    }
  }

  lemma SpaceBeforeAddsNothing(s: string)
    requires s != "" && IsSpace(s[0])
    ensures Urls(s) == Urls(s[1..]) && Words(s, true) == Words(s[1..], true)
  {
    assert MatchLength(s) == 0;
  }

  lemma {:induction false} TrimmingChangesNothing(s: string)
    ensures Urls(Strip(s)) == Urls(s) && Words(Strip(s), true) == Words(s, true)
  {
    hide Urls, Words, MatchLength;
    if s != "" {
      if IsSpace(s[0]) {
        SpaceBeforeAddsNothing(s);
        TrimmingChangesNothing(s[1..]);
      } else if IsSpace(s[|s| - 1]) {
        var r := s[..|s| - 1];
        TrimmingChangesNothing(r);
        SpaceAfterAddsNothing(r, s[|s| - 1], true);
        assert s == r + [s[|s| - 1]];
      }
    }
  }

  lemma {:induction false} NoWordBegins(a: string, b: string)
    requires forall i | 0 <= i < |a| :: !IsSpace(a[i])
    ensures Words(a + b, false) == Words(b, false)
  {
    if a != "" {
      assert (a + b)[1..] == a[1..] + b;
      NoWordBegins(a[1..], b);
    } else {
      assert a + b == b;
    }
  }

  lemma OneWord(a: string, b: string, gap: bool)
    requires a != "" && forall i | 0 <= i < |a| :: !IsSpace(a[i])
    ensures Words(a + b, gap) == (if gap then 1 else 0) + Words(b, false)
  {
    assert (a + b)[1..] == a[1..] + b;
    NoWordBegins(a[1..], b);
  }

  /** The token is glued to a link, so no word is added. */
  lemma {:induction false} WordsAreKept(s: string, token: string, gap: bool)
    requires UrlText(token)
    ensures Words(TokenizeLinks(s, token), gap) == Words(s, gap)
    decreases |s|
  {
    hide MatchLength;
    var n := MatchLength(s);
    var t := TokenizeLinks(s, token);
    if s == "" {
    } else if n > 0 {
      hide Words;
      var more, rest := Extension(s[..n], token), TokenizeLinks(s[n..], token);
      ExtensionIsUrlText(s[..n], token);
      MatchIsUrlText(s);
      WordsAreKept(s[n..], token, false);
      assert t == (s[..n] + more) + rest && s == s[..n] + s[n..];
      OneWord(s[..n] + more, rest, gap);
      OneWord(s[..n], s[n..], gap);
    } else {
      WordsAreKept(s[1..], token, IsSpace(s[0]));
      assert t[1..] == TokenizeLinks(s[1..], token);
    }
  }

  lemma MatchIsUrlText(s: string)
    ensures forall i | 0 <= i < MatchLength(s) :: !IsSpace(s[i])
  {
    var n := MatchLength(s);
    if n > 0 {
      var k := if Scheme(s, 6) then 7 else 8;
      forall i | 0 <= i < n ensures !IsSpace(s[i]) {
        if i >= k { assert s[i] == s[k..][i - k]; }
      }
    }
  }

  /** A body whose links and length passed still passes with the token on its links. */
  lemma ChecksSurvive(body: string, token: string, prefixes: seq<string>, maxWords: nat)
    requires UrlText(token) && PassesChecks(body, prefixes, maxWords)
    ensures PassesChecks(TokenizeLinks(body, token), prefixes, maxWords)
  {
    hide Urls, Words, TokenizeLinks, Strip, Allowed;
    var t := TokenizeLinks(body, token);
    TrimmingChangesNothing(body);
    TrimmingChangesNothing(t);
    LinksAreExtended(body, token);
    WordsAreKept(body, token, true);
    forall i | 0 <= i < |Urls(t)| ensures Allowed(Urls(t)[i], prefixes) {
      assert Allowed(Urls(Strip(body))[i], prefixes);
      LongerIsAllowed(Urls(body)[i], Extension(Urls(body)[i], token), prefixes);
    }
  }

  lemma LongerIsAllowed(url: string, more: string, prefixes: seq<string>)
    requires Allowed(url, prefixes)
    ensures Allowed(url + more, prefixes)
  {
    var i :| 0 <= i < |prefixes| && Lower(prefixes[i]) <= Lower(url);
    assert Lower(url + more)[..|url|] == Lower(url);
    assert Lower(prefixes[i]) <= Lower(url + more);
  }

  // ---------------------------------------------------------------- the token

  /** The library's part: how a string is read as a UUID (its 32 hexadecimal digits), how the
      digits are printed with dashes, and the truncated MAC of the digits. */
  datatype Library = Library(read: string -> Option<string>, dashed: string -> string, mac: string -> string)

  /** What the model relies on: digits read back as themselves, with or without dashes; a MAC is digits. */
  ghost predicate Faithful(lib: Library) {
    && (forall s :: lib.read(s).Some? ==> |lib.read(s).value| == 32 && HexDigits(lib.read(s).value))
    && (forall h :: |h| == 32 && HexDigits(h) ==>
          lib.read(h) == Some(h) && lib.read(lib.dashed(h)) == Some(h))
    && (forall h :: |lib.mac(h)| == 12 && HexDigits(lib.mac(h)))
  }

  /** No token exists for an identifier that is not a UUID (the code raises). */
  function TokenFor(lib: Library, touch: string): Option<string> {
    match lib.read(touch)
    case None => None
    case Some(h) => Some(h + "." + lib.mac(h))
  }

  function Verify(lib: Library, token: string): Option<string> {
    var k := IndexOf(token, '.');
    if k == |token| then None
    else
      match lib.read(token[..k])
      case None => None
      case Some(h) => if token[k + 1..] == lib.mac(h) then Some(lib.dashed(h)) else None
  }

  /** A token verifies, and gives back the identifier it was made from. */
  lemma TokenVerifies(lib: Library, touch: string)
    requires Faithful(lib) && lib.read(touch).Some?
    ensures UrlText(TokenFor(lib, touch).value)
    ensures TokenFor(lib, touch).value == lib.read(touch).value + "." + lib.mac(lib.read(touch).value)
    ensures Verify(lib, TokenFor(lib, touch).value) == Some(lib.dashed(lib.read(touch).value))
    ensures lib.read(Verify(lib, TokenFor(lib, touch).value).value) == lib.read(touch)
  {
    var h := lib.read(touch).value;
    var token := h + "." + lib.mac(h);
    assert token[..32] == h && token[33..] == lib.mac(h);
    IndexIs(token, '.', 32);
  }

  /** Whatever verifies carries the MAC of the identifier it is attributed to: up to the spelling
      of the identifier it is the token that was made for it. */
  lemma VerifiedIsGenuine(lib: Library, token: string)
    requires Faithful(lib) && Verify(lib, token).Some?
    ensures var touch := Verify(lib, token).value;
      && TokenFor(lib, touch).Some?
      && token[IndexOf(token, '.')..] == TokenFor(lib, touch).value[32..]
      && lib.read(token[..IndexOf(token, '.')]) == lib.read(TokenFor(lib, touch).value[..32])
  {
    var k := IndexOf(token, '.');
    var h := lib.read(token[..k]).value;
    assert (h + "." + lib.mac(h))[..32] == h;
    assert (h + "." + lib.mac(h))[32..] == "." + lib.mac(h);
    assert token[k..] == "." + token[k + 1..];
  }

  // ---------------------------------------------------------------- binding a draft

  datatype Draft = Draft(subject: string, body: string)

  datatype Bound = Bound(draft: Draft, hash: string)

  /** `queue_draft`: with a key, a message leaves with the token on its links and a fresh hash. */
  function Bind(draft: Draft, hash: string, token: Option<string>, message: bool, digest: Draft -> string): Bound {
    if token.Some? && message && TokenizeLinks(draft.body, token.value) != draft.body then
      var final := Draft(draft.subject, TokenizeLinks(draft.body, token.value));
      Bound(final, digest(final))
    else Bound(draft, hash)
  }

  /** The stored hash is that of the stored body, and the stored body still passes the link and
      length checks, provided both were so before the token was added. */
  lemma BoundContentIsChecked(draft: Draft, token: Option<string>, message: bool, digest: Draft -> string,
                              prefixes: seq<string>, maxWords: nat)
    requires token.Some? ==> UrlText(token.value)
    requires PassesChecks(draft.body, prefixes, maxWords)
    ensures var b := Bind(draft, digest(draft), token, message, digest);
      && b.hash == digest(b.draft)
      && PassesChecks(b.draft.body, prefixes, maxWords)
      && Words(b.draft.body, true) == Words(draft.body, true)
      && (token.Some? && message ==> b.draft.body == TokenizeLinks(draft.body, token.value))
      && (token.Some? && message ==> Urls(b.draft.body) == Extended(Urls(draft.body), token.value))
      && (token.None? || !message ==> b.draft == draft) && b.draft.subject == draft.subject
  {
    hide PassesChecks, Urls, Words, TokenizeLinks;
    if token.Some? {
      ChecksSurvive(draft.body, token.value, prefixes, maxWords);
      LinksAreExtended(draft.body, token.value);
      WordsAreKept(draft.body, token.value, true);
    }
  }

  // ---------------------------------------------------------------- what the scanner finds

  /** A whole link: the scheme in any letter case, and behind it at least one character, none of
      them white space, a quotation mark or a closing bracket. */
  ghost predicate IsLink(url: string) {
    || (|url| > 7 && Lower(url[..7]) == "http://" && UrlText(url[7..]))
    || (|url| > 8 && Lower(url[..8]) == "https://" && UrlText(url[8..]))
  }

  lemma UrlCharacters(c: char)
    ensures UrlChar(c) <==> !IsSpace(c) && c !in ">\")]"
  {
  }

  lemma SchemeExactly(s: string)
    ensures Scheme(s, 6) <==> |s| >= 7 && Lower(s[..7]) == "http://"
    ensures Scheme(s, 7) <==> |s| >= 8 && Lower(s[..8]) == "https://"
  {
    if |s| >= 7 {
      var t := Lower(s[..7]);
      assert t == [t[0], t[1], t[2], t[3], t[4], t[5], t[6]];
      assert "http://" == ['h', 't', 't', 'p', ':', '/', '/'];
    }
    if |s| >= 8 {
      var t := Lower(s[..8]);
      assert t == [t[0], t[1], t[2], t[3], t[4], t[5], t[6], t[7]];
      assert "https://" == ['h', 't', 't', 'p', 's', ':', '/', '/'];
    }
  }

  /** The link found is the only one that can stand in front and go no further. */
  lemma LinkExactly(url: string, rest: string)
    requires url != ""
    ensures MatchLength(url + rest) == |url| <==> IsLink(url) && (rest == "" || !UrlChar(rest[0]))
  {
    var s := url + rest;
    SchemeExactly(s);
    SchemeExactly(url);
    NotBoth(s);
    hide UrlChar, UrlText, Scheme;
    if |url| >= 7 { assert s[..7] == url[..7]; }
    if |url| >= 8 { assert s[..8] == url[..8]; }
    if |url| > 7 { LinkRun(url, rest, 7); }
    if |url| > 8 { LinkRun(url, rest, 8); }
    hide Run;
  }

  lemma NotBoth(s: string)
    ensures !(Scheme(s, 6) && Scheme(s, 7))
  {
  }

  lemma LinkRun(url: string, rest: string, k: nat)
    requires k < |url|
    ensures k + Run((url + rest)[k..]) == |url| <==> UrlText(url[k..]) && (rest == "" || !UrlChar(rest[0]))
  {
    var t := (url + rest)[k..];
    assert t == url[k..] + rest;
    if k + Run(t) == |url| {
      forall i | 0 <= i < |url[k..]| ensures UrlChar(url[k..][i]) { assert t[i] == url[k..][i]; }
      assert rest != "" ==> t[|url[k..]|] == rest[0];
    }
    if UrlText(url[k..]) && (rest == "" || !UrlChar(rest[0])) { RunOf(url[k..], rest); }
  }

  /** The links of a text: each goes as far as it can. */
  ghost function LinkRule(): Rule { (t, rest, name) => name == t && IsLink(t) && (rest == "" || !UrlChar(rest[0])) }

  lemma NoLinkBegins(s: string)
    requires s != ""
    ensures MatchLength(s) == 0 <==> NoneBegins(s, LinkRule())
    ensures MatchLength(s) > 0 ==> LinkRule()(s[..MatchLength(s)], s[MatchLength(s)..], s[..MatchLength(s)])
  {
    hide MatchLength, IsLink;
    var n := MatchLength(s);
    if n > 0 {
      assert s == s[..n] + s[n..];
      LinkExactly(s[..n], s[n..]);
      assert LinkRule()(s[..n], s[n..], s[..n]);
    }
    forall k, name | 0 <= k <= |s| && LinkRule()(s[..k], s[k..], name) ensures n > 0 {
      assert s == s[..k] + s[k..];
      assert IsLink(s[..k]);
      LinkIsSomething(s[..k]);
      LinkExactly(s[..k], s[k..]);
    }
  }

  lemma LinkIsSomething(url: string)
    requires IsLink(url)
    ensures url != ""
  {
  }

  /** What the rewriting does: the text is literal pieces with its links between them, and the
      result the same pieces with the links between them, each with the token as one more
      parameter of its query. */
  lemma {:induction false} TextIsRewoven(s: string, token: string) returns (literals: seq<string>, longer: seq<string>)
    ensures Parsed(s, literals, Urls(s), Urls(s), LinkRule()) && |literals| == |Urls(s)| + 1 == |longer| + 1
    ensures TokenizeLinks(s, token) == Woven(literals, longer)
    ensures forall i | 0 <= i < |longer| :: longer[i] == Urls(s)[i] + (if '?' in Urls(s)[i] then "&t=" else "?t=") + token
    decreases |s|
  {
    hide MatchLength, Parsed, Woven, NoneBegins, LinkRule;
    if s == "" {
      literals, longer := [""], [];
      EmptyIsParsed(LinkRule());
    } else {
      NoLinkBegins(s);
      var n := MatchLength(s);
      if n > 0 {
        var url, rest := s[..n], s[n..];
        literals, longer := TextIsRewoven(rest, token);
        ParsedPart(rest, literals, Urls(rest), Urls(rest), url, url, LinkRule());
        assert s == url + rest;
        var more := url + Extension(url, token);
        WovenBehind(more, literals, longer);
        literals, longer := [""] + literals, [more] + longer;
      } else {
        var rest := s[1..];
        assert s == [s[0]] + rest;
        literals, longer := TextIsRewoven(rest, token);
        ParsedLetter(rest, literals, Urls(rest), Urls(rest), s[0], LinkRule());
        WovenInFront(s[0], literals, longer);
        literals := [[s[0]] + literals[0]] + literals[1..];
      }
    }
  }

  // ---------------------------------------------------------------- what the checks count

  predicate Gap(s: string) { s != "" && forall i | 0 <= i < |s| :: IsSpace(s[i]) }
  predicate Word(s: string) { s != "" && forall i | 0 <= i < |s| :: !IsSpace(s[i]) }

  /** Words with white space between them, and perhaps around them, are counted one by one. */
  lemma {:induction false} WordsExactly(gaps: seq<string>, words: seq<string>)
    requires |gaps| == |words| + 1 && forall i | 0 <= i < |words| :: Word(words[i])
    requires forall i | 0 <= i < |gaps| :: Gap(gaps[i]) || (gaps[i] == "" && (i == 0 || i == |words|))
    ensures Words(Woven(gaps, words), true) == |words|
    decreases |words|
  {
    hide Word, Gap;
    if words == [] {
      NothingInGap(gaps[0], "", true);
      assert gaps[0] + "" == gaps[0];
    } else {
      var rest := Woven(gaps[1..], words[1..]);
      NothingInGap(gaps[0], words[0] + rest, true);
      assert Woven(gaps, words) == gaps[0] + (words[0] + rest);
      WordIsOne(words[0], rest);
      if |words| == 1 {
        NothingInGap(gaps[1], "", false);
        assert rest == gaps[1] + "" == gaps[1];
      } else {
        WordsExactly([gaps[1]] + gaps[2..], words[1..]);
        assert [gaps[1]] + gaps[2..] == gaps[1..];
        GapStarts(gaps[1], words[1] + Woven(gaps[2..], words[2..]));
        assert gaps[1..][1..] == gaps[2..] && words[1..][1..] == words[2..];
        assert rest == gaps[1] + (words[1] + Woven(gaps[2..], words[2..])) by {
          assert gaps[1..][0] == gaps[1] && words[1..][0] == words[1];
        }
      }
    }
  }

  lemma {:induction false} NothingInGap(gap: string, rest: string, before: bool)
    requires Gap(gap) || gap == ""
    ensures gap != "" ==> Words(gap + rest, before) == Words(rest, true)
    ensures gap == "" ==> gap + rest == rest
  {
    if |gap| > 1 {
      NothingInGap(gap[1..], rest, true);
      assert (gap + rest)[1..] == gap[1..] + rest;
    } else if |gap| == 1 {
      assert (gap + rest)[1..] == rest;
    }
  }

  lemma WordIsOne(word: string, rest: string)
    requires Word(word)
    ensures Words(word + rest, true) == 1 + Words(rest, false)
  {
    OneWord(word, rest, true);
  }

  lemma GapStarts(gap: string, rest: string)
    requires Gap(gap)
    ensures Words(gap + rest, false) == Words(gap + rest, true)
  {
    NothingInGap(gap, rest, false);
    NothingInGap(gap, rest, true);
  }

  /** The link begins, in any letter case, with one of the prefixes. */
  ghost predicate Prefixed(url: string, prefixes: seq<string>) {
    exists p, n :: p in prefixes && 0 <= n <= |url| && Lower(url[..n]) == Lower(p)
  }

  lemma AllowedExactly(url: string, prefixes: seq<string>)
    ensures Allowed(url, prefixes) <==> Prefixed(url, prefixes)
  {
    if Allowed(url, prefixes) {
      var i :| 0 <= i < |prefixes| && Lower(prefixes[i]) <= Lower(url);
      var n := |prefixes[i]|;
      assert Lower(url[..n]) == Lower(url)[..n] == Lower(prefixes[i]);
      assert prefixes[i] in prefixes;
    }
    if p, n :| p in prefixes && 0 <= n <= |url| && Lower(url[..n]) == Lower(p) {
      var i :| 0 <= i < |prefixes| && prefixes[i] == p;
      assert Lower(url[..n]) == Lower(url)[..n];
      assert Lower(prefixes[i]) <= Lower(url);
    }
  }

  /** What a body must pass: each of its links begins with an allowed prefix, and its words are not
      too many. Trimming it first makes no difference. */
  lemma ChecksExactly(body: string, prefixes: seq<string>, maxWords: nat)
    ensures PassesChecks(body, prefixes, maxWords) <==>
      Words(body, true) <= maxWords && forall i | 0 <= i < |Urls(body)| :: Prefixed(Urls(body)[i], prefixes)
  {
    hide Urls, Words, Strip, Allowed, Prefixed;
    TrimmingChangesNothing(body);
    forall i | 0 <= i < |Urls(body)| ensures Allowed(Urls(body)[i], prefixes) <==> Prefixed(Urls(body)[i], prefixes) {
      AllowedExactly(Urls(body)[i], prefixes);
    }
  }
}
