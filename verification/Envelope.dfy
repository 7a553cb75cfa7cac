/** The envelope around untrusted content.  The character rules are those of ASCII. */
module Envelope {
  import opened Options
  import opened Text

  const CLOSE_TAG := "</untrusted>"
  const INERT := "<\U{2044}untrusted>"

  // ---------------------------------------------------------------- finding and defusing the tag

  predicate TagAt(s: string, i: nat) {
    i + 12 <= |s| && s[i] == '<' && s[i + 1] == '/' && Lower(s[i + 2..i + 11]) == "untrusted" && s[i + 11] == '>'
  }

  /** How often the close tag occurs, in any letter case. */
  function Tags(s: string): nat {
    if s == "" then 0 else (if TagAt(s, 0) then 1 else 0) + Tags(s[1..])
  }

  function Escape(s: string): (r: string)
    ensures |r| == |s|
    decreases |s|
  {
    if s == "" then ""
    else if TagAt(s, 0) then INERT + Escape(s[12..])
    else [s[0]] + Escape(s[1..])
  }

  const BASE_SOURCES := {"web", "reply", "import", "research_note"}

  predicate AllowedSource(source: string) { source in BASE_SOURCES || "variable:" <= source }

  /** The fixed parts of the block, cut where a quotation mark or a line break stands. */
  function Block(content: string, source: string, idem: string, digest: string): string {
    "<untrusted source=" + ['\"'] + source + ['\"'] + " sha256=" + ['\"'] + digest + ['\"'] + " idem=" + ['\"'] + idem
    + ['\"'] + ">" + ['\n'] + content + ['\n'] + CLOSE_TAG
  }

  /** None stands for the refusal of an unknown source. */
  function Wrap(content: string, source: string, idem: string, sha256: string -> string): Option<string> {
    if AllowedSource(source) then Some(Block(Escape(content), source, idem, sha256(Escape(content)))) else None
  }

  // ---------------------------------------------------------------- the escape

  /** No second tag begins inside a tag. */
  lemma TagsAreApart(s: string, i: nat, k: nat)
    requires TagAt(s, i) && i < k < i + 12
    ensures k < |s| && s[k] != '<' && !TagAt(s, k)
  {
    if i + 2 <= k < i + 11 {
      assert LowerChar(s[i + 2..i + 11][k - i - 2]) == "untrusted"[k - i - 2];
      assert '<' !in "untrusted";
    }
  }

  lemma TagInSuffix(s: string, n: nat, i: nat)
    requires n <= i && n <= |s|
    ensures TagAt(s, i) <==> TagAt(s[n..], i - n)
  {
    if i + 12 <= |s| { assert s[n..][i - n + 2..i - n + 11] == s[i + 2..i + 11]; }
  }

  /** Character by character: the escape lowers the letters of a tag and replaces its slash, nothing else. */
  lemma {:induction false} EscapedAt(s: string, i: nat)
    requires i < |s|
    ensures Escape(s)[i] == '\U{2044}' || LowerChar(Escape(s)[i]) == LowerChar(s[i])
    ensures i > 0 && TagAt(s, i - 1) ==> Escape(s)[i] == '\U{2044}'
    decreases |s|
  {
    if TagAt(s, 0) {
      if i < 12 {
        if i > 1 { TagsAreApart(s, 0, i - 1); }
        EscapedTagAt(s, i);
      } else {
        EscapedAt(s[12..], i - 12);
        if i == 12 { TagsAreApart(s, 0, 11); } else { TagInSuffix(s, 12, i - 1); }
      }
    } else if i > 0 {
      EscapedAt(s[1..], i - 1);
      if i > 1 { TagInSuffix(s, 1, i - 1); }
    }
  }

  lemma EscapedTagAt(s: string, i: nat)
    requires TagAt(s, 0) && i < 12
    ensures Escape(s)[i] == INERT[i]
    ensures i == 1 || LowerChar(INERT[i]) == LowerChar(s[i])
  {
    if 2 <= i < 11 {
      assert LowerChar(s[2..11][i - 2]) == "untrusted"[i - 2];
      assert INERT[2..11] == "untrusted";
      assert INERT[i] == "untrusted"[i - 2];
      assert forall j | 0 <= j < 9 :: LowerChar("untrusted"[j]) == "untrusted"[j];
    }
  }

  lemma PlainLetter(c: char, j: nat)
    requires j < 9 && LowerChar(c) == "untrusted"[j]
    ensures c != '\U{2044}' && !Stop(c) && c != '<'
  {
    assert forall k | 0 <= k < 9 :: 'a' <= "untrusted"[k] <= 'z';
  }

  lemma SameLetters(s: string, i: nat)
    requires i + 12 <= |s| && Lower(Escape(s)[i + 2..i + 11]) == "untrusted"
    ensures Lower(s[i + 2..i + 11]) == "untrusted"
  {
    hide Escape;
    var r := Escape(s);
    var a, b := r[i + 2..i + 11], s[i + 2..i + 11];
    forall k | 0 <= k < 9 ensures LowerChar(b[k]) == LowerChar(a[k]) {
      PlainLetter(a[k], k);
      EscapedAt(s, i + 2 + k);
    }
    assert Lower(b) == Lower(a);
  }

  /** Escaped text holds no close tag. */
  lemma EscapedHasNoTag(s: string, i: nat)
    ensures !TagAt(Escape(s), i)
  {
    if TagAt(Escape(s), i) {
      hide Escape;
      SameLetters(s, i);
      EscapedAt(s, i);
      EscapedAt(s, i + 1);
      EscapedAt(s, i + 11);
      assert false;
    }
  }

  lemma {:induction false} NoTags(s: string)
    requires forall i :: !TagAt(s, i)
    ensures Tags(s) == 0
  {
    if s != "" {
      forall i: nat ensures !TagAt(s[1..], i) { TagInSuffix(s, 1, i + 1); }
      NoTags(s[1..]);
    }
  }

  /** The escape leaves untouched exactly the texts without a tag. */
  lemma {:induction false} EscapeOnlyTags(s: string)
    ensures Escape(s) == s <==> Tags(s) == 0
    decreases |s|
  {
    if s != "" {
      if TagAt(s, 0) {
        assert Escape(s)[1] == INERT[1] && s[1] == '/';
      } else {
        EscapeOnlyTags(s[1..]);
        assert s == [s[0]] + s[1..];
        assert Escape(s)[1..] == Escape(s[1..]);
      }
    }
  }

  // ---------------------------------------------------------------- the block

  predicate Stop(c: char) { c == '\"' || c == '\n' }

  /** A quotation mark or a line break keeps the tags on its two sides apart. */
  lemma {:induction false} TagsAcrossStop(a: string, q: char, b: string)
    requires Stop(q)
    ensures Tags(a + [q] + b) == Tags(a) + Tags(b)
  {
    var t := a + [q] + b;
    if a == "" {
      assert t == [q] + b && t[1..] == b;
    } else {
      assert t[1..] == a[1..] + [q] + b;
      TagsAcrossStop(a[1..], q, b);
      FrontTag(a, q, b);
    }
  }

  lemma TagHasNoStop(s: string, j: nat)
    requires TagAt(s, 0) && j < 12
    ensures !Stop(s[j])
  {
    if 2 <= j < 11 {
      assert LowerChar(s[2..11][j - 2]) == "untrusted"[j - 2];
      PlainLetter(s[j], j - 2);
    }
  }

  lemma FrontTag(a: string, q: char, b: string)
    requires Stop(q) && a != ""
    ensures TagAt(a + [q] + b, 0) <==> TagAt(a, 0)
  {
    var t := a + [q] + b;
    assert t[|a|] == q;
    if |a| >= 12 {
      assert t[2..11] == a[2..11];
    } else if TagAt(t, 0) {
      TagHasNoStop(t, |a|);
      assert false;
    }
  }

  lemma {:induction false} NoSlashNoTag(s: string)
    requires '/' !in s
    ensures Tags(s) == 0
  {
    if s != "" {
      assert |s| > 1 ==> s[1] in s;
      NoSlashNoTag(s[1..]);
    }
  }

  lemma CloseTagIsOneTag()
    ensures Tags(CLOSE_TAG) == 1
  {
    assert CLOSE_TAG[2..11] == "untrusted";
    forall j | 0 <= j < 9 ensures LowerChar("untrusted"[j]) == "untrusted"[j] {}
    assert Lower(CLOSE_TAG[2..11]) == "untrusted";
    assert |CLOSE_TAG[1..]| == 11;
    NoTags(CLOSE_TAG[1..]);
  }

  lemma FixedPartsHaveNoTag(digest: string)
    requires HexDigits(digest)
    ensures Tags("<untrusted source=") == Tags(" sha256=") == Tags(" idem=") == Tags(">") == 0
    ensures Tags(digest) == 0 && Tags(CLOSE_TAG) == 1
  {
    hide Tags;
    NoSlashNoTag("<untrusted source=");
    NoSlashNoTag(" sha256=");
    NoSlashNoTag(" idem=");
    NoSlashNoTag(">");
    NoSlashNoTag(digest);
    CloseTagIsOneTag();
  }

  /** The close tags of a block: its own at the end, and those of the source and of the identifier. */
  lemma BlockTags(content: string, source: string, idem: string, digest: string)
    requires HexDigits(digest)
    ensures Tags(Block(content, source, idem, digest)) == Tags(source) + Tags(idem) + Tags(content) + 1
  {
    hide Tags;
    FixedPartsHaveNoTag(digest);
    var a := "<untrusted source=";
    TagsAcrossStop(a, '\"', source);
    var b := a + ['\"'] + source;
    TagsAcrossStop(b, '\"', " sha256=");
    var c := b + ['\"'] + " sha256=";
    TagsAcrossStop(c, '\"', digest);
    var d := c + ['\"'] + digest;
    TagsAcrossStop(d, '\"', " idem=");
    var e := d + ['\"'] + " idem=";
    TagsAcrossStop(e, '\"', idem);
    var f := e + ['\"'] + idem;
    TagsAcrossStop(f, '\"', ">");
    var g := f + ['\"'] + ">";
    TagsAcrossStop(g, '\n', content);
    var h := g + ['\n'] + content;
    TagsAcrossStop(h, '\n', CLOSE_TAG);
    assert h + ['\n'] + CLOSE_TAG == Block(content, source, idem, digest);
  }

  /** For all content: the block ends in the close tag, and holds it exactly once when, and only
      when, neither the source nor the identifier brings one along. */
  lemma OnlyItsOwnTag(content: string, source: string, idem: string, sha256: string -> string)
    requires AllowedSource(source) && forall t :: HexDigits(sha256(t))
    ensures var text := Wrap(content, source, idem, sha256).value;
      && |text| >= 12 && text[|text| - 12..] == CLOSE_TAG
      && (Tags(text) == 1 <==> Tags(source) == 0 && Tags(idem) == 0)
  {
    hide Escape, Tags;
    var text := Wrap(content, source, idem, sha256).value;
    forall i: nat ensures !TagAt(Escape(content), i) { EscapedHasNoTag(content, i); }
    NoTags(Escape(content));
    BlockTags(Escape(content), source, idem, sha256(Escape(content)));
    assert |CLOSE_TAG| == 12;
  }

  /** Only a variable's slot name can bring a tag along as a source. */
  lemma BaseSourcesHaveNoTag(source: string)
    requires source in BASE_SOURCES
    ensures Tags(source) == 0
  {
    hide Tags;
    NoSlashNoTag(source);
  }

  // ---------------------------------------------------------------- what is kept

  /** The tag in any letter case. */
  lemma TagIsCloseTag(s: string, i: nat)
    requires i + 12 <= |s|
    ensures TagAt(s, i) <==> Lower(s[i..i + 12]) == "</untrusted>"
  {
    var t := s[i..i + 12];
    assert forall k | 0 <= k < 12 :: t[k] == s[i + k];
    assert t[2..11] == s[i + 2..i + 11];
    assert Lower(t)[2..11] == Lower(t[2..11]);
    assert "</untrusted>"[2..11] == "untrusted";
    var w := Lower(t);
    assert w == [w[0], w[1]] + w[2..11] + [w[11]];
  }

  /** A tag is replaced by its inert twin; what stands before it stays, and what stands behind it
      is escaped in turn. */
  lemma {:induction false} EscapeReplaces(a: string, tag: string, b: string)
    requires |tag| == 12 && TagAt(tag, 0) && forall i | 0 <= i < |a| :: !TagAt(a + tag + b, i)
    ensures Escape(a + tag + b) == a + "<\U{2044}untrusted>" + Escape(b)
  {
    var s := a + tag + b;
    if a == "" {
      assert s[2..11] == tag[2..11] && s[12..] == b;
    } else {
      var t := a[1..] + tag + b;
      assert s[1..] == t;
      forall i | 0 <= i < |a| - 1 ensures !TagAt(t, i) { TagInSuffix(s, 1, i + 1); }
      EscapeReplaces(a[1..], tag, b);
      assert !TagAt(s, 0);
    }
  }

  /** Who wraps gets a block with a head of one line, from which source and digest can be read, and
      then the escaped content, up to the tag at the end. */
  lemma ContentIsRecovered(content: string, source: string, idem: string, sha256: string -> string)
    requires '\n' !in source && '\n' !in idem && forall t :: HexDigits(sha256(t))
    ensures Wrap(content, source, idem, sha256).Some?
      <==> source == "web" || source == "reply" || source == "import" || source == "research_note" || "variable:" <= source
    ensures Wrap(content, source, idem, sha256).Some? ==>
      var text := Wrap(content, source, idem, sha256).value;
      var k := IndexOf(text, '\n');
      && k + 13 < |text| && text[k + 1..|text| - 13] == Escape(content)
      && text[..k] == "<untrusted source=\"" + source + "\" sha256=\"" + sha256(Escape(content)) + "\" idem=\"" + idem + "\">"
  {
    hide Escape;
    if AllowedSource(source) {
      var body, digest := Escape(content), sha256(Escape(content));
      var head := "<untrusted source=\"" + source + "\" sha256=\"" + digest + "\" idem=\"" + idem + "\">";
      var text := Wrap(content, source, idem, sha256).value;
      BlockParts(body, source, idem, digest, head);
      HeadIsOneLine(source, idem, digest, head);
      assert text[..|head|] == head;
      IndexIs(text, '\n', |head|);
      assert |CLOSE_TAG| == 12;
    }
  }

  lemma BlockParts(content: string, source: string, idem: string, digest: string, head: string)
    requires head == "<untrusted source=\"" + source + "\" sha256=\"" + digest + "\" idem=\"" + idem + "\">"
    ensures Block(content, source, idem, digest) == head + "\n" + content + "\n" + CLOSE_TAG
  {
    assert "<untrusted source=\"" == "<untrusted source=" + ['\"'];
    assert "\" sha256=\"" == ['\"'] + " sha256=" + ['\"'];
    assert "\" idem=\"" == ['\"'] + " idem=" + ['\"'];
    assert "\">" == ['\"'] + ">";
    assert "\n" == ['\n'];
  }

  lemma HeadIsOneLine(source: string, idem: string, digest: string, head: string)
    requires '\n' !in source && '\n' !in idem && HexDigits(digest)
    requires head == "<untrusted source=\"" + source + "\" sha256=\"" + digest + "\" idem=\"" + idem + "\">"
    ensures '\n' !in head
  {
    assert '\n' !in digest;
    assert '\n' !in "<untrusted source=\"" && '\n' !in "\" sha256=\"" && '\n' !in "\" idem=\"" && '\n' !in "\">";
  }
}
