/** E-mail canonicalisation: the normal form on which suppression, tombstones and uniqueness work. */
module Canonical {
  import opened Text

  datatype Result = Ok(address: string) | Invalid

  // ---------------------------------------------------------------- the canonical form

  predicate HasInnerDot(domain: string) {
    exists i :: 0 < i < |domain| - 1 && domain[i] == '.'
  }

  function LocalOf(s: string): string { s[..IndexOf(s, '@')] }
  function DomainOf(s: string): string { if IndexOf(s, '@') < |s| then s[IndexOf(s, '@') + 1..] else "" }

  predicate Shape(s: string) {
    && (forall c | c in s :: !IsSpace(c))
    && LocalOf(s) != "" && '@' !in DomainOf(s) && HasInnerDot(DomainOf(s))
  }

  /** What the IDNA codec demands of an ASCII name. */
  predicate LabelsFit(domain: string)
    decreases |domain|
  {
    var i := IndexOf(domain, '.');
    if i == |domain| then |domain| < 64
    else 0 < i < 64 && LabelsFit(domain[i + 1..])
  }

  predicate IsGmail(domain: string) { domain == "gmail.com" || domain == "googlemail.com" }

  function Head(local: string): string { local[..IndexOf(local, '+')] }

  function Normal(candidate: string): Result {
    if !Shape(candidate) then Invalid
    else
      var local := Head(LocalOf(candidate));
      var domain := DomainOf(candidate);
      if local == "" || !LabelsFit(domain) then Invalid
      else if IsGmail(domain) then
        var bare := Without(local, '.');
        if bare == "" then Invalid else Ok(bare + "@gmail.com")
      else Ok(local + "@" + domain)
  }

  function Canonicalize(email: string): Result {
    Normal(Lower(Strip(email)))
  }

  // ---------------------------------------------------------------- the rewrites

  predicate Settled(s: string) { Shape(s) && Lower(s) == s }

  /** One address is another with a plus suffix put behind its local part. */
  predicate PlusSuffix(x: string, y: string) {
    && Settled(x) && Settled(y) && DomainOf(x) == DomainOf(y)
    && LocalOf(y) <= LocalOf(x) && |LocalOf(y)| < |LocalOf(x)| && LocalOf(x)[|LocalOf(y)|] == '+'
  }

  predicate GmailDots(x: string, y: string) {
    && Settled(x) && Settled(y) && DomainOf(x) == DomainOf(y) && IsGmail(DomainOf(x))
    && Without(LocalOf(x), '.') == Without(LocalOf(y), '.')
  }

  predicate GmailAlias(x: string, y: string) {
    Settled(x) && Settled(y) && LocalOf(x) == LocalOf(y) && IsGmail(DomainOf(x)) && IsGmail(DomainOf(y))
  }

  /** One rewrite: surrounding white space, letter case, a plus suffix, dots in a Gmail local
      part, or one Gmail domain for the other. */
  predicate Step(x: string, y: string) {
    || Strip(x) == Strip(y)
    || Lower(x) == Lower(y)
    || PlusSuffix(x, y)
    || GmailDots(x, y)
    || GmailAlias(x, y)
  }

  ghost predicate IsChain(path: seq<string>) {
    path != [] && forall i | 0 < i < |path| :: Step(path[i - 1], path[i]) || Step(path[i], path[i - 1])
  }

  ghost predicate Joined(x: string, y: string) {
    exists path :: IsChain(path) && path[0] == x && path[|path| - 1] == y
  }

  // ---------------------------------------------------------------- every rewrite keeps the form

  lemma {:induction false} LowerStrip(s: string)
    ensures Lower(Strip(s)) == Strip(Lower(s))
  {
    if s != "" {
      if IsSpace(s[0]) {
        LowerStrip(s[1..]);
        assert Lower(s)[1..] == Lower(s[1..]);
      } else if IsSpace(s[|s| - 1]) {
        LowerStrip(s[..|s| - 1]);
        assert Lower(s)[..|s| - 1] == Lower(s[..|s| - 1]);
      }
    }
  }

  lemma {:induction false} HeadIgnoresSuffix(l: string, k: nat)
    requires k < |l| && l[k] == '+'
    ensures Head(l) == Head(l[..k])
  {
    if k > 0 && l[0] != '+' {
      HeadIgnoresSuffix(l[1..], k - 1);
      assert l[1..][..k - 1] == l[..k][1..];
      assert Head(l) == [l[0]] + Head(l[1..]);
      assert Head(l[..k]) == [l[0]] + Head(l[..k][1..]);
    }
  }

  lemma {:induction false} HeadOfBare(l: string)
    ensures Head(Without(l, '.')) == Without(Head(l), '.')
  {
    if l != "" && l[0] != '+' {
      HeadOfBare(l[1..]);
      assert Head(l) == [l[0]] + Head(l[1..]);
      if l[0] != '.' {
        var w := Without(l, '.');
        assert w[1..] == Without(l[1..], '.');
        assert Head(w) == [l[0]] + Head(w[1..]);
      }
    }
  }

  lemma SettledIsCandidate(x: string)
    requires Settled(x)
    ensures Canonicalize(x) == Normal(x)
  {
  }

  lemma LabelEnds(domain: string, i: nat)
    requires i < |domain| && domain[i] == '.' && '.' !in domain[..i]
    ensures LabelsFit(domain) <==> (0 < i < 64 && LabelsFit(domain[i + 1..]))
  {
    IndexIs(domain, '.', i);
  }

  lemma GmailLabels()
    ensures LabelsFit("gmail.com") && LabelsFit("googlemail.com")
  {
    hide LabelsFit;
    assert "gmail.com"[6..] == "com" && "googlemail.com"[11..] == "com";
    LabelEnds("gmail.com", 5);
    LabelEnds("googlemail.com", 10);
    LastLabel("com");
  }

  lemma LastLabel(domain: string)
    requires '.' !in domain && |domain| < 64
    ensures LabelsFit(domain)
  {
    IndexIs(domain, '.', |domain|);
  }

  /** On settled addresses the form depends on the bare local part and the folded domain alone. */
  lemma SettledForm(x: string)
    requires Settled(x)
    ensures IsGmail(DomainOf(x)) ==>
      Canonicalize(x) == (if Without(Head(LocalOf(x)), '.') == "" then Invalid
                          else Ok(Without(Head(LocalOf(x)), '.') + "@gmail.com"))
    ensures !IsGmail(DomainOf(x)) ==>
      Canonicalize(x) == (if Head(LocalOf(x)) == "" || !LabelsFit(DomainOf(x)) then Invalid
                          else Ok(Head(LocalOf(x)) + "@" + DomainOf(x)))
  {
    GmailLabels();
    SettledIsCandidate(x);
    hide LabelsFit, Without, Head, LocalOf, DomainOf, Settled, Canonicalize;
    assert Shape(x) by { SettledIsShaped(x); }
    hide Shape;
    assert Head(LocalOf(x)) == "" ==> Without(Head(LocalOf(x)), '.') == "";
  }

  lemma SettledIsShaped(x: string)
    requires Settled(x)
    ensures Shape(x)
  {
  }

  lemma CaseKeepsForm(x: string, y: string)
    requires Strip(x) == Strip(y) || Lower(x) == Lower(y)
    ensures Canonicalize(x) == Canonicalize(y)
  {
    hide Normal, Lower, Strip;
    LowerStrip(x);
    LowerStrip(y);
  }

  lemma SettledStepKeepsForm(x: string, y: string)
    requires PlusSuffix(x, y) || GmailDots(x, y) || GmailAlias(x, y)
    ensures Canonicalize(x) == Canonicalize(y)
  {
    hide Canonicalize, Head, Without, LabelsFit, Settled, LocalOf, DomainOf, IsGmail, Lower;
    SettledForm(x);
    SettledForm(y);
    if PlusSuffix(x, y) {
      HeadIgnoresSuffix(LocalOf(x), |LocalOf(y)|);
      assert LocalOf(x)[..|LocalOf(y)|] == LocalOf(y);
    } else if GmailDots(x, y) {
      HeadOfBare(LocalOf(x));
      HeadOfBare(LocalOf(y));
    }
  }

  lemma StepKeepsForm(x: string, y: string)
    requires Step(x, y)
    ensures Canonicalize(x) == Canonicalize(y)
  {
    hide Canonicalize, PlusSuffix, GmailDots, GmailAlias, Lower, Strip;
    if Strip(x) == Strip(y) || Lower(x) == Lower(y) {
      CaseKeepsForm(x, y);
    } else {
      SettledStepKeepsForm(x, y);
    }
  }

  lemma {:induction false} ChainKeepsForm(path: seq<string>)
    requires IsChain(path)
    ensures Canonicalize(path[0]) == Canonicalize(path[|path| - 1])
  {
    hide Canonicalize, Step;
    if |path| > 1 {
      var rest := path[..|path| - 1];
      assert IsChain(rest);
      ChainKeepsForm(rest);
      var x, y := path[|path| - 2], path[|path| - 1];
      assert Step(path[|path| - 1 - 1], path[|path| - 1]) || Step(path[|path| - 1], path[|path| - 1 - 1]);
      if Step(x, y) { StepKeepsForm(x, y); } else { StepKeepsForm(y, x); }
    }
  }

  // ---------------------------------------------------------------- every accepted address reaches its form

  lemma SplitAt(l: string, d: string)
    requires '@' !in l
    ensures LocalOf(l + "@" + d) == l && DomainOf(l + "@" + d) == d
  {
    var s := l + "@" + d;
    assert s[..|l|] == l && s[|l| + 1..] == d;
    IndexIs(s, '@', |l|);
  }

  predicate Plain(s: string) {
    forall i | 0 <= i < |s| :: !IsSpace(s[i]) && LowerChar(s[i]) == s[i]
  }

  lemma SettledIsPlain(s: string)
    requires (forall c | c in s :: !IsSpace(c)) && Lower(s) == s
    ensures Plain(s)
  {
    forall i | 0 <= i < |s| ensures !IsSpace(s[i]) && LowerChar(s[i]) == s[i] {
      assert s[i] in s && Lower(s)[i] == LowerChar(s[i]);
    }
  }

  lemma PlainParts(s: string, k: nat)
    requires Plain(s) && k < |s|
    ensures Plain(s[..k]) && Plain(s[k + 1..])
  {
    hide IsSpace, LowerChar;
  }

  lemma SettledParts(s: string)
    requires Settled(s)
    ensures Plain(LocalOf(s)) && Plain(DomainOf(s))
    ensures '@' !in LocalOf(s) && '@' !in DomainOf(s) && s == LocalOf(s) + "@" + DomainOf(s)
    ensures LocalOf(s) != "" && HasInnerDot(DomainOf(s))
  {
    SettledIsPlain(s);
    hide Plain, IsSpace, Lower;
    var k := IndexOf(s, '@');
    assert k < |s| && s == s[..k] + "@" + s[k + 1..];
    PlainParts(s, k);
  }

  /** Any plain local part in front of any plain dotted domain is a settled address. */
  lemma PartsSettle(l: string, d: string)
    requires Plain(l) && Plain(d) && l != "" && '@' !in l && '@' !in d && HasInnerDot(d)
    ensures Settled(l + "@" + d) && LocalOf(l + "@" + d) == l && DomainOf(l + "@" + d) == d
  {
    var t := l + "@" + d;
    SplitAt(l, d);
    PlainIsLower(l, d);
  }

  lemma PlainIsLower(l: string, d: string)
    requires Plain(l) && Plain(d)
    ensures var t := l + "@" + d; Lower(t) == t && forall c | c in t :: !IsSpace(c)
  {
    var t := l + "@" + d;
    forall i | 0 <= i < |t| ensures !IsSpace(t[i]) && LowerChar(t[i]) == t[i] {
      if i < |l| { assert t[i] == l[i]; } else if i > |l| { assert t[i] == d[i - |l| - 1]; }
    }
  }

  lemma GmailIsPlain()
    ensures Plain("gmail.com") && '@' !in "gmail.com" && HasInnerDot("gmail.com")
  {
    assert "gmail.com"[5] == '.';
  }

  lemma {:induction false} BareIsPlain(l: string)
    requires Plain(l) && '@' !in l
    ensures Plain(Without(l, '.')) && '@' !in Without(l, '.')
  {
    if l != "" {
      assert Plain(l[1..]) by { forall i | 0 <= i < |l| - 1 ensures l[1..][i] == l[i + 1] {} }
      BareIsPlain(l[1..]);
    }
  }

  /** An accepted address turns into its form by the rewrites: trimmed, lowered, without its
      suffix and, at Gmail, in the one domain and without dots. */
  ghost function Road(email: string): seq<string> {
    var s := Lower(Strip(email));
    var head, domain := Head(LocalOf(s)), DomainOf(s);
    if IsGmail(domain) then
      [email, Strip(email), s, head + "@" + domain, head + "@gmail.com", Without(head, '.') + "@gmail.com"]
    else [email, Strip(email), s, head + "@" + domain]
  }

  lemma StripTwice(s: string)
    ensures Strip(Strip(s)) == Strip(s)
  {
  }

  lemma LowerTwice(s: string)
    ensures Lower(Lower(s)) == Lower(s)
  {
  }

  lemma HeadIsPlain(l: string)
    requires Plain(l) && '@' !in l
    ensures Plain(Head(l)) && '@' !in Head(l)
  {
  }

  /** The last links of the road: all their ends are settled. */
  lemma AcceptedParts(s: string, head: string, domain: string)
    requires Settled(s) && head == Head(LocalOf(s)) && domain == DomainOf(s) && head != ""
    ensures Settled(head + "@" + domain)
    ensures LocalOf(head + "@" + domain) == head && DomainOf(head + "@" + domain) == domain
    ensures Settled(head + "@gmail.com")
    ensures LocalOf(head + "@gmail.com") == head && DomainOf(head + "@gmail.com") == "gmail.com"
    ensures Plain(head) && '@' !in head
  {
    hide Settled, Shape, LocalOf, DomainOf, Head, Plain, Lower;
    SettledParts(s);
    HeadIsPlain(LocalOf(s));
    GmailIsPlain();
    PartsSettle(head, domain);
    PartsSettle(head, "gmail.com");
    assert head + "@" + "gmail.com" == head + "@gmail.com";
  }

  lemma BareSettles(head: string)
    requires Plain(head) && '@' !in head && Without(head, '.') != ""
    ensures var t := Without(head, '.') + "@gmail.com";
      Settled(t) && LocalOf(t) == Without(head, '.') && DomainOf(t) == "gmail.com"
  {
    hide Settled, Shape, LocalOf, DomainOf, Plain, Without;
    BareIsPlain(head);
    GmailIsPlain();
    PartsSettle(Without(head, '.'), "gmail.com");
    assert Without(head, '.') + "@" + "gmail.com" == Without(head, '.') + "@gmail.com";
  }

  /** Cutting the suffix is a step, or nothing when there is no suffix. */
  lemma CutIsStep(s: string)
    requires Settled(s) && Head(LocalOf(s)) != ""
    requires Settled(Head(LocalOf(s)) + "@" + DomainOf(s))
    ensures Step(s, Head(LocalOf(s)) + "@" + DomainOf(s))
  {
    var t := Head(LocalOf(s)) + "@" + DomainOf(s);
    SettledParts(s);
    hide Settled, Lower, Strip, Plain;
    HeadOrLess(LocalOf(s));
    SplitAt(Head(LocalOf(s)), DomainOf(s));
    hide LocalOf, DomainOf, Head;
    if Head(LocalOf(s)) == LocalOf(s) {
      assert t == s;
    } else {
      assert PlusSuffix(s, t);
    }
  }

  lemma HeadOrLess(l: string)
    ensures Head(l) <= l && (Head(l) != l ==> |Head(l)| < |l| && l[|Head(l)|] == '+')
    ensures '@' !in l ==> '@' !in Head(l)
  {
  }

  lemma CandidateIsSettled(email: string)
    requires Canonicalize(email).Ok?
    ensures var s := Lower(Strip(email)); Settled(s) && Head(LocalOf(s)) != ""
  {
    LowerTwice(Strip(email));
  }

  /** Where the road ends, read off the definition. */
  lemma FormOf(email: string)
    requires Canonicalize(email).Ok?
    ensures var s := Lower(Strip(email)); var head, domain := Head(LocalOf(s)), DomainOf(s);
      Canonicalize(email).address ==
        if IsGmail(domain) then Without(head, '.') + "@gmail.com" else head + "@" + domain
    ensures var s := Lower(Strip(email));
      IsGmail(DomainOf(s)) ==> Without(Head(LocalOf(s)), '.') != ""
  {
    hide Shape, LocalOf, DomainOf, Head, Without, Lower, Strip, LabelsFit;
  }

  lemma FirstLinks(email: string)
    ensures Step(email, Strip(email)) && Step(Strip(email), Lower(Strip(email)))
  {
    StripTwice(email);
    LowerTwice(Strip(email));
  }

  lemma LastLinks(s: string)
    requires Settled(s) && Head(LocalOf(s)) != ""
    ensures Step(s, Head(LocalOf(s)) + "@" + DomainOf(s))
    ensures IsGmail(DomainOf(s)) && Without(Head(LocalOf(s)), '.') != "" ==>
      && Step(Head(LocalOf(s)) + "@" + DomainOf(s), Head(LocalOf(s)) + "@gmail.com")
      && Step(Head(LocalOf(s)) + "@gmail.com", Without(Head(LocalOf(s)), '.') + "@gmail.com")
  {
    hide Settled, LocalOf, DomainOf, Head, Without, Step, Plain;
    var head, domain := Head(LocalOf(s)), DomainOf(s);
    AcceptedParts(s, head, domain);
    CutIsStep(s);
    if IsGmail(domain) && Without(head, '.') != "" {
      BareSettles(head);
      GmailLinks(head, domain);
    }
  }

  lemma RoadIsChain(email: string)
    requires Canonicalize(email).Ok?
    ensures IsChain(Road(email))
    ensures Road(email)[0] == email && Ok(Road(email)[|Road(email)| - 1]) == Canonicalize(email)
  {
    hide Canonicalize, Settled, LocalOf, DomainOf, Head, Without, Lower, Strip, Step, IsGmail;
    var s := Lower(Strip(email));
    CandidateIsSettled(email);
    FormOf(email);
    FirstLinks(email);
    LastLinks(s);
  }

  lemma GmailLinks(head: string, domain: string)
    requires IsGmail(domain)
    requires Settled(head + "@" + domain) && LocalOf(head + "@" + domain) == head
    requires DomainOf(head + "@" + domain) == domain
    requires Settled(head + "@gmail.com") && LocalOf(head + "@gmail.com") == head
    requires DomainOf(head + "@gmail.com") == "gmail.com"
    requires var t := Without(head, '.') + "@gmail.com";
      Settled(t) && LocalOf(t) == Without(head, '.') && DomainOf(t) == "gmail.com"
    ensures Step(head + "@" + domain, head + "@gmail.com")
    ensures Step(head + "@gmail.com", Without(head, '.') + "@gmail.com")
  {
    var t := Without(head, '.');
    assert Without(t, '.') == t;
    hide Settled, LocalOf, DomainOf, Lower, Strip, Without;
    assert GmailAlias(head + "@" + domain, head + "@gmail.com");
    assert GmailDots(head + "@gmail.com", t + "@gmail.com");
  }

  // ---------------------------------------------------------------- main results

  lemma ReversedChain(path: seq<string>, back: seq<string>)
    requires IsChain(path) && |back| == |path|
    requires forall i | 0 <= i < |path| :: back[i] == path[|path| - 1 - i]
    ensures IsChain(back)
  {
    hide Step;
    forall i | 0 < i < |back| ensures Step(back[i - 1], back[i]) || Step(back[i], back[i - 1]) {
      var j := |path| - i;
      assert Step(path[j - 1], path[j]) || Step(path[j], path[j - 1]);
    }
  }

  /** Two accepted addresses have the same form exactly when the rewrites join them. */
  lemma SameFormMeansJoined(x: string, y: string)
    requires Canonicalize(x).Ok? && Canonicalize(y).Ok?
    ensures Canonicalize(x) == Canonicalize(y) <==> Joined(x, y)
  {
    hide Canonicalize, Step, Road;
    if Joined(x, y) {
      var path :| IsChain(path) && path[0] == x && path[|path| - 1] == y;
      ChainKeepsForm(path);
    }
    if Canonicalize(x) == Canonicalize(y) {
      RoadIsChain(x);
      RoadIsChain(y);
      var a, b := Road(x), Road(y);
      var back := seq(|b|, i requires 0 <= i < |b| => b[|b| - 1 - i]);
      ReversedChain(b, back);
      var path := a + back[1..];
      JoinedChains(a, back, path);
    }
  }

  lemma JoinedChains(a: seq<string>, b: seq<string>, path: seq<string>)
    requires IsChain(a) && IsChain(b) && a[|a| - 1] == b[0] && path == a + b[1..]
    ensures IsChain(path) && path[0] == a[0] && path[|path| - 1] == b[|b| - 1]
  {
    hide Step;
    forall i | 0 < i < |path| ensures Step(path[i - 1], path[i]) || Step(path[i], path[i - 1]) {
      if i < |a| {
        assert Step(a[i - 1], a[i]) || Step(a[i], a[i - 1]);
      } else {
        var j := i - |a| + 1;
        assert Step(b[j - 1], b[j]) || Step(b[j], b[j - 1]);
      }
    }
  }

  /** The form is its own form. */
  lemma Idempotent(email: string)
    requires Canonicalize(email).Ok?
    ensures Canonicalize(Canonicalize(email).address) == Canonicalize(email)
  {
    hide Canonicalize, Step, Road;
    RoadIsChain(email);
    ChainKeepsForm(Road(email));
  }

  /** No rewrite makes a refused address acceptable. */
  lemma RefusalIsStable(x: string, y: string)
    requires Joined(x, y)
    ensures Canonicalize(x).Ok? <==> Canonicalize(y).Ok?
  {
    hide Canonicalize, Step;
    var path :| IsChain(path) && path[0] == x && path[|path| - 1] == y;
    ChainKeepsForm(path);
  }

  // ---------------------------------------------------------------- which addresses, which form

  /** `domain[i..j]` is one of the labels between the dots. */
  predicate Label(domain: string, i: nat, j: nat) {
    && i <= j <= |domain| && (forall k | i <= k < j :: domain[k] != '.')
    && (i == 0 || domain[i - 1] == '.') && (j == |domain| || domain[j] == '.')
  }

  ghost predicate LabelsAreShort(domain: string) {
    forall i: nat, j: nat | Label(domain, i, j) :: j - i < 64 && (j < |domain| ==> i < j)
  }

  lemma FirstLabel(domain: string, n: nat, j: nat)
    requires n <= |domain| && (forall k | 0 <= k < n :: domain[k] != '.') && (n < |domain| ==> domain[n] == '.')
    ensures Label(domain, 0, j) <==> j == n
  {
  }

  lemma LaterLabel(domain: string, n: nat, i: nat, j: nat)
    requires n < |domain| && (forall k | 0 <= k < n :: domain[k] != '.') && domain[n] == '.' && i > 0
    ensures Label(domain, i, j) <==> i > n && j > n && Label(domain[n + 1..], i - n - 1, j - n - 1)
  {
    var rest := domain[n + 1..];
    assert forall k | n < k < |domain| :: domain[k] == rest[k - n - 1];
  }

  lemma NoOtherLabel(domain: string, i: nat, j: nat)
    requires (forall k | 0 <= k < |domain| :: domain[k] != '.') && Label(domain, i, j)
    ensures i == 0
  {
  }

  lemma LettersBefore(s: string, c: char)
    ensures forall k | 0 <= k < IndexOf(s, c) :: s[k] != c
  {
    assert forall k | 0 <= k < IndexOf(s, c) :: s[k] == s[..IndexOf(s, c)][k];
  }

  /** Each label has at most 63 characters, and none but the last may be empty. */
  lemma {:induction false} LabelsExactly(domain: string)
    ensures LabelsFit(domain) <==> LabelsAreShort(domain)
    decreases |domain|
  {
    hide Label;
    var n := IndexOf(domain, '.');
    LettersBefore(domain, '.');
    forall j: nat ensures Label(domain, 0, j) <==> j == n { FirstLabel(domain, n, j); }
    if n < |domain| {
      var rest := domain[n + 1..];
      LabelsExactly(rest);
      forall i: nat, j: nat | Label(domain, i, j) && i > 0 ensures i > n && j > n && Label(rest, i - n - 1, j - n - 1) {
        LaterLabel(domain, n, i, j);
      }
      forall i: nat, j: nat | Label(rest, i, j) ensures Label(domain, i + n + 1, j + n + 1) {
        LaterLabel(domain, n, i + n + 1, j + n + 1);
      }
      if LabelsAreShort(domain) {
        assert Label(domain, 0, n);
        forall i: nat, j: nat | Label(rest, i, j) ensures j - i < 64 && (j < |rest| ==> i < j) {
          assert Label(domain, i + n + 1, j + n + 1);
        }
      }
    } else {
      assert Label(domain, 0, n);
      forall i: nat, j: nat | Label(domain, i, j) ensures i == 0 { NoOtherLabel(domain, i, j); }
    }
  }

  /** A plain local part, perhaps with a suffix behind it, in front of a dotted domain: the form is
      the local part at the domain, and at Gmail the local part without its dots. */
  lemma FormExactly(local: string, suffix: string, domain: string)
    requires Plain(local) && Plain(suffix) && Plain(domain)
    requires local != "" && '@' !in local + suffix && '@' !in domain && HasInnerDot(domain)
    requires '+' !in local && (suffix == "" || suffix[0] == '+')
    ensures var form := Canonicalize(local + suffix + "@" + domain);
      if domain == "gmail.com" || domain == "googlemail.com" then
        form == (if Without(local, '.') == "" then Invalid else Ok(Without(local, '.') + "@gmail.com"))
      else
        form == (if LabelsAreShort(domain) then Ok(local + "@" + domain) else Invalid)
  {
    var l := local + suffix;
    assert Plain(l);
    PartsSettle(l, domain);
    LabelsExactly(domain);
    assert l[..|local|] == local;
    IndexIs(l, '+', |local|);
    hide Canonicalize, Settled, LocalOf, DomainOf, LabelsFit, LabelsAreShort, Without, Plain;
    SettledForm(l + "@" + domain);
  }

  /** A local part with perhaps a suffix behind it, in front of a dotted domain. */
  ghost predicate Shaped(s: string, local: string, suffix: string, domain: string) {
    && s == local + suffix + "@" + domain && local != "" && '+' !in local && (suffix == "" || suffix[0] == '+')
    && (forall c | c in s :: !IsSpace(c)) && '@' !in local + suffix && '@' !in domain
    && exists i :: 0 < i < |domain| - 1 && domain[i] == '.'
  }

  /** Whatever is accepted has that shape once trimmed and lowered. */
  lemma AcceptedShape(email: string) returns (local: string, suffix: string, domain: string)
    requires Canonicalize(email).Ok?
    ensures Shaped(Lower(Strip(email)), local, suffix, domain)
  {
    hide Canonicalize, Lower, Strip, LabelsFit, Plain;
    var s := Lower(Strip(email));
    CandidateIsSettled(email);
    SettledIsShaped(s);
    SettledParts(s);
    var l := LocalOf(s);
    HeadOrLess(l);
    domain, local, suffix := DomainOf(s), Head(l), l[|Head(l)|..];
    hide LocalOf, DomainOf, Settled;
    assert l == local + suffix;
    assert Shape(s);
  }

  /** White space around an address and the case of its letters do not matter. */
  lemma TrimmedAndLowered(email: string)
    ensures Canonicalize(email) == Canonicalize(Lower(Strip(email)))
  {
    hide Canonicalize;
    FirstLinks(email);
    StepKeepsForm(email, Strip(email));
    StepKeepsForm(Strip(email), Lower(Strip(email)));
  }
}
