/** Character and string rules shared by the text modules: those of ASCII. */
module Text {
  predicate IsSpace(c: char) {
    c == ' ' || '\t' <= c <= '\r' || 28 as char <= c <= 31 as char
  }

  function LowerChar(c: char): char {
    if 'A' <= c <= 'Z' then c + 32 as char else c
  }

  function Lower(s: string): (r: string)
    ensures |r| == |s| && forall i | 0 <= i < |s| :: r[i] == LowerChar(s[i])
  {
    seq(|s|, i requires 0 <= i < |s| => LowerChar(s[i]))
  }

  function Strip(s: string): (r: string)
    ensures r != "" ==> !IsSpace(r[0]) && !IsSpace(r[|r| - 1])
    ensures (forall c | c in s :: !IsSpace(c)) ==> r == s
  {
    if s == "" then ""
    else if IsSpace(s[0]) then Strip(s[1..])
    else if IsSpace(s[|s| - 1]) then Strip(s[..|s| - 1])
    else s
  }

  /** The first position of `c`, or the length when there is none. */
  function IndexOf(s: string, c: char): (i: nat)
    ensures i <= |s| && c !in s[..i] && (i < |s| ==> s[i] == c)
  {
    if s == "" || s[0] == c then 0 else 1 + IndexOf(s[1..], c)
  }

  function Without(s: string, c: char): (r: string)
    ensures c !in r && (c !in s ==> r == s)
    ensures forall d | d in r :: d in s
  {
    if s == "" then ""
    else if s[0] == c then Without(s[1..], c)
    else [s[0]] + Without(s[1..], c)
  }

  predicate HexDigits(s: string) {
    forall i | 0 <= i < |s| :: '0' <= s[i] <= '9' || 'a' <= s[i] <= 'f'
  }

  lemma {:induction false} IndexIs(s: string, c: char, k: nat)
    requires k <= |s| && c !in s[..k] && (k < |s| ==> s[k] == c)
    ensures IndexOf(s, c) == k
  {
    if k > 0 {
      assert s[0] == s[..k][0] && s[1..][..k - 1] == s[..k][1..];
      IndexIs(s[1..], c, k - 1);
    }
  }

  /** `s[i..j]` is `s` without the white space at its ends. */
  ghost predicate Cut(s: string, i: nat, j: nat) {
    && i <= j <= |s| && (forall k | 0 <= k < i || j <= k < |s| :: IsSpace(s[k]))
    && (i < j ==> !IsSpace(s[i]) && !IsSpace(s[j - 1]))
  }

  lemma CutInFront(s: string, i: nat, j: nat)
    requires s != "" && IsSpace(s[0]) && Cut(s[1..], i, j)
    ensures Cut(s, i + 1, j + 1) && s[i + 1..j + 1] == s[1..][i..j]
  {
    hide IsSpace;
    assert forall k | 0 < k < |s| :: s[k] == s[1..][k - 1];
  }

  /** Trimming cuts white space off both ends and nothing else. */
  lemma {:induction false} StripCuts(s: string) returns (i: nat, j: nat)
    ensures Cut(s, i, j) && Strip(s) == s[i..j]
  {
    hide IsSpace;
    i, j := 0, |s|;
    if s != "" && IsSpace(s[0]) {
      i, j := StripCuts(s[1..]);
      CutInFront(s, i, j);
      i, j := i + 1, j + 1;
    } else if s != "" && IsSpace(s[|s| - 1]) {
      i, j := StripCuts(s[..|s| - 1]);
    }
  }

  const UPPER_LETTERS := "ABCDEFGHIJKLMNOPQRSTUVWXYZ"
  const LOWER_LETTERS := "abcdefghijklmnopqrstuvwxyz"

  /** Lowering turns the capital letters into the small ones and leaves the rest. */
  lemma LettersAreLowered(c: char)
    ensures forall i | 0 <= i < 26 :: LowerChar(UPPER_LETTERS[i]) == LOWER_LETTERS[i]
    ensures c !in UPPER_LETTERS ==> LowerChar(c) == c
  {
    if 'A' <= c <= 'Z' { assert c == UPPER_LETTERS[c as int - 65]; }
  }

  /** The white space of ASCII: blank, tab, line feed, vertical tab, form feed, carriage return and
      the four separators. */
  lemma WhiteSpace(c: char)
    ensures IsSpace(c) <==> c in " \t\n\U{0B}\U{0C}\r\U{1C}\U{1D}\U{1E}\U{1F}"
  {
  }

  lemma {:induction false} WithoutAdds(a: string, b: string, c: char)
    ensures Without(a + b, c) == Without(a, c) + Without(b, c)
  {
    if a == "" {
      assert a + b == b;
    } else {
      assert (a + b)[1..] == a[1..] + b;
      WithoutAdds(a[1..], b, c);
    }
  }

  // ---------------------------------------------------------------- texts with parts in them

  /** Pieces of text with something between each and the next. */
  function Woven(literals: seq<string>, parts: seq<string>): string
    requires |literals| == |parts| + 1
  {
    if parts == [] then literals[0] else literals[0] + parts[0] + Woven(literals[1..], parts[1..])
  }

  lemma {:induction false} WovenInFront(c: char, literals: seq<string>, parts: seq<string>)
    requires |literals| == |parts| + 1
    ensures Woven([[c] + literals[0]] + literals[1..], parts) == [c] + Woven(literals, parts)
  {
    var more := [[c] + literals[0]] + literals[1..];
    assert more[1..] == literals[1..];
  }

  lemma WovenBehind(part: string, literals: seq<string>, parts: seq<string>)
    requires |literals| == |parts| + 1
    ensures Woven([""] + literals, [part] + parts) == part + Woven(literals, parts)
  {
    var l, p := [""] + literals, [part] + parts;
    assert l[1..] == literals && p[1..] == parts && l[0] + p[0] == part;
    assert Woven(l, p) == l[0] + p[0] + Woven(l[1..], p[1..]);
  }

  /** Which parts count: `rule(part, rest, name)` says that `part`, with `rest` behind it, is one, called `name`. */
  type Rule = (string, string, string) -> bool

  ghost predicate NoneBegins(s: string, rule: Rule) {
    forall n, name | 0 <= n <= |s| :: !rule(s[..n], s[n..], name)
  }

  /** No part begins in `literal` when `rest` follows. */
  ghost predicate Literal(literal: string, rest: string, rule: Rule) {
    forall k | 0 <= k < |literal| :: NoneBegins(literal[k..] + rest, rule)
  }

  /** `s` is these pieces of literal text with these parts between them, and has no others. */
  ghost predicate Parsed(s: string, literals: seq<string>, parts: seq<string>, names: seq<string>, rule: Rule)
    decreases |parts|
  {
    && |literals| == |parts| + 1 && |names| == |parts|
    && if parts == [] then s == literals[0] && Literal(s, "", rule)
       else
         && literals[0] + parts[0] <= s
         && var rest := s[|literals[0] + parts[0]|..];
            && rule(parts[0], rest, names[0]) && Literal(literals[0], parts[0] + rest, rule)
            && Parsed(rest, literals[1..], parts[1..], names[1..], rule)
  }

  lemma EmptyIsParsed(rule: Rule)
    ensures Parsed("", [""], [], [], rule) && Woven([""], []) == ""
  {
  }

  lemma LongerLiteral(c: char, literal: string, rest: string, rule: Rule)
    requires Literal(literal, rest, rule) && NoneBegins([c] + literal + rest, rule)
    ensures Literal([c] + literal, rest, rule)
  {
    hide NoneBegins;
    forall k | 0 <= k < |literal| + 1 ensures NoneBegins(([c] + literal)[k..] + rest, rule) {
      if k > 0 { assert ([c] + literal)[k..] == literal[k - 1..]; }
    }
  }

  lemma ParsedLetter(s: string, literals: seq<string>, parts: seq<string>, names: seq<string>, c: char, rule: Rule)
    requires Parsed(s, literals, parts, names, rule) && NoneBegins([c] + s, rule)
    ensures Parsed([c] + s, [[c] + literals[0]] + literals[1..], parts, names, rule)
  {
    hide NoneBegins, Literal;
    if parts == [] {
      assert [c] + s + "" == [c] + s;
      LongerLiteral(c, s, "", rule);
    } else {
      var n := |literals[0] + parts[0]|;
      var rest := s[n..];
      assert s == literals[0] + (parts[0] + rest);
      assert [c] + literals[0] + (parts[0] + rest) == [c] + s;
      LongerLiteral(c, literals[0], parts[0] + rest, rule);
      assert ([c] + s)[n + 1..] == rest;
    }
  }

  lemma ParsedPart(s: string, literals: seq<string>, parts: seq<string>, names: seq<string>, t: string, name: string, rule: Rule)
    requires Parsed(s, literals, parts, names, rule) && rule(t, s, name)
    ensures Parsed(t + s, [""] + literals, [t] + parts, [name] + names, rule)
  {
    hide NoneBegins;
    assert (t + s)[|"" + t|..] == s;
    assert ([""] + literals)[1..] == literals && ([t] + parts)[1..] == parts && ([name] + names)[1..] == names;
  }

  /** Woven together again, the pieces are the text. */
  lemma {:induction false} ParsedIsWoven(s: string, literals: seq<string>, parts: seq<string>, names: seq<string>, rule: Rule)
    requires Parsed(s, literals, parts, names, rule)
    ensures Woven(literals, parts) == s
    decreases |parts|
  {
    hide Literal;
    if parts != [] { ParsedIsWoven(s[|literals[0] + parts[0]|..], literals[1..], parts[1..], names[1..], rule); }
  }
}
