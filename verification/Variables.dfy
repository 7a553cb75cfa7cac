/** Prompt slots: their registry and their substitution.  The character rules are those of ASCII. */
module Variables {
  import opened Options
  import opened Text

  datatype Trust = Trusted | Prospect | Untrusted
  datatype Value = Value(slot: string, text: string, trust: Trust)
  type Registry = map<string, Trust>

  // ---------------------------------------------------------------- scanning for slots

  predicate NameStart(c: char) { 'a' <= c <= 'z' || 'A' <= c <= 'Z' || c == '_' }
  predicate NameChar(c: char) { NameStart(c) || '0' <= c <= '9' || c == '.' }

  function Spaces(s: string): (n: nat)
    ensures n <= |s|
  {
    if s == "" || !IsSpace(s[0]) then 0 else 1 + Spaces(s[1..])
  }

  function NameRun(s: string): (n: nat)
    ensures n <= |s|
  {
    if s == "" || !NameChar(s[0]) then 0 else 1 + NameRun(s[1..])
  }

  datatype Slot = Slot(name: string, length: nat)

  /** The slot at the front of `s`: a name between double braces, with white space around it. */
  function SlotAt(s: string): (r: Option<Slot>)
    ensures r.Some? ==> 0 < r.value.length <= |s|
  {
    if |s| < 2 || s[..2] != "{{" then None
    else
      var a := 2 + Spaces(s[2..]);
      var b := a + NameRun(s[a..]);
      var c := b + Spaces(s[b..]);
      if a == b || !NameStart(s[a]) || c + 2 > |s| || s[c..c + 2] != "}}" then None
      else Some(Slot(s[a..b], c + 2))
  }

  /** The slots of a prompt, in order, with repetitions. */
  function Slots(s: string): seq<string>
    decreases |s|
  {
    if s == "" then []
    else
      match SlotAt(s)
      case Some(m) => [m.name] + Slots(s[m.length..])
      case None => Slots(s[1..])
  }

  // ---------------------------------------------------------------- the registry

  /** A registered name covers a slot when it is the slot, or a wildcard over one of its prefixes. */
  ghost predicate Covers(key: string, slot: string) {
    key == slot || exists p :: key == p + ".*" && p + "." <= slot
  }

  /** The trust class of a slot: its own entry, else that of the longest wildcard. */
  function Registered(reg: Registry, slot: string): Option<Trust> {
    if slot in reg then Some(reg[slot]) else Wildcard(reg, slot, |slot|)
  }

  function Wildcard(reg: Registry, slot: string, n: nat): Option<Trust>
    requires n <= |slot|
  {
    if n == 0 then None
    else if slot[n - 1] == '.' && slot[..n - 1] + ".*" in reg then Some(reg[slot[..n - 1] + ".*"])
    else Wildcard(reg, slot, n - 1)
  }

  method Lookup(reg: Registry, slot: string) returns (r: Option<Trust>)
    ensures r == Registered(reg, slot)
  {
    if slot in reg { return Some(reg[slot]); }
    var n := |slot|;
    while n > 0
      invariant 0 <= n <= |slot|
      invariant Wildcard(reg, slot, |slot|) == Wildcard(reg, slot, n)
    {
      n := n - 1;
      if slot[n] == '.' {
        var wildcard := slot[..n] + ".*";
        if wildcard in reg { return Some(reg[wildcard]); }
      }
    }
    r := None;
  }

  /** The wildcard over the first `k` characters is registered, and none over more of the first `n`. */
  ghost predicate Longest(reg: Registry, slot: string, n: nat, k: nat)
    requires n <= |slot|
  {
    && k < n && slot[k] == '.' && slot[..k] + ".*" in reg
    && forall j | k < j < n && slot[j] == '.' :: slot[..j] + ".*" !in reg
  }

  lemma {:induction false} WildcardIsLongest(reg: Registry, slot: string, n: nat) returns (k: nat)
    requires n <= |slot|
    ensures Wildcard(reg, slot, n).Some? ==>
      Longest(reg, slot, n, k) && Wildcard(reg, slot, n).value == reg[slot[..k] + ".*"]
    ensures Wildcard(reg, slot, n).None? ==> forall j | 0 <= j < n && slot[j] == '.' :: slot[..j] + ".*" !in reg
  {
    k := 0;
    if n > 0 {
      if slot[n - 1] == '.' && slot[..n - 1] + ".*" in reg {
        k := n - 1;
      } else {
        k := WildcardIsLongest(reg, slot, n - 1);
      }
    }
  }

  lemma CoveredAtDot(key: string, slot: string)
    ensures Covers(key, slot) <==>
      key == slot || exists k: nat :: k < |slot| && slot[k] == '.' && key == slot[..k] + ".*"
  {
    if key != slot && Covers(key, slot) {
      var p :| key == p + ".*" && p + "." <= slot;
      assert slot[|p|] == (p + ".")[|p|] && slot[..|p|] == p;
    }
    if k: nat :| k < |slot| && slot[k] == '.' && key == slot[..k] + ".*" {
      assert slot[..k] + "." == slot[..k + 1];
    }
  }

  /** `key` is the entry that decides for `slot`: the slot's own, else the longest wildcard. */
  ghost predicate Decides(reg: Registry, slot: string, key: string) {
    && key in reg && Covers(key, slot)
    && (key == slot || (slot !in reg && forall other | other in reg && Covers(other, slot) :: |other| <= |key|))
  }

  /** A slot is unknown exactly when no registered name covers it; otherwise its class is that of
      the deciding entry. */
  lemma MostSpecificWins(reg: Registry, slot: string)
    ensures Registered(reg, slot).None? <==> forall key | key in reg :: !Covers(key, slot)
    ensures Registered(reg, slot).Some? ==>
      exists key :: Decides(reg, slot, key) && reg[key] == Registered(reg, slot).value
  {
    var n := WildcardIsLongest(reg, slot, |slot|);
    hide Covers, Wildcard;
    forall key | key in reg ensures Covers(key, slot) <==>
      key == slot || exists k: nat :: k < |slot| && slot[k] == '.' && key == slot[..k] + ".*"
    {
      CoveredAtDot(key, slot);
    }
    if slot in reg {
      assert Decides(reg, slot, slot);
    } else if Registered(reg, slot).Some? {
      assert Decides(reg, slot, slot[..n] + ".*");
    }
  }

  // ---------------------------------------------------------------- extract_slots

  lemma SlotsFrom(s: string, i: nat)
    requires i < |s|
    ensures match SlotAt(s[i..])
      case Some(m) => i + m.length <= |s| && Slots(s[i..]) == [m.name] + Slots(s[i + m.length..])
      case None => Slots(s[i..]) == Slots(s[i + 1..])
  {
    hide SlotAt;
    match SlotAt(s[i..])
    case Some(m) => assert s[i..][m.length..] == s[i + m.length..];
    case None => assert s[i..][1..] == s[i + 1..];
  }

  function FirstOnly(names: seq<string>): (r: seq<string>)
    ensures forall x :: x in r <==> x in names
    ensures forall i, j | 0 <= i < j < |r| :: r[i] != r[j]
  {
    if names == [] then []
    else
      var r, last := FirstOnly(names[..|names| - 1]), names[|names| - 1];
      if last in r then r else r + [last]
  }

  lemma NoSlotsAtEnd(s: string)
    requires s == ""
    ensures Slots(s) == []
  {
  }

  /** The distinct slots, in the order of their first appearance. */
  method ExtractSlots(prompt: string) returns (seen: seq<string>)
    ensures seen == FirstOnly(Slots(prompt))
  {
    hide SlotAt, Slots;
    seen := [];
    var i := 0;
    assert prompt[0..] == prompt;
    ghost var found: seq<string> := [];
    while i < |prompt|
      invariant i <= |prompt|
      invariant seen == FirstOnly(found)
      invariant Slots(prompt) == found + Slots(prompt[i..])
    {
      SlotsFrom(prompt, i);
      match SlotAt(prompt[i..]) {
        case Some(m) =>
          assert (found + [m.name])[..|found|] == found;
          if m.name !in seen { seen := seen + [m.name]; }
          found := found + [m.name];
          i := i + m.length;
        case None =>
          i := i + 1;
      }
    }
    NoSlotsAtEnd(prompt[i..]);
    assert found + [] == found;
  }

  // ---------------------------------------------------------------- resolve

  datatype Outcome =
    | Resolved(text: string, untrusted: seq<Value>, trace: seq<Value>)
    | UnknownSlots(names: seq<string>)
    | NoValue(slot: string)
    | WrongTrust(slot: string)

  function Marker(slot: string): string { "[UNTRUSTED-REF:" + slot + "]" }

  function Unknown(reg: Registry, names: seq<string>): seq<string> {
    if names == [] then []
    else (if Registered(reg, names[0]).None? then [names[0]] else []) + Unknown(reg, names[1..])
  }

  /** What one slot turns into. */
  function Substitute(reg: Registry, values: map<string, Value>, slot: string): Outcome {
    if slot !in values then NoValue(slot)
    else
      var v := values[slot];
      if Registered(reg, slot) != Some(v.trust) then WrongTrust(slot)
      else if v.trust.Untrusted? then Resolved(Marker(slot), [v], [v])
      else Resolved(v.text, [], [v])
  }

  /** Left to right; the first failure is the result. */
  function Then(first: Outcome, rest: Outcome): Outcome {
    if !first.Resolved? then first
    else if !rest.Resolved? then rest
    else Resolved(first.text + rest.text, first.untrusted + rest.untrusted, first.trace + rest.trace)
  }

  function Filled(reg: Registry, values: map<string, Value>, s: string): Outcome
    decreases |s|
  {
    if s == "" then Resolved("", [], [])
    else
      match SlotAt(s)
      case Some(m) => Then(Substitute(reg, values, m.name), Filled(reg, values, s[m.length..]))
      case None => Then(Resolved([s[0]], [], []), Filled(reg, values, s[1..]))
  }

  function Resolution(reg: Registry, values: map<string, Value>, prompt: string): Outcome {
    var unknown := Unknown(reg, FirstOnly(Slots(prompt)));
    if unknown != [] then UnknownSlots(unknown) else Filled(reg, values, prompt)
  }

  lemma NextUnknown(reg: Registry, seen: seq<string>, i: nat)
    requires i < |seen|
    ensures Unknown(reg, seen[i..]) == (if Registered(reg, seen[i]).None? then [seen[i]] else []) + Unknown(reg, seen[i + 1..])
  {
    hide Registered;
    assert seen[i..][1..] == seen[i + 1..];
  }

  lemma NoMoreUnknown(reg: Registry, seen: seq<string>)
    ensures Unknown(reg, seen[|seen|..]) == []
  {
  }

  method ValidatePrompt(reg: Registry, prompt: string) returns (unknown: seq<string>)
    ensures unknown == Unknown(reg, FirstOnly(Slots(prompt)))
  {
    hide Registered, SlotAt, Slots, FirstOnly, Unknown;
    var seen := ExtractSlots(prompt);
    unknown := [];
    assert seen[0..] == seen;
    for i := 0 to |seen|
      invariant Unknown(reg, seen) == unknown + Unknown(reg, seen[i..])
    {
      NextUnknown(reg, seen, i);
      var trust := Lookup(reg, seen[i]);
      if trust.None? { unknown := unknown + [seen[i]]; }
    }
    NoMoreUnknown(reg, seen);
    assert unknown + [] == unknown;
  }

  /** What is left to do at position `i`, when `sofar` is done. */
  ghost predicate Pending(reg: Registry, values: map<string, Value>, prompt: string, i: nat, sofar: Outcome)
    requires i <= |prompt|
  {
    sofar.Resolved? && Filled(reg, values, prompt) == Then(sofar, Filled(reg, values, prompt[i..]))
  }

  method Resolve(reg: Registry, values: map<string, Value>, prompt: string) returns (r: Outcome)
    ensures r == Resolution(reg, values, prompt)
  {
    hide Unknown, FirstOnly, SlotAt, Filled, Slots, Registered, Marker, Pending;
    var unknown := ValidatePrompt(reg, prompt);
    if unknown != [] { return UnknownSlots(unknown); }
    var text, untrusted, trace := "", [], [];
    var i := 0;
    AtStart(reg, values, prompt);
    while i < |prompt|
      invariant i <= |prompt|
      invariant Pending(reg, values, prompt, i, Resolved(text, untrusted, trace))
    {
      ghost var before := Resolved(text, untrusted, trace);
      match SlotAt(prompt[i..]) {
        case Some(m) =>
          AfterSlot(reg, values, prompt, i, before, m);
          if m.name !in values { return NoValue(m.name); }
          var v := values[m.name];
          var trust := Lookup(reg, m.name);
          if trust != Some(v.trust) { return WrongTrust(m.name); }
          trace := trace + [v];
          if v.trust.Untrusted? {
            untrusted := untrusted + [v];
            text := text + Marker(m.name);
          } else {
            text := text + v.text;
          }
          i := i + m.length;
        case None =>
          AfterLetter(reg, values, prompt, i, before);
          text := text + [prompt[i]];
          i := i + 1;
      }
    }
    r := Resolved(text, untrusted, trace);
    AtEnd(reg, values, prompt, i, r);
  }

  lemma AtStart(reg: Registry, values: map<string, Value>, prompt: string)
    ensures Pending(reg, values, prompt, 0, Resolved("", [], []))
  {
    assert prompt[0..] == prompt;
    EmptyFirst(Filled(reg, values, prompt));
  }

  lemma AfterSlot(reg: Registry, values: map<string, Value>, prompt: string, i: nat, sofar: Outcome, m: Slot)
    requires i < |prompt| && SlotAt(prompt[i..]) == Some(m) && Pending(reg, values, prompt, i, sofar)
    ensures i + m.length <= |prompt|
    ensures !Substitute(reg, values, m.name).Resolved? ==> Filled(reg, values, prompt) == Substitute(reg, values, m.name)
    ensures forall part | part == Substitute(reg, values, m.name) && part.Resolved? ::
      Pending(reg, values, prompt, i + m.length,
              Resolved(sofar.text + part.text,
                       if values[m.name].trust.Untrusted? then sofar.untrusted + part.untrusted else sofar.untrusted,
                       sofar.trace + part.trace))
  {
    hide SlotAt, Filled, Registered, Marker;
    FilledFrom(reg, values, prompt, i);
    var part := Substitute(reg, values, m.name);
    ThenAssociates(sofar, part, Filled(reg, values, prompt[i + m.length..]));
    if part.Resolved? && !values[m.name].trust.Untrusted? {
      assert sofar.untrusted + part.untrusted == sofar.untrusted;
    }
  }

  lemma AfterLetter(reg: Registry, values: map<string, Value>, prompt: string, i: nat, sofar: Outcome)
    requires i < |prompt| && SlotAt(prompt[i..]).None? && Pending(reg, values, prompt, i, sofar)
    ensures Pending(reg, values, prompt, i + 1, Resolved(sofar.text + [prompt[i]], sofar.untrusted, sofar.trace))
  {
    hide SlotAt, Filled;
    FilledFrom(reg, values, prompt, i);
    var part := Resolved([prompt[i]], [], []);
    ThenAssociates(sofar, part, Filled(reg, values, prompt[i + 1..]));
    assert sofar.untrusted + [] == sofar.untrusted && sofar.trace + [] == sofar.trace;
  }

  lemma AtEnd(reg: Registry, values: map<string, Value>, prompt: string, i: nat, sofar: Outcome)
    requires i == |prompt| && Pending(reg, values, prompt, i, sofar)
    ensures Filled(reg, values, prompt) == sofar
  {
    NothingLeft(reg, values, prompt[i..], sofar);
  }

  lemma FilledFrom(reg: Registry, values: map<string, Value>, s: string, i: nat)
    requires i < |s|
    ensures match SlotAt(s[i..])
      case Some(m) =>
        i + m.length <= |s|
        && Filled(reg, values, s[i..]) == Then(Substitute(reg, values, m.name), Filled(reg, values, s[i + m.length..]))
      case None => Filled(reg, values, s[i..]) == Then(Resolved([s[i]], [], []), Filled(reg, values, s[i + 1..]))
  {
    hide SlotAt, Substitute, Then;
    match SlotAt(s[i..])
    case Some(m) => assert s[i..][m.length..] == s[i + m.length..];
    case None => assert s[i..][1..] == s[i + 1..];
  }

  lemma EmptyFirst(r: Outcome)
    ensures Then(Resolved("", [], []), r) == r
  {
    if r.Resolved? { assert "" + r.text == r.text && [] + r.untrusted == r.untrusted && [] + r.trace == r.trace; }
  }

  lemma NothingLeft(reg: Registry, values: map<string, Value>, s: string, r: Outcome)
    requires s == "" && r.Resolved?
    ensures Then(r, Filled(reg, values, s)) == r
  {
    assert r.text + "" == r.text && r.untrusted + [] == r.untrusted && r.trace + [] == r.trace;
  }

  lemma ThenAssociates(a: Outcome, b: Outcome, c: Outcome)
    ensures Then(Then(a, b), c) == Then(a, Then(b, c))
  {
  }

  // ---------------------------------------------------------------- main results

  /** Two value maps that look alike to everyone who may not see untrusted text. */
  ghost predicate LookAlike(reg: Registry, a: map<string, Value>, b: map<string, Value>, names: seq<string>) {
    forall k | k in names ::
      && (k in a <==> k in b)
      && (k in a ==> a[k].trust == b[k].trust)
      && (k in a && Registered(reg, k) != Some(Untrusted) ==> a[k].text == b[k].text)
  }

  ghost predicate SameText(a: Outcome, b: Outcome) {
    if a.Resolved? then b.Resolved? && a.text == b.text else a == b
  }

  /** Whatever the untrusted values are, the text of the prompt, or the error, is the same. */
  lemma NoInterference(reg: Registry, a: map<string, Value>, b: map<string, Value>, prompt: string)
    requires LookAlike(reg, a, b, Slots(prompt))
    ensures SameText(Resolution(reg, a, prompt), Resolution(reg, b, prompt))
  {
    FilledAlike(reg, a, b, prompt);
  }

  lemma {:induction false} FilledAlike(reg: Registry, a: map<string, Value>, b: map<string, Value>, s: string)
    requires LookAlike(reg, a, b, Slots(s))
    ensures SameText(Filled(reg, a, s), Filled(reg, b, s))
    decreases |s|
  {
    hide Registered, SlotAt;
    if s != "" {
      match SlotAt(s)
      case Some(m) =>
        assert m.name in Slots(s);
        assert SameText(Substitute(reg, a, m.name), Substitute(reg, b, m.name));
        FilledAlike(reg, a, b, s[m.length..]);
      case None => FilledAlike(reg, a, b, s[1..]);
    }
  }

  ghost predicate Fits(reg: Registry, values: map<string, Value>, k: string) {
    k in values && Registered(reg, k) == Some(values[k].trust)
  }

  function OnlyUntrusted(trace: seq<Value>): seq<Value> {
    if trace == [] then []
    else (if trace[0].trust.Untrusted? then [trace[0]] else []) + OnlyUntrusted(trace[1..])
  }

  /** Resolution succeeds exactly when every slot has a value declared with its registered class;
      then the trace is the slots' values in order and the envelope gets the untrusted ones. */
  lemma {:induction false} FillsExactly(reg: Registry, values: map<string, Value>, s: string)
    ensures Filled(reg, values, s).Resolved? <==> forall k | k in Slots(s) :: Fits(reg, values, k)
    ensures var r := Filled(reg, values, s);
      r.Resolved? ==>
        && |r.trace| == |Slots(s)|
        && (forall i | 0 <= i < |r.trace| :: Slots(s)[i] in values && r.trace[i] == values[Slots(s)[i]])
        && r.untrusted == OnlyUntrusted(r.trace)
    decreases |s|
  {
    hide Registered, SlotAt, Substitute, Then, Fits, OnlyUntrusted;
    if s == "" {
      assert OnlyUntrusted([]) == [] by { NoneUntrusted(); }
    } else {
      match SlotAt(s)
      case Some(m) =>
        FillsExactly(reg, values, s[m.length..]);
        OneSlotFills(reg, values, m.name, Filled(reg, values, s[m.length..]));
        assert Slots(s) == [m.name] + Slots(s[m.length..]);
        assert forall k | k in Slots(s) :: k == m.name || k in Slots(s[m.length..]);
        assert m.name in Slots(s) && forall k | k in Slots(s[m.length..]) :: k in Slots(s);
      case None =>
        FillsExactly(reg, values, s[1..]);
        LetterFills([s[0]], Filled(reg, values, s[1..]));
    }
  }

  lemma NoneUntrusted()
    ensures OnlyUntrusted([]) == []
  {
  }

  lemma LetterFills(c: string, rest: Outcome)
    ensures var r := Then(Resolved(c, [], []), rest);
      && (r.Resolved? <==> rest.Resolved?)
      && (r.Resolved? ==> r.trace == rest.trace && r.untrusted == rest.untrusted)
  {
  }

  lemma OneSlotFills(reg: Registry, values: map<string, Value>, k: string, rest: Outcome)
    ensures var r := Then(Substitute(reg, values, k), rest);
      && (r.Resolved? <==> Fits(reg, values, k) && rest.Resolved?)
      && (r.Resolved? ==> k in values && r.trace == [values[k]] + rest.trace)
      && (r.Resolved? && rest.untrusted == OnlyUntrusted(rest.trace) ==> r.untrusted == OnlyUntrusted(r.trace))
  {
    hide Registered, Marker;
    var r := Then(Substitute(reg, values, k), rest);
    if r.Resolved? {
      assert r.trace[1..] == rest.trace;
    }
  }

  // ---------------------------------------------------------------- what a slot is

  /** Letters, digits, underscores and dots, with a letter or an underscore in front. */
  predicate IsName(name: string) {
    && name != "" && !('0' <= name[0] <= '9') && name[0] != '.'
    && forall i | 0 <= i < |name| ::
         'a' <= name[i] <= 'z' || 'A' <= name[i] <= 'Z' || '0' <= name[i] <= '9' || name[i] == '_' || name[i] == '.'
  }

  predicate Blank(s: string) { forall i | 0 <= i < |s| :: IsSpace(s[i]) }

  /** A slot as written in a prompt. */
  ghost predicate Written(t: string, name: string) {
    IsName(name) && exists a, b :: Blank(a) && Blank(b) && t == "{{" + a + name + b + "}}"
  }

  lemma {:induction false} RunsAreMaximal(s: string)
    ensures Blank(s[..Spaces(s)]) && (Spaces(s) < |s| ==> !IsSpace(s[Spaces(s)]))
    ensures (forall i | 0 <= i < NameRun(s) :: NameChar(s[i])) && (NameRun(s) < |s| ==> !NameChar(s[NameRun(s)]))
  {
    hide IsSpace, NameChar;
    if s != "" {
      RunsAreMaximal(s[1..]);
      assert forall i | 0 < i < |s| :: s[i] == s[1..][i - 1];
    }
  }

  lemma RunsEnd(a: string, rest: string)
    requires rest != ""
    ensures Blank(a) && !IsSpace(rest[0]) ==> Spaces(a + rest) == |a|
    ensures (forall i | 0 <= i < |a| :: NameChar(a[i])) && !NameChar(rest[0]) ==> NameRun(a + rest) == |a|
  {
    hide IsSpace, NameChar, Spaces, NameRun;
    var t := a + rest;
    RunsAreMaximal(t);
    assert t[|a|] == rest[0] && forall i | 0 <= i < |a| :: t[i] == a[i];
    var n := Spaces(t);
    if n > |a| { assert t[..n][|a|] == rest[0]; }
  }

  lemma Glued(s: string, a: nat, b: nat, c: nat)
    requires 2 <= a <= b <= c && c + 2 <= |s| && s[..2] == "{{" && s[c..c + 2] == "}}"
    ensures s[..c + 2] == "{{" + s[2..a] + s[a..b] + s[b..c] + "}}"
  {
    assert s[..c + 2] == s[..2] + s[2..a] + s[a..b] + s[b..c] + s[c..c + 2];
  }

  lemma BlankIn(s: string, a: nat, b: nat)
    requires a <= |s| && b == a + Spaces(s[a..])
    ensures b <= |s| && Blank(s[a..b])
  {
    hide IsSpace, Spaces;
    RunsAreMaximal(s[a..]);
    assert s[a..b] == s[a..][..b - a];
  }

  lemma NameIn(s: string, a: nat, b: nat)
    requires a < |s| && b == a + NameRun(s[a..]) && b > a && NameStart(s[a])
    ensures b <= |s| && IsName(s[a..b])
  {
    hide NameStart, NameChar, NameRun, IsName;
    RunsAreMaximal(s[a..]);
    assert forall i | 0 <= i < b - a :: s[a..b][i] == s[a..][i];
    NameIsName(s[a..b]);
  }

  /** What the scanner takes for a slot is written as one. */
  lemma SlotIsWritten(s: string)
    requires SlotAt(s).Some?
    ensures Written(s[..SlotAt(s).value.length], SlotAt(s).value.name)
  {
    hide IsSpace, Spaces, NameRun, NameStart, NameChar, IsName, Blank;
    var a := 2 + Spaces(s[2..]);
    var b := a + NameRun(s[a..]);
    var c := b + Spaces(s[b..]);
    BlankIn(s, 2, a);
    NameIn(s, a, b);
    BlankIn(s, b, c);
    Glued(s, a, b, c);
  }

  lemma NameIsName(name: string)
    requires name != "" && NameStart(name[0]) && forall i | 0 <= i < |name| :: NameChar(name[i])
    ensures IsName(name)
  {
  }

  lemma NameHasChars(name: string)
    requires IsName(name)
    ensures name != "" && NameStart(name[0]) && !IsSpace(name[0]) && forall i | 0 <= i < |name| :: NameChar(name[i])
  {
  }

  lemma NoNameInBlank(b: string)
    requires Blank(b)
    ensures !NameChar((b + "}}")[0]) && !IsSpace('}')
  {
  }

  /** And what is written as a slot is taken for one, whatever follows. */
  lemma WrittenIsSlot(t: string, name: string, rest: string)
    requires Written(t, name)
    ensures SlotAt(t + rest) == Some(Slot(name, |t|))
  {
    hide IsSpace, Spaces, NameRun, NameStart, NameChar, IsName, Blank;
    var x, y :| Blank(x) && Blank(y) && t == "{{" + x + name + y + "}}";
    NameHasChars(name);
    NoNameInBlank(y);
    ScannedInSteps(x, name, y, rest, t + rest);
  }

  lemma Behind(a: string, b: string)
    ensures (a + b)[|a|..] == b && (a + b)[..|a|] == a
  {
  }

  lemma Pieces(x: string, name: string, y: string, end: string, s: string)
    requires s == "{{" + x + name + y + end
    ensures s[2..] == x + (name + (y + end)) && s[2 + |x|..] == name + (y + end) && s[2 + |x| + |name|..] == y + end
    ensures s[..2] == "{{" && s[2 + |x|..2 + |x| + |name|] == name && s[2 + |x| + |name| + |y|..] == end
  {
    assert s == "{{" + (x + (name + (y + end))) && s == ("{{" + x) + (name + (y + end));
    assert s == ("{{" + x + name) + (y + end) && s == ("{{" + x + name + y) + end;
    Behind("{{", x + (name + (y + end)));
    Behind("{{" + x, name + (y + end));
    Behind("{{" + x + name, y + end);
    Behind("{{" + x + name + y, end);
    Behind(name, y + end);
    assert s[2 + |x|..2 + |x| + |name|] == s[2 + |x|..][..|name|];
  }

  lemma ScannedInSteps(x: string, name: string, y: string, rest: string, s: string)
    requires s == "{{" + x + name + y + "}}" + rest
    requires Blank(x) && Blank(y) && name != "" && NameStart(name[0]) && !IsSpace(name[0]) && !IsSpace('}')
    requires (forall i | 0 <= i < |name| :: NameChar(name[i])) && !NameChar((y + "}}")[0])
    ensures SlotAt(s) == Some(Slot(name, |x| + |name| + |y| + 4))
  {
    hide IsSpace, Spaces, NameRun, NameStart, NameChar, Blank, SlotAt;
    var end := "}}" + rest;
    assert s == "{{" + x + name + y + end;
    Pieces(x, name, y, end, s);
    assert (y + end)[0] == (y + "}}")[0];
    RunsEnd(x, name + (y + end));
    RunsEnd(name, y + end);
    RunsEnd(y, end);
    var c := 2 + |x| + |name| + |y|;
    assert s[c..c + 2] == s[c..][..2] == end[..2] == "}}";
    ReadOff(s, 2 + |x|, 2 + |x| + |name|, c);
  }

  lemma ReadOff(s: string, a: nat, b: nat, c: nat)
    requires 2 <= a < b <= c && c + 2 <= |s| && s[..2] == "{{" && s[c..c + 2] == "}}" && NameStart(s[a])
    requires a == 2 + Spaces(s[2..]) && b == a + NameRun(s[a..]) && c == b + Spaces(s[b..])
    ensures SlotAt(s) == Some(Slot(s[a..b], c + 2))
  {
    hide Spaces, NameRun, NameStart;
  }

  // ---------------------------------------------------------------- what the text is

  /** The slots of a prompt, by name. */
  ghost function SlotRule(): Rule { (t, rest, name) => Written(t, name) }

  /** What a slot's value puts into the text. */
  ghost predicate PutIn(values: map<string, Value>, name: string, part: string) {
    && name in values
    && part == (if values[name].trust.Untrusted? then "[UNTRUSTED-REF:" + name + "]" else values[name].text)
  }

  lemma NoSlotBegins(s: string)
    ensures SlotAt(s).None? <==> NoneBegins(s, SlotRule())
    ensures SlotAt(s).Some? ==> var m := SlotAt(s).value; SlotRule()(s[..m.length], s[m.length..], m.name)
  {
    hide SlotAt, Written;
    if SlotAt(s).Some? {
      var m := SlotAt(s).value;
      SlotIsWritten(s);
      assert SlotRule()(s[..m.length], s[m.length..], m.name);
    }
    forall n, name | 0 <= n <= |s| && SlotRule()(s[..n], s[n..], name) ensures SlotAt(s).Some? {
      WrittenIsSlot(s[..n], name, s[n..]);
      assert s == s[..n] + s[n..];
    }
  }

  /** What the text is: every prompt is literal pieces with slots between them, and if it is
      resolved, the same pieces with the slots' values between them, or with references where a
      value is untrusted. A prompt without slots is its own text. */
  lemma {:induction false} TextIsWoven(reg: Registry, values: map<string, Value>, s: string)
    returns (literals: seq<string>, slots: seq<string>, parts: seq<string>)
    ensures Parsed(s, literals, slots, Slots(s), SlotRule()) && |literals| == |parts| + 1 == |slots| + 1
    ensures var r := Filled(reg, values, s);
      r.Resolved? ==> r.text == Woven(literals, parts) && forall i | 0 <= i < |parts| :: PutIn(values, Slots(s)[i], parts[i])
    decreases |s|
  {
    hide Registered, SlotAt, Substitute, Then, Parsed, PutIn, Woven, NoneBegins, SlotRule;
    if s == "" {
      literals, slots, parts := [""], [], [];
      EmptyIsParsed(SlotRule());
    } else {
      NoSlotBegins(s);
      match SlotAt(s)
      case Some(m) =>
        var t, rest := s[..m.length], s[m.length..];
        literals, slots, parts := TextIsWoven(reg, values, rest);
        ParsedPart(rest, literals, slots, Slots(rest), t, m.name, SlotRule());
        assert s == t + rest;
        var part := SlotText(reg, values, m.name, Filled(reg, values, rest), literals, parts);
        literals, slots, parts := [""] + literals, [t] + slots, [part] + parts;
      case None =>
        var rest := s[1..];
        assert s == [s[0]] + rest;
        literals, slots, parts := TextIsWoven(reg, values, rest);
        ParsedLetter(rest, literals, slots, Slots(rest), s[0], SlotRule());
        LetterText(s[0], Filled(reg, values, rest), literals, parts);
        literals := [[s[0]] + literals[0]] + literals[1..];
    }
  }

  lemma SlotText(reg: Registry, values: map<string, Value>, name: string, rest: Outcome, literals: seq<string>, parts: seq<string>)
    returns (part: string)
    requires |literals| == |parts| + 1
    requires rest.Resolved? ==> rest.text == Woven(literals, parts)
    ensures var r := Then(Substitute(reg, values, name), rest);
      r.Resolved? ==> rest.Resolved? && PutIn(values, name, part) && r.text == Woven([""] + literals, [part] + parts)
  {
    hide Registered;
    part := if name !in values then "" else if values[name].trust.Untrusted? then Marker(name) else values[name].text;
    assert ([""] + literals)[1..] == literals && ([part] + parts)[1..] == parts;
  }

  lemma LetterText(c: char, rest: Outcome, literals: seq<string>, parts: seq<string>)
    requires |literals| == |parts| + 1
    requires rest.Resolved? ==> rest.text == Woven(literals, parts)
    ensures var r := Then(Resolved([c], [], []), rest);
      r.Resolved? ==> rest.Resolved? && r.text == Woven([[c] + literals[0]] + literals[1..], parts)
  {
    WovenInFront(c, literals, parts);
  }

  // ---------------------------------------------------------------- which failure

  /** `x` appears in `all` before `y` first does. */
  ghost predicate Before(x: string, y: string, all: seq<string>) {
    exists p :: 0 <= p < |all| && all[p] == x && y !in all[..p + 1]
  }

  /** `names` are without repetition, and in the order of their first appearance. */
  ghost predicate InOrder(names: seq<string>, all: seq<string>) {
    forall i, j | 0 <= i < j < |names| :: Before(names[i], names[j], all)
  }

  lemma BeforeStays(x: string, y: string, all: seq<string>, last: string)
    ensures Before(x, y, all) ==> Before(x, y, all + [last])
    ensures x in all && last !in all ==> Before(x, last, all + [last])
  {
    var longer := all + [last];
    if Before(x, y, all) {
      var p :| 0 <= p < |all| && all[p] == x && y !in all[..p + 1];
      assert longer[p] == x && longer[..p + 1] == all[..p + 1];
    }
    if x in all && last !in all {
      var p :| 0 <= p < |all| && all[p] == x;
      assert longer[p] == x && longer[..p + 1] == all[..p + 1];
      assert forall k | k in all[..p + 1] :: k in all;
    }
  }

  lemma {:induction false} FirstOnlyInOrder(all: seq<string>)
    ensures InOrder(FirstOnly(all), all)
  {
    hide Before;
    if all != [] {
      var front, last := all[..|all| - 1], all[|all| - 1];
      assert all == front + [last];
      FirstOnlyInOrder(front);
      var r := FirstOnly(all);
      forall i, j | 0 <= i < j < |r| ensures Before(r[i], r[j], all) {
        BeforeStays(r[i], r[j], front, last);
        assert r[i] in FirstOnly(front);
      }
    }
  }

  lemma InOrderBehind(name: string, names: seq<string>, all: seq<string>)
    requires InOrder(names, all) && forall k | k in names :: Before(name, k, all)
    ensures InOrder([name] + names, all)
  {
    hide Before;
    var longer := [name] + names;
    forall i, j | 0 <= i < j < |longer| ensures Before(longer[i], longer[j], all) {
      assert longer[j] == names[j - 1] && names[j - 1] in names;
      if i > 0 { assert longer[i] == names[i - 1]; }
    }
  }

  lemma InOrderTail(names: seq<string>, all: seq<string>)
    requires names != [] && InOrder(names, all)
    ensures InOrder(names[1..], all) && forall k | k in names[1..] :: Before(names[0], k, all)
  {
    hide Before;
    var tail := names[1..];
    assert forall i | 0 <= i < |tail| :: tail[i] == names[i + 1];
  }

  lemma {:induction false} UnknownInOrder(reg: Registry, names: seq<string>, all: seq<string>)
    requires InOrder(names, all)
    ensures InOrder(Unknown(reg, names), all)
    ensures forall k :: k in Unknown(reg, names) <==> k in names && Registered(reg, k).None?
  {
    hide Registered, Before, InOrder;
    if names == [] {
      NothingInOrder(all);
    } else {
      InOrderTail(names, all);
      UnknownInOrder(reg, names[1..], all);
      if Registered(reg, names[0]).None? {
        InOrderBehind(names[0], Unknown(reg, names[1..]), all);
      } else {
        assert [] + Unknown(reg, names[1..]) == Unknown(reg, names[1..]);
      }
      assert forall k :: k in names <==> k == names[0] || k in names[1..];
    }
  }

  lemma NothingInOrder(all: seq<string>)
    ensures InOrder([], all)
  {
  }

  ghost predicate Uncovered(reg: Registry, slot: string) { forall key | key in reg :: !Covers(key, slot) }

  /** A prompt with slots that nothing registered covers fails with exactly those, in the order in
      which they first appear; else the first slot without a fitting value decides. */
  lemma FailsExactly(reg: Registry, values: map<string, Value>, prompt: string) returns (n: nat)
    ensures var r := Resolution(reg, values, prompt);
      && (r.UnknownSlots? <==> exists k :: k in Slots(prompt) && Uncovered(reg, k))
      && (r.UnknownSlots? ==>
            InOrder(r.names, Slots(prompt)) && forall k :: k in r.names <==> k in Slots(prompt) && Uncovered(reg, k))
      && (!r.UnknownSlots? ==> r == Filled(reg, values, prompt))
      && (!r.UnknownSlots? && !r.Resolved? ==>
            && n < |Slots(prompt)| && (forall i | 0 <= i < n :: Fits(reg, values, Slots(prompt)[i]))
            && !Fits(reg, values, Slots(prompt)[n])
            && r == if Slots(prompt)[n] in values then WrongTrust(Slots(prompt)[n]) else NoValue(Slots(prompt)[n]))
  {
    hide Registered, Covers, Slots, Filled, Fits;
    var all := Slots(prompt);
    FirstOnlyInOrder(all);
    UnknownInOrder(reg, FirstOnly(all), all);
    forall k ensures Registered(reg, k).None? <==> Uncovered(reg, k) { MostSpecificWins(reg, k); }
    var unknown := Unknown(reg, FirstOnly(all));
    if unknown != [] { assert unknown[0] in unknown; }
    n := FirstFailure(reg, values, prompt);
  }

  lemma {:induction false} FirstFailure(reg: Registry, values: map<string, Value>, s: string) returns (n: nat)
    ensures !Filled(reg, values, s).Resolved? ==>
      && n < |Slots(s)| && (forall i | 0 <= i < n :: Fits(reg, values, Slots(s)[i])) && !Fits(reg, values, Slots(s)[n])
      && Filled(reg, values, s) == if Slots(s)[n] in values then WrongTrust(Slots(s)[n]) else NoValue(Slots(s)[n])
    ensures !Filled(reg, values, s).UnknownSlots?
    decreases |s|
  {
    hide Registered, SlotAt, Marker;
    n := 0;
    if s != "" {
      match SlotAt(s)
      case Some(m) =>
        n := FirstFailure(reg, values, s[m.length..]);
        if Fits(reg, values, m.name) { n := n + 1; } else { n := 0; }
      case None => n := FirstFailure(reg, values, s[1..]);
    }
  }
}
