/** Entity resolution at ingest, within one tenant.  The character rules are those of ASCII. */
module EntityKeys {
  import opened Text
  import opened Canonical

  type EntityId = nat

  datatype KeyKind = EmailKey | NpiKey | PlaceKey | DomainPhoneKey
  datatype Key = Key(kind: KeyKind, value: string)
  datatype Candidate = Candidate(email: string, npi: string, place: string, website: string, phone: string)

  // ---------------------------------------------------------------- the keys of a candidate

  function Digits(s: string): string {
    if s == "" then "" else (if '0' <= s[0] <= '9' then [s[0]] else "") + Digits(s[1..])
  }

  function PhoneDigits(phone: string): string {
    var d := Digits(phone);
    if |d| > 10 then d[|d| - 10..] else d
  }

  /** Everything behind the first double slash, or the whole string. */
  function BehindScheme(s: string, i: nat): string
    requires i <= |s|
    decreases |s| - i
  {
    if i + 1 >= |s| then s
    else if s[i] == '/' && s[i + 1] == '/' then s[i + 2..]
    else BehindScheme(s, i + 1)
  }

  function Domain(website: string): string {
    var rest := BehindScheme(website, 0);
    var host := Lower(rest[..IndexOf(rest, '/')]);
    if "www." <= host then host[4..] else host
  }

  /** Strongest first: an e-mail address that has a canonical form, the NPI, the place, domain with phone. */
  function KeysOf(c: Candidate): seq<Key> {
    (if c.email != "" && Canonicalize(c.email).Ok? then [Key(EmailKey, Canonicalize(c.email).address)] else [])
    + (if c.npi != "" then [Key(NpiKey, c.npi)] else [])
    + (if c.place != "" then [Key(PlaceKey, c.place)] else [])
    + (if Domain(c.website) != "" && PhoneDigits(c.phone) != ""
       then [Key(DomainPhoneKey, Domain(c.website) + "|" + PhoneDigits(c.phone))] else [])
  }

  function Strength(kind: KeyKind): nat {
    match kind case EmailKey => 4 case NpiKey => 3 case PlaceKey => 2 case DomainPhoneKey => 1
  }

  /** Which keys a candidate has, strongest first. */
  lemma KeysExactly(c: Candidate, k: Key)
    ensures k in KeysOf(c) <==>
      match k.kind
      case EmailKey => c.email != "" && Canonicalize(c.email) == Ok(k.value)
      case NpiKey => k.value == c.npi != ""
      case PlaceKey => k.value == c.place != ""
      case DomainPhoneKey => Domain(c.website) != "" && PhoneDigits(c.phone) != "" && k.value == Domain(c.website) + "|" + PhoneDigits(c.phone)
    ensures forall i, j | 0 <= i < j < |KeysOf(c)| :: Strength(KeysOf(c)[i].kind) > Strength(KeysOf(c)[j].kind)
  {
    hide Canonicalize, Domain, PhoneDigits;
  }

  lemma {:induction false} DigitsAdd(a: string, b: string)
    ensures Digits(a + b) == Digits(a) + Digits(b)
  {
    if a == "" {
      assert a + b == b;
    } else {
      assert (a + b)[1..] == a[1..] + b;
      DigitsAdd(a[1..], b);
    }
  }

  lemma OneDigit(c: char)
    ensures Digits([c]) == if c in "0123456789" then [c] else ""
  {
    if '0' <= c <= '9' { assert c == "0123456789"[c as int - 48]; }
    assert [c][1..] == "";
  }

  /** Of a phone number the digits count, the last ten of them: a prefix in front of ten digits
      changes nothing, however both are written. */
  lemma PhoneExactly(prefix: string, local: string)
    ensures |Digits(local)| == 10 ==> PhoneDigits(prefix + local) == Digits(local)
    ensures |Digits(local)| < 10 ==> PhoneDigits(local) == Digits(local)
  {
    DigitsAdd(prefix, local);
  }

  lemma {:induction false} SchemeIsCut(scheme: string, rest: string, i: nat)
    requires '/' !in scheme && i <= |scheme|
    ensures BehindScheme(scheme + "//" + rest, i) == rest
    decreases |scheme| - i
  {
    var s := scheme + "//" + rest;
    if i < |scheme| {
      assert s[i] == scheme[i] && scheme[i] in scheme;
      SchemeIsCut(scheme, rest, i + 1);
    } else {
      assert s[i + 2..] == rest;
    }
  }

  lemma {:induction false} NoSchemeToCut(s: string, i: nat)
    requires i <= |s| && NoDoubleSlash(s)
    ensures BehindScheme(s, i) == s
    decreases |s| - i
  {
    if i + 1 < |s| { NoSchemeToCut(s, i + 1); }
  }

  ghost predicate NoDoubleSlash(s: string) {
    forall k | 0 <= k < |s| - 1 :: !(s[k] == '/' && s[k + 1] == '/')
  }

  lemma HostInFront(host: string, path: string)
    requires '/' !in host && (path == "" || path[0] == '/')
    ensures (host + path)[..IndexOf(host + path, '/')] == host
    ensures NoDoubleSlash(path) ==> NoDoubleSlash(host + path)
  {
    var rest := host + path;
    assert rest[..|host|] == host;
    IndexIs(rest, '/', |host|);
    if NoDoubleSlash(path) {
      forall k | 0 <= k < |rest| - 1 ensures !(rest[k] == '/' && rest[k + 1] == '/') {
        if k < |host| { assert rest[k] == host[k]; } else { assert rest[k] == path[k - |host|] && rest[k + 1] == path[k + 1 - |host|]; }
      }
    }
  }

  /** A host in small letters without a leading `www.`. */
  function Bare(host: string): string { if "www." <= Lower(host) then Lower(host)[4..] else Lower(host) }

  /** The domain is the bare host; what stands in front of the double slash, and the path, do not matter. */
  lemma DomainExactly(scheme: string, host: string, path: string)
    requires '/' !in scheme && '/' !in host && (path == "" || path[0] == '/')
    ensures Domain(scheme + "//" + host + path) == Bare(host)
    ensures NoDoubleSlash(path) ==> Domain(host + path) == Bare(host)
  {
    hide BehindScheme, IndexOf, Lower, NoDoubleSlash;
    assert scheme + "//" + host + path == scheme + "//" + (host + path);
    SchemeIsCut(scheme, host + path, 0);
    HostInFront(host, path);
    if NoDoubleSlash(path) { NoSchemeToCut(host + path, 0); }
  }

  // ---------------------------------------------------------------- resolution

  /** `owner` maps a key to its entity; `count` entities exist. */
  datatype Registry = Registry(owner: map<Key, EntityId>, count: nat)

  datatype Resolution = Resolution(entity: EntityId, created: bool, mergeConflict: bool)

  ghost predicate Valid(r: Registry) {
    forall k | k in r.owner :: r.owner[k] < r.count
  }

  /** The distinct owners of the keys, in the order of the keys. */
  function Owners(owner: map<Key, EntityId>, keys: seq<Key>): (r: seq<EntityId>)
    ensures forall e :: e in r <==> exists i :: 0 <= i < |keys| && keys[i] in owner && owner[keys[i]] == e
    ensures forall i, j | 0 <= i < j < |r| :: r[i] != r[j]
  {
    if keys == [] then []
    else
      var before, last := Owners(owner, keys[..|keys| - 1]), keys[|keys| - 1];
      if last in owner && owner[last] !in before then before + [owner[last]] else before
  }

  function Attached(owner: map<Key, EntityId>, keys: seq<Key>, e: EntityId): (r: map<Key, EntityId>)
    ensures forall k :: k in r <==> k in owner || k in keys
    ensures forall k | k in r :: r[k] == if k in owner then owner[k] else e
  {
    if keys == [] then owner
    else
      var before, last := Attached(owner, keys[..|keys| - 1], e), keys[|keys| - 1];
      if last in before then before else before[last := e]
  }

  function Outcome(r: Registry, keys: seq<Key>): Resolution {
    var matched := Owners(r.owner, keys);
    Resolution(if matched != [] then matched[0] else r.count, matched == [], |matched| > 1)
  }

  function After(r: Registry, keys: seq<Key>): Registry {
    var o := Outcome(r, keys);
    Registry(Attached(r.owner, keys, o.entity), if o.created then r.count + 1 else r.count)
  }

  function Run(r: Registry, candidates: seq<Candidate>): Registry {
    if candidates == [] then r
    else After(Run(r, candidates[..|candidates| - 1]), KeysOf(candidates[|candidates| - 1]))
  }

  class EntityStore {
    var owner: map<Key, EntityId>
    var count: nat

    ghost function Contents(): Registry
      reads this
    {
      Registry(owner, count)
    }

    constructor ()
      ensures Contents() == Registry(map[], 0) && Valid(Contents())
    {
      owner, count := map[], 0;
    }

    method Resolve(c: Candidate) returns (r: Resolution)
      modifies this
      ensures r == Outcome(old(Contents()), KeysOf(c))
      ensures Contents() == After(old(Contents()), KeysOf(c))
    {
      hide KeysOf, Owners, Attached;
      var keys := KeysOf(c);
      ghost var before := Contents();
      var matched: seq<EntityId> := [];
      NoKeys(owner, count, keys);
      for i := 0 to |keys|
        invariant Contents() == before
        invariant matched == Owners(owner, keys[..i])
      {
        OneKeyMore(owner, count, keys, i);
        if keys[i] in owner && owner[keys[i]] !in matched {
          matched := matched + [owner[keys[i]]];
        }
      }
      var entity := count;
      if matched != [] {
        entity := matched[0];
      } else {
        count := count + 1;
      }
      NoKeys(owner, entity, keys);
      for i := 0 to |keys|
        invariant count == if matched == [] then before.count + 1 else before.count
        invariant owner == Attached(before.owner, keys[..i], entity)
      {
        OneKeyMore(before.owner, entity, keys, i);
        if keys[i] !in owner {
          owner := owner[keys[i] := entity];
        }
      }
      assert keys[..|keys|] == keys;
      r := Resolution(entity, matched == [], |matched| > 1);
    }
  }

  lemma NoKeys(owner: map<Key, EntityId>, e: EntityId, keys: seq<Key>)
    ensures Owners(owner, keys[..0]) == [] && Attached(owner, keys[..0], e) == owner
  {
  }

  lemma OneKeyMore(owner: map<Key, EntityId>, e: EntityId, keys: seq<Key>, i: nat)
    requires i < |keys|
    ensures var was, k := Owners(owner, keys[..i]), keys[i];
      Owners(owner, keys[..i + 1]) == if k in owner && owner[k] !in was then was + [owner[k]] else was
    ensures var was, k := Attached(owner, keys[..i], e), keys[i];
      Attached(owner, keys[..i + 1], e) == if k in was then was else was[k := e]
  {
    assert keys[..i + 1][..i] == keys[..i];
  }

  // ---------------------------------------------------------------- one resolution

  lemma ResolvingKeepsValid(r: Registry, keys: seq<Key>)
    requires Valid(r)
    ensures Valid(After(r, keys))
    ensures Outcome(r, keys).entity < After(r, keys).count
  {
    var o := Outcome(r, keys);
    if !o.created {
      var e := Owners(r.owner, keys)[0];
      assert e in Owners(r.owner, keys);
    }
  }

  /** The entity is the owner, from then on, of the candidate's strongest key. */
  lemma StrongestKeyDecides(r: Registry, keys: seq<Key>)
    requires keys != []
    ensures keys[0] in After(r, keys).owner && After(r, keys).owner[keys[0]] == Outcome(r, keys).entity
  {
    if keys[0] in r.owner { FirstOwner(r.owner, keys); }
    assert keys[0] in keys;
  }

  lemma {:induction false} FirstOwner(owner: map<Key, EntityId>, keys: seq<Key>)
    requires keys != [] && keys[0] in owner
    ensures Owners(owner, keys) != [] && Owners(owner, keys)[0] == owner[keys[0]]
  {
    if |keys| > 1 {
      FirstOwner(owner, keys[..|keys| - 1]);
    } else {
      assert Owners(owner, keys[..0]) == [];
    }
  }

  /** A new entity is made exactly when no key has an owner; a merge conflict is flagged exactly
      when two keys have different ones. */
  lemma FlagsAreExact(r: Registry, keys: seq<Key>)
    ensures Outcome(r, keys).created <==> forall i | 0 <= i < |keys| :: keys[i] !in r.owner
    ensures Outcome(r, keys).mergeConflict <==>
      exists i, j :: 0 <= i < |keys| && 0 <= j < |keys| && keys[i] in r.owner && keys[j] in r.owner
        && r.owner[keys[i]] != r.owner[keys[j]]
  {
    var matched := Owners(r.owner, keys);
    if i :| 0 <= i < |keys| && keys[i] in r.owner { assert r.owner[keys[i]] in matched; }
    if |matched| > 0 { assert matched[0] in matched; }
    if |matched| > 1 {
      assert matched[1] in matched;
      var i :| 0 <= i < |keys| && keys[i] in r.owner && r.owner[keys[i]] == matched[0];
      var j :| 0 <= j < |keys| && keys[j] in r.owner && r.owner[keys[j]] == matched[1];
      assert r.owner[keys[i]] != r.owner[keys[j]];
    }
    if i, j :| 0 <= i < |keys| && 0 <= j < |keys| && keys[i] in r.owner && keys[j] in r.owner
               && r.owner[keys[i]] != r.owner[keys[j]] {
      assert r.owner[keys[i]] in matched && r.owner[keys[j]] in matched;
      TwoMembers(matched, r.owner[keys[i]], r.owner[keys[j]]);
    }
  }

  lemma TwoMembers(s: seq<EntityId>, a: EntityId, b: EntityId)
    requires a in s && b in s && a != b
    ensures |s| > 1
  {
  }

  // ---------------------------------------------------------------- whole runs

  /** No key ever changes its owner. */
  lemma {:induction false} OwnershipIsForever(r: Registry, candidates: seq<Candidate>, k: Key)
    requires k in r.owner
    ensures k in Run(r, candidates).owner && Run(r, candidates).owner[k] == r.owner[k]
  {
    if candidates != [] { OwnershipIsForever(r, candidates[..|candidates| - 1], k); }
  }

  lemma {:induction false} RunStaysValid(r: Registry, candidates: seq<Candidate>)
    requires Valid(r)
    ensures Valid(Run(r, candidates))
  {
    if candidates != [] {
      RunStaysValid(r, candidates[..|candidates| - 1]);
      ResolvingKeepsValid(Run(r, candidates[..|candidates| - 1]), KeysOf(candidates[|candidates| - 1]));
    }
  }

  /** Two candidates with the same strongest key resolve to one entity, whatever is resolved
      between them: in particular a candidate with a key and itself, and any two candidates with
      the same canonical e-mail address. */
  lemma SameStrongestKeySameEntity(r: Registry, a: Candidate, between: seq<Candidate>, b: Candidate)
    requires KeysOf(a) != [] && KeysOf(b) != [] && KeysOf(a)[0] == KeysOf(b)[0]
    ensures var later := Run(After(r, KeysOf(a)), between);
      && Outcome(later, KeysOf(b)).entity == Outcome(r, KeysOf(a)).entity
      && !Outcome(later, KeysOf(b)).created
  {
    var k := KeysOf(a)[0];
    StrongestKeyDecides(r, KeysOf(a));
    OwnershipIsForever(After(r, KeysOf(a)), between, k);
    FirstOwner(Run(After(r, KeysOf(a)), between).owner, KeysOf(b));
  }

  lemma SharedEmailSameEntity(r: Registry, a: Candidate, between: seq<Candidate>, b: Candidate)
    requires a.email != "" && b.email != "" && Canonicalize(a.email).Ok? && Canonicalize(a.email) == Canonicalize(b.email)
    ensures Outcome(Run(After(r, KeysOf(a)), between), KeysOf(b)).entity == Outcome(r, KeysOf(a)).entity
  {
    hide Canonicalize, Domain, PhoneDigits;
    SameStrongestKeySameEntity(r, a, between, b);
  }

  /** So do, without addresses, those with one NPI, and, with nothing stronger, those with one
      domain and one phone number, however these are written. */
  lemma SharedPracticeSameEntity(r: Registry, a: Candidate, between: seq<Candidate>, b: Candidate)
    requires a.email == b.email == ""
    requires (a.npi == b.npi != "")
      || (a.npi == b.npi == a.place == b.place == "" && Domain(a.website) == Domain(b.website) != ""
          && PhoneDigits(a.phone) == PhoneDigits(b.phone) != "")
    ensures Outcome(Run(After(r, KeysOf(a)), between), KeysOf(b)).entity == Outcome(r, KeysOf(a)).entity
  {
    hide Canonicalize, Domain, PhoneDigits;
    SameStrongestKeySameEntity(r, a, between, b);
  }

  /** A weaker key in common is not enough: two people with addresses of their own keep their
      entities although they share an NPI, and the conflict is flagged. */
  lemma SharedNpiKeepsTwo(npi: string, x: Key, y: Key, r: Registry)
    requires x != y && x.kind == y.kind == EmailKey && npi != ""
    requires x in r.owner && y in r.owner && r.owner[x] != r.owner[y]
    requires Key(NpiKey, npi) in r.owner && r.owner[Key(NpiKey, npi)] == r.owner[x]
    ensures Outcome(r, [y, Key(NpiKey, npi)]).entity == r.owner[y] != Outcome(r, [x, Key(NpiKey, npi)]).entity
    ensures Outcome(r, [y, Key(NpiKey, npi)]).mergeConflict
  {
    FirstOwner(r.owner, [x, Key(NpiKey, npi)]);
    FirstOwner(r.owner, [y, Key(NpiKey, npi)]);
    FlagsAreExact(r, [y, Key(NpiKey, npi)]);
    var keys := [y, Key(NpiKey, npi)];
    assert r.owner[keys[0]] != r.owner[keys[1]];
  }
}
