/** What the schema rewriting does to the set of accepted values. */
module SchemaMeaning {
  import opened SchemaClean

  /** What this model does not interpret: `flat` decides every other keyword, `dropped` decides what
      the rewriting throws away (`additionalProperties`, the siblings of a `$ref`), and `matches`
      whether a pattern matches a property name. */
  datatype Meaning = Meaning(flat: (string, Json, Json) -> bool, dropped: (map<string, Json>, Json) -> bool,
                             matches: (string, string) -> bool)

  // ---------------------------------------------------------------- acceptance

  /** Does schema `s` accept the value `x`?  References are followed as far as the ranking vouches
      for them, which is everywhere the rewriting can get to. */
  ghost predicate Accepts(m: Meaning, defs: Schemas, rank: Ranking, bound: nat, s: Json, x: Json)
    decreases bound, s, 0
  {
    match s
    case Bool(b) => b
    case Obj(f) =>
      if "$ref" in f then
        m.dropped(f, x)
        && (Target(defs, f["$ref"]) != EMPTY && TargetRank(defs, rank, f["$ref"]) < bound ==>
              Accepts(m, defs, rank, TargetRank(defs, rank, f["$ref"]), Target(defs, f["$ref"]), x))
      else
        ("additionalProperties" in f ==> m.dropped(f, x))
        && ("exclusiveMinimum" in f ==> Above(f["exclusiveMinimum"], x))
        && ("exclusiveMaximum" in f ==> Below(f["exclusiveMaximum"], x))
        && forall k | k in f && Kept(k) :: AcceptsKey(m, defs, rank, bound, k, f[k], Prefix(f), x)
    case _ => true
  }

  /** How many leading elements `prefixItems` takes away from `items`. */
  function Prefix(f: map<string, Json>): nat {
    if "prefixItems" in f && f["prefixItems"].Arr? then |f["prefixItems"].items| else 0
  }

  ghost predicate Above(v: Json, x: Json) { v.Num? && x.Num? ==> x.n > v.n }
  ghost predicate Below(v: Json, x: Json) { v.Num? && x.Num? ==> x.n < v.n }

  /** One keyword `k` with its value `v`; the first `skip` elements are those of `prefixItems`. */
  ghost predicate AcceptsKey(m: Meaning, defs: Schemas, rank: Ranking, bound: nat, k: string, v: Json, skip: nat, x: Json)
    decreases bound, v, 1
  {
    if k == "minimum" then v.Num? && x.Num? ==> x.n >= v.n
    else if k == "maximum" then v.Num? && x.Num? ==> x.n <= v.n
    else if k == "properties" then
      v.Obj? && x.Obj? ==> forall p | p in v.fields && p in x.fields :: Accepts(m, defs, rank, bound, v.fields[p], x.fields[p])
    else if k == "patternProperties" then
      v.Obj? && x.Obj? ==> forall p, q | p in v.fields && q in x.fields && m.matches(p, q) ::
        Accepts(m, defs, rank, bound, v.fields[p], x.fields[q])
    else if k == "items" then
      x.Arr? ==> forall j | skip <= j < |x.items| :: Accepts(m, defs, rank, bound, v, x.items[j])
    else if k == "prefixItems" then
      v.Arr? && x.Arr? ==> forall j | 0 <= j < |v.items| && j < |x.items| :: Accepts(m, defs, rank, bound, v.items[j], x.items[j])
    else if k == "contains" then
      x.Arr? ==> exists j | 0 <= j < |x.items| :: Accepts(m, defs, rank, bound, v, x.items[j])
    else if k == "anyOf" then
      v.Arr? ==> exists i | 0 <= i < |v.items| :: Accepts(m, defs, rank, bound, v.items[i], x)
    else if k == "allOf" then
      v.Arr? ==> forall i | 0 <= i < |v.items| :: Accepts(m, defs, rank, bound, v.items[i], x)
    else if k == "oneOf" then
      v.Arr? ==>
        (exists i | 0 <= i < |v.items| :: Accepts(m, defs, rank, bound, v.items[i], x))
        && (forall i, j | 0 <= i < j < |v.items| ::
              !(Accepts(m, defs, rank, bound, v.items[i], x) && Accepts(m, defs, rank, bound, v.items[j], x)))
    else if k == "not" then !Accepts(m, defs, rank, bound, v, x)
    else m.flat(k, v, x)
  }

  /** The meaning of a schema that stands alone. */
  ghost predicate AcceptsAlone(m: Meaning, s: Json, x: Json) {
    Accepts(m, map[], map[], 0, s, x)
  }

  ghost predicate AcceptsKeyAlone(m: Meaning, k: string, v: Json, skip: nat, x: Json) {
    AcceptsKey(m, map[], map[], 0, k, v, skip, x)
  }

  // ---------------------------------------------------------------- the schemas that are only relaxed

  ghost predicate Flat(v: Json) {
    !v.Obj? && (v.Arr? ==> forall i | 0 <= i < |v.items| :: Flat(v.items[i]))
  }

  /** No object under `not`, `oneOf` or an uninterpreted keyword, no counted `contains`, and no
      property or pattern called like an exclusive bound. */
  ghost predicate Readable(s: Json)
    decreases s, 0
  {
    s.Obj? && "$ref" !in s.fields ==>
      (forall k | k in s.fields && Kept(k) :: ReadableKey(k, s.fields[k]))
      && ("exclusiveMinimum" in s.fields ==> Flat(s.fields["exclusiveMinimum"]))
      && ("exclusiveMaximum" in s.fields ==> Flat(s.fields["exclusiveMaximum"]))
      && ("contains" in s.fields ==> "minContains" !in s.fields && "maxContains" !in s.fields)
  }

  ghost predicate ReadableKey(k: string, v: Json)
    decreases v, 1
  {
    if Named(k) then v.Obj? && PlainNames(v.fields) && forall p | p in v.fields && Kept(p) :: Readable(v.fields[p])
    else if k == "items" || k == "contains" then Readable(v)
    else if Listed(k) then v.Arr? && forall i | 0 <= i < |v.items| :: Readable(v.items[i])
    else Flat(v)
  }

  /** Keywords whose value maps names to schemas, and those whose value lists schemas. */
  predicate Named(k: string) { k == "properties" || k == "patternProperties" }
  predicate Listed(k: string) { k == "anyOf" || k == "allOf" || k == "prefixItems" }

  ghost predicate AllReadable(defs: Schemas) {
    forall d | d in defs :: Readable(defs[d])
  }

  lemma {:induction false} FlatIsFixed(defs: Schemas, rank: Ranking, bound: nat, v: Json)
    requires Flat(v) && Acyclic(defs, rank)
    ensures Tidy(v) && RefsBelow(defs, rank, bound, v) && Cleaned(defs, rank, bound, v) == v
  {
    if v.Arr? {
      forall i | 0 <= i < |v.items| ensures Tidy(v.items[i]) { FlatIsFixed(defs, rank, bound, v.items[i]); }
    }
    TidyIsFixed(defs, rank, bound, v);
  }

  lemma RefIsRanked(defs: Schemas, rank: Ranking, bound: nat, f: map<string, Json>)
    requires Acyclic(defs, rank) && RefsBelow(defs, rank, bound, Obj(f)) && "$ref" in f
    requires Target(defs, f["$ref"]) != EMPTY
    ensures var (t, r) := (Target(defs, f["$ref"]), TargetRank(defs, rank, f["$ref"]));
      r < bound && RefsBelow(defs, rank, r, t)
    ensures Cleaned(defs, rank, bound, Obj(f)) == Cleaned(defs, rank, TargetRank(defs, rank, f["$ref"]), Target(defs, f["$ref"]))
  {
  }

  /** The rewriting only relaxes: what a schema accepted, its rewritten form still accepts. */
  lemma {:induction false} CleaningRelaxes(m: Meaning, defs: Schemas, rank: Ranking, bound: nat, s: Json, x: Json)
    requires Acyclic(defs, rank) && RefsBelow(defs, rank, bound, s)
    requires AllReadable(defs) && Readable(s)
    ensures Accepts(m, defs, rank, bound, s, x) ==> AcceptsAlone(m, Cleaned(defs, rank, bound, s), x)
    decreases bound, s, 0
  {
    match s
    case Obj(f) =>
      if "$ref" in f {
        if Target(defs, f["$ref"]) != EMPTY {
          RefIsRanked(defs, rank, bound, f);
          hide Cleaned;
          CleaningRelaxes(m, defs, rank, TargetRank(defs, rank, f["$ref"]), Target(defs, f["$ref"]), x);
        }
      } else {
        forall k | k in f && Kept(k)
          ensures AcceptsKey(m, defs, rank, bound, k, f[k], Prefix(f), x) ==>
            AcceptsKeyAlone(m, k, Cleaned(defs, rank, bound, f[k]), Prefix(f), x)
        {
          KeyRelaxes(m, defs, rank, bound, k, f[k], Prefix(f), x);
        }
        PrefixStays(defs, rank, bound, f);
        ObjectRelaxes(m, defs, rank, bound, f, x);
      }
    case _ =>
  }

  lemma MovedBoundRelaxes(m: Meaning, k: string, v: Json, x: Json)
    requires k == "minimum" || k == "maximum"
    ensures forall skip :: k == "minimum" && Above(v, x) ==> AcceptsKeyAlone(m, k, v, skip, x)
    ensures forall skip :: k == "maximum" && Below(v, x) ==> AcceptsKeyAlone(m, k, v, skip, x)
  {
  }

  lemma ObjectRelaxes(m: Meaning, defs: Schemas, rank: Ranking, bound: nat, f: map<string, Json>, x: Json)
    requires Acyclic(defs, rank) && RefsBelow(defs, rank, bound, Obj(f)) && "$ref" !in f
    requires forall k | k in f && Kept(k) :: AcceptsKey(m, defs, rank, bound, k, f[k], Prefix(f), x) ==>
      AcceptsKeyAlone(m, k, Cleaned(defs, rank, bound, f[k]), Prefix(f), x)
    requires Cleaned(defs, rank, bound, Obj(f)).Obj? && Prefix(Cleaned(defs, rank, bound, Obj(f)).fields) == Prefix(f)
    ensures Accepts(m, defs, rank, bound, Obj(f), x) ==> AcceptsAlone(m, Cleaned(defs, rank, bound, Obj(f)), x)
  {
    hide Cleaned, AcceptsKeyAlone, AcceptsKey, RefsBelow, Acyclic, Prefix;
    var r := CleanedObject(defs, rank, bound, f);
    if Accepts(m, defs, rank, bound, Obj(f), x) {
      forall k | k in r ensures AcceptsKeyAlone(m, k, r[k], Prefix(r), x) {
        if k !in f { MovedBoundRelaxes(m, k, r[k], x); }
      }
      DictionaryAccepts(m, r, x);
    }
  }

  lemma DictionaryAccepts(m: Meaning, r: map<string, Json>, x: Json)
    requires "$ref" !in r && forall k | k in r :: Kept(k)
    ensures AcceptsAlone(m, Obj(r), x) <==> forall k | k in r :: AcceptsKeyAlone(m, k, r[k], Prefix(r), x)
  {
    hide AcceptsKey;
  }

  lemma PrefixStays(defs: Schemas, rank: Ranking, bound: nat, f: map<string, Json>)
    requires Acyclic(defs, rank) && RefsBelow(defs, rank, bound, Obj(f)) && "$ref" !in f
    requires "prefixItems" in f ==> f["prefixItems"].Arr?
    ensures Cleaned(defs, rank, bound, Obj(f)).Obj? && Prefix(Cleaned(defs, rank, bound, Obj(f)).fields) == Prefix(f)
  {
    var r := CleanedObject(defs, rank, bound, f);
    assert Kept("prefixItems");
    if "prefixItems" in f {
      assert r["prefixItems"] == Cleaned(defs, rank, bound, f["prefixItems"]);
    }
  }

  lemma {:induction false} KeyRelaxes(m: Meaning, defs: Schemas, rank: Ranking, bound: nat, k: string, v: Json, skip: nat, x: Json)
    requires Acyclic(defs, rank) && RefsBelow(defs, rank, bound, v)
    requires AllReadable(defs) && ReadableKey(k, v)
    ensures AcceptsKey(m, defs, rank, bound, k, v, skip, x) ==> AcceptsKeyAlone(m, k, Cleaned(defs, rank, bound, v), skip, x)
    decreases bound, v, 2
  {
    if k == "properties" {
      PropertiesRelax(m, defs, rank, bound, v, skip, x);
    } else if k == "patternProperties" {
      PatternsRelax(m, defs, rank, bound, v, skip, x);
    } else if k == "items" || k == "contains" {
      ItemsRelax(m, defs, rank, bound, k, v, skip, x);
    } else if k == "prefixItems" {
      PrefixRelaxes(m, defs, rank, bound, v, skip, x);
    } else if k == "anyOf" || k == "allOf" {
      BranchesRelax(m, defs, rank, bound, k, v, skip, x);
    } else {
      FlatIsFixed(defs, rank, bound, v);
      hide Cleaned, Readable, Tidy, RefsBelow;
      FlatKeyMeansSame(m, defs, rank, bound, k, v, skip, x);
    }
  }

  /** A schema without objects means the same everywhere. */
  lemma FlatMeansSame(m: Meaning, defs: Schemas, rank: Ranking, bound: nat, v: Json, x: Json)
    requires !v.Obj?
    ensures Accepts(m, defs, rank, bound, v, x) == AcceptsAlone(m, v, x)
  {
  }

  lemma FlatKeyMeansSame(m: Meaning, defs: Schemas, rank: Ranking, bound: nat, k: string, v: Json, skip: nat, x: Json)
    requires Flat(v) && !Named(k) && !Listed(k) && k != "items" && k != "contains"
    ensures AcceptsKey(m, defs, rank, bound, k, v, skip, x) == AcceptsKeyAlone(m, k, v, skip, x)
  {
    FlatMeansSame(m, defs, rank, bound, v, x);
    if v.Arr? {
      forall i | 0 <= i < |v.items| ensures Accepts(m, defs, rank, bound, v.items[i], x) == AcceptsAlone(m, v.items[i], x) {
        FlatMeansSame(m, defs, rank, bound, v.items[i], x);
      }
    }
    hide Accepts;
  }

  lemma {:induction false} ItemsRelax(m: Meaning, defs: Schemas, rank: Ranking, bound: nat, k: string, v: Json, skip: nat, x: Json)
    requires Acyclic(defs, rank) && RefsBelow(defs, rank, bound, v) && (k == "items" || k == "contains")
    requires AllReadable(defs) && ReadableKey(k, v)
    ensures AcceptsKey(m, defs, rank, bound, k, v, skip, x) ==>
      AcceptsKeyAlone(m, k, Cleaned(defs, rank, bound, v), skip, x)
    decreases bound, v, 1
  {
    hide Cleaned, Accepts, RefsBelow, Acyclic, Flat, Readable;
    if x.Arr? {
      forall j | 0 <= j < |x.items|
        ensures Accepts(m, defs, rank, bound, v, x.items[j]) ==>
          AcceptsAlone(m, Cleaned(defs, rank, bound, v), x.items[j])
      {
        CleaningRelaxes(m, defs, rank, bound, v, x.items[j]);
      }
      if k == "contains" && AcceptsKey(m, defs, rank, bound, k, v, skip, x) {
        var j :| 0 <= j < |x.items| && Accepts(m, defs, rank, bound, v, x.items[j]);
        assert AcceptsAlone(m, Cleaned(defs, rank, bound, v), x.items[j]);
      }
    }
  }

  lemma {:induction false} PrefixRelaxes(m: Meaning, defs: Schemas, rank: Ranking, bound: nat, v: Json, skip: nat, x: Json)
    requires Acyclic(defs, rank) && RefsBelow(defs, rank, bound, v)
    requires AllReadable(defs) && ReadableKey("prefixItems", v)
    ensures AcceptsKey(m, defs, rank, bound, "prefixItems", v, skip, x) ==>
      AcceptsKeyAlone(m, "prefixItems", Cleaned(defs, rank, bound, v), skip, x)
    decreases bound, v, 1
  {
    var t := v.items;
    var u := Cleaned(defs, rank, bound, v).items;
    if x.Arr? {
      forall i | 0 <= i < |t| && i < |x.items|
        ensures Accepts(m, defs, rank, bound, t[i], x.items[i]) ==> AcceptsAlone(m, u[i], x.items[i])
      {
        CleaningRelaxes(m, defs, rank, bound, t[i], x.items[i]);
      }
    }
    hide Cleaned, Accepts, Acyclic, Flat, Readable;
  }

  lemma {:induction false} BranchesRelax(m: Meaning, defs: Schemas, rank: Ranking, bound: nat, k: string, v: Json, skip: nat, x: Json)
    requires Acyclic(defs, rank) && RefsBelow(defs, rank, bound, v) && (k == "anyOf" || k == "allOf")
    requires AllReadable(defs) && ReadableKey(k, v)
    ensures AcceptsKey(m, defs, rank, bound, k, v, skip, x) ==> AcceptsKeyAlone(m, k, Cleaned(defs, rank, bound, v), skip, x)
    decreases bound, v, 1
  {
    var t := v.items;
    var u := Cleaned(defs, rank, bound, v).items;
    forall i | 0 <= i < |t|
      ensures Accepts(m, defs, rank, bound, t[i], x) ==> AcceptsAlone(m, u[i], x)
    {
      CleaningRelaxes(m, defs, rank, bound, t[i], x);
    }
    hide Cleaned, Accepts, Acyclic, Flat, Readable;
    if k == "anyOf" && AcceptsKey(m, defs, rank, bound, k, v, skip, x) {
      var i :| 0 <= i < |t| && Accepts(m, defs, rank, bound, t[i], x);
      assert AcceptsAlone(m, u[i], x);
    }
  }

  lemma {:induction false} PropertiesRelax(m: Meaning, defs: Schemas, rank: Ranking, bound: nat, v: Json, skip: nat, x: Json)
    requires Acyclic(defs, rank) && RefsBelow(defs, rank, bound, v)
    requires AllReadable(defs) && ReadableKey("properties", v)
    ensures AcceptsKey(m, defs, rank, bound, "properties", v, skip, x) ==>
      AcceptsKeyAlone(m, "properties", Cleaned(defs, rank, bound, v), skip, x)
    decreases bound, v, 1
  {
    var ps := v.fields;
    var r := CleanedObject(defs, rank, bound, ps);
    if x.Obj? && AcceptsKey(m, defs, rank, bound, "properties", v, skip, x) {
      forall p | p in r && p in x.fields ensures AcceptsAlone(m, r[p], x.fields[p]) {
        CleaningRelaxes(m, defs, rank, bound, ps[p], x.fields[p]);
      }
    }
    hide Cleaned, Accepts, Acyclic, Flat, Readable, RefsBelow;
  }

  lemma {:induction false} PatternsRelax(m: Meaning, defs: Schemas, rank: Ranking, bound: nat, v: Json, skip: nat, x: Json)
    requires Acyclic(defs, rank) && RefsBelow(defs, rank, bound, v)
    requires AllReadable(defs) && ReadableKey("patternProperties", v)
    ensures AcceptsKey(m, defs, rank, bound, "patternProperties", v, skip, x) ==>
      AcceptsKeyAlone(m, "patternProperties", Cleaned(defs, rank, bound, v), skip, x)
    decreases bound, v, 1
  {
    var ps := v.fields;
    var r := CleanedObject(defs, rank, bound, ps);
    if x.Obj? && AcceptsKey(m, defs, rank, bound, "patternProperties", v, skip, x) {
      forall p, q | p in r && q in x.fields && m.matches(p, q) ensures AcceptsAlone(m, r[p], x.fields[q]) {
        CleaningRelaxes(m, defs, rank, bound, ps[p], x.fields[q]);
      }
    }
    hide Cleaned, Accepts, Acyclic, Flat, Readable, RefsBelow;
  }

  // ---------------------------------------------------------------- where it changes nothing

  /** Nothing that is dropped or softened means anything here: no `additionalProperties`, no
      exclusive bound, no property called like a dropped key, and references stand alone. What is
      under `not` and `oneOf` counts as well. */
  ghost predicate Unaffected(s: Json)
    decreases s, 0
  {
    s.Obj? ==>
      if "$ref" in s.fields then s.fields.Keys == {"$ref"}
      else
        (forall k | k in s.fields && Kept(k) :: UnaffectedKey(k, s.fields[k]))
        && "additionalProperties" !in s.fields && "exclusiveMinimum" !in s.fields && "exclusiveMaximum" !in s.fields
  }

  ghost predicate UnaffectedKey(k: string, v: Json)
    decreases v, 1
  {
    if Named(k) then v.Obj? && forall p | p in v.fields :: Kept(p) && p != "$ref" && Unaffected(v.fields[p])
    else if k == "items" || k == "contains" || k == "not" then Unaffected(v)
    else if Listed(k) || k == "oneOf" then v.Arr? && forall i | 0 <= i < |v.items| :: Unaffected(v.items[i])
    else Flat(v)
  }

  /** Definitions of that kind, and a lone reference restricts nothing but what it refers to. */
  ghost predicate AllUnaffected(m: Meaning, defs: Schemas) {
    && (forall d | d in defs :: Unaffected(defs[d]))
    && (forall f: map<string, Json>, x | f.Keys == {"$ref"} :: m.dropped(f, x))
  }

  /** `t` alone means what `s` means. */
  ghost predicate Same(m: Meaning, defs: Schemas, rank: Ranking, bound: nat, s: Json, t: Json) {
    forall x :: Accepts(m, defs, rank, bound, s, x) <==> AcceptsAlone(m, t, x)
  }

  ghost predicate SameKey(m: Meaning, defs: Schemas, rank: Ranking, bound: nat, k: string, v: Json, w: Json) {
    forall skip, x :: AcceptsKey(m, defs, rank, bound, k, v, skip, x) <==> AcceptsKeyAlone(m, k, w, skip, x)
  }

  /** The converse: on such schemas the rewriting keeps the meaning. What its result accepts, the
      schema with its definitions accepted, so no definition is lost and no keyword ignored. */
  lemma {:induction false} CleaningKeepsMeaning(m: Meaning, defs: Schemas, rank: Ranking, bound: nat, s: Json)
    requires Acyclic(defs, rank) && RefsBelow(defs, rank, bound, s)
    requires AllUnaffected(m, defs) && Unaffected(s)
    ensures Same(m, defs, rank, bound, s, Cleaned(defs, rank, bound, s))
    decreases bound, s, 0
  {
    match s
    case Obj(f) =>
      if "$ref" in f {
        if Target(defs, f["$ref"]) != EMPTY {
          RefIsRanked(defs, rank, bound, f);
          CleaningKeepsMeaning(m, defs, rank, TargetRank(defs, rank, f["$ref"]), Target(defs, f["$ref"]));
        }
        hide Cleaned, Acyclic, Unaffected;
        LoneReference(m, defs, rank, bound, f);
      } else {
        forall k | k in f && Kept(k) ensures SameKey(m, defs, rank, bound, k, f[k], Cleaned(defs, rank, bound, f[k])) {
          KeyKeepsMeaning(m, defs, rank, bound, k, f[k]);
        }
        if "prefixItems" in f { assert Kept("prefixItems"); }
        PrefixStays(defs, rank, bound, f);
        ObjectKeepsMeaning(m, defs, rank, bound, f);
      }
    case _ => hide Cleaned, Unaffected; NoObjectKeepsMeaning(m, defs, rank, bound, s);
  }

  lemma NoObjectKeepsMeaning(m: Meaning, defs: Schemas, rank: Ranking, bound: nat, s: Json)
    requires Acyclic(defs, rank) && RefsBelow(defs, rank, bound, s) && !s.Obj?
    ensures Same(m, defs, rank, bound, s, Cleaned(defs, rank, bound, s))
  {
    forall x ensures Accepts(m, defs, rank, bound, s, x) <==> AcceptsAlone(m, Cleaned(defs, rank, bound, s), x) {
    }
  }

  lemma EmptyAcceptsAll(m: Meaning, x: Json)
    ensures AcceptsAlone(m, EMPTY, x)
  {
  }

  lemma LoneReference(m: Meaning, defs: Schemas, rank: Ranking, bound: nat, f: map<string, Json>)
    requires Acyclic(defs, rank) && RefsBelow(defs, rank, bound, Obj(f)) && f.Keys == {"$ref"} && AllUnaffected(m, defs)
    requires var t := Target(defs, f["$ref"]);
      t != EMPTY ==>
        && TargetRank(defs, rank, f["$ref"]) < bound && RefsBelow(defs, rank, TargetRank(defs, rank, f["$ref"]), t)
        && Same(m, defs, rank, TargetRank(defs, rank, f["$ref"]), t, Cleaned(defs, rank, TargetRank(defs, rank, f["$ref"]), t))
    ensures Same(m, defs, rank, bound, Obj(f), Cleaned(defs, rank, bound, Obj(f)))
  {
    hide Acyclic, Unaffected, Target, TargetRank, RefsBelow;
    forall x ensures m.dropped(f, x) && AcceptsAlone(m, EMPTY, x) { EmptyAcceptsAll(m, x); }
  }

  lemma ObjectKeepsMeaning(m: Meaning, defs: Schemas, rank: Ranking, bound: nat, f: map<string, Json>)
    requires Acyclic(defs, rank) && RefsBelow(defs, rank, bound, Obj(f)) && "$ref" !in f
    requires "additionalProperties" !in f && "exclusiveMinimum" !in f && "exclusiveMaximum" !in f
    requires forall k | k in f && Kept(k) :: SameKey(m, defs, rank, bound, k, f[k], Cleaned(defs, rank, bound, f[k]))
    requires Cleaned(defs, rank, bound, Obj(f)).Obj? && Prefix(Cleaned(defs, rank, bound, Obj(f)).fields) == Prefix(f)
    ensures Same(m, defs, rank, bound, Obj(f), Cleaned(defs, rank, bound, Obj(f)))
  {
    hide Cleaned, AcceptsKeyAlone, AcceptsKey, RefsBelow, Acyclic, Prefix;
    var r := CleanedObject(defs, rank, bound, f);
    forall x ensures Accepts(m, defs, rank, bound, Obj(f), x) <==> AcceptsAlone(m, Obj(r), x) {
      DictionaryAccepts(m, r, x);
    }
  }

  lemma {:induction false} KeyKeepsMeaning(m: Meaning, defs: Schemas, rank: Ranking, bound: nat, k: string, v: Json)
    requires Acyclic(defs, rank) && RefsBelow(defs, rank, bound, v)
    requires AllUnaffected(m, defs) && UnaffectedKey(k, v)
    ensures SameKey(m, defs, rank, bound, k, v, Cleaned(defs, rank, bound, v))
    decreases bound, v, 2
  {
    if Named(k) {
      NamedKeepMeaning(m, defs, rank, bound, k, v);
    } else if k == "items" || k == "contains" || k == "not" {
      CleaningKeepsMeaning(m, defs, rank, bound, v);
      hide Cleaned, Accepts, RefsBelow, Acyclic, Unaffected;
      OneSchemaMeansSame(m, defs, rank, bound, k, v, Cleaned(defs, rank, bound, v));
    } else if Listed(k) || k == "oneOf" {
      ListKeepsMeaning(m, defs, rank, bound, k, v);
    } else {
      FlatIsFixed(defs, rank, bound, v);
      hide Cleaned, Tidy, RefsBelow, Acyclic, AcceptsKey, AcceptsKeyAlone;
      forall skip, x ensures AcceptsKey(m, defs, rank, bound, k, v, skip, x) <==> AcceptsKeyAlone(m, k, v, skip, x) {
        FlatKeyMeansSame(m, defs, rank, bound, k, v, skip, x);
      }
    }
  }

  lemma OneSchemaMeansSame(m: Meaning, defs: Schemas, rank: Ranking, bound: nat, k: string, v: Json, w: Json)
    requires (k == "items" || k == "contains" || k == "not") && Same(m, defs, rank, bound, v, w)
    ensures SameKey(m, defs, rank, bound, k, v, w)
  {
    hide AcceptsKey, AcceptsKeyAlone, Same;
    forall skip, x ensures AcceptsKey(m, defs, rank, bound, k, v, skip, x) <==> AcceptsKeyAlone(m, k, w, skip, x) {
      if k == "items" {
        ItemsMeanSame(m, defs, rank, bound, v, w, skip, x);
      } else if k == "contains" {
        ContainsMeansSame(m, defs, rank, bound, v, w, skip, x);
      } else {
        NotMeansSame(m, defs, rank, bound, v, w, skip, x);
      }
    }
  }

  lemma ItemsMeanSame(m: Meaning, defs: Schemas, rank: Ranking, bound: nat, v: Json, w: Json, skip: nat, x: Json)
    requires Same(m, defs, rank, bound, v, w)
    ensures AcceptsKey(m, defs, rank, bound, "items", v, skip, x) <==> AcceptsKeyAlone(m, "items", w, skip, x)
  {
    hide Accepts;
  }

  lemma ContainsMeansSame(m: Meaning, defs: Schemas, rank: Ranking, bound: nat, v: Json, w: Json, skip: nat, x: Json)
    requires Same(m, defs, rank, bound, v, w)
    ensures AcceptsKey(m, defs, rank, bound, "contains", v, skip, x) <==> AcceptsKeyAlone(m, "contains", w, skip, x)
  {
    hide Accepts;
  }

  lemma NotMeansSame(m: Meaning, defs: Schemas, rank: Ranking, bound: nat, v: Json, w: Json, skip: nat, x: Json)
    requires Same(m, defs, rank, bound, v, w)
    ensures AcceptsKey(m, defs, rank, bound, "not", v, skip, x) <==> AcceptsKeyAlone(m, "not", w, skip, x)
  {
    hide Accepts;
  }

  lemma {:induction false} ListKeepsMeaning(m: Meaning, defs: Schemas, rank: Ranking, bound: nat, k: string, v: Json)
    requires Acyclic(defs, rank) && RefsBelow(defs, rank, bound, v) && (Listed(k) || k == "oneOf")
    requires AllUnaffected(m, defs) && UnaffectedKey(k, v)
    ensures SameKey(m, defs, rank, bound, k, v, Cleaned(defs, rank, bound, v))
    decreases bound, v, 1
  {
    var t := v.items;
    var u := Cleaned(defs, rank, bound, v).items;
    forall i | 0 <= i < |t| ensures Same(m, defs, rank, bound, t[i], u[i]) {
      CleaningKeepsMeaning(m, defs, rank, bound, t[i]);
    }
    hide Cleaned, Accepts, Acyclic, RefsBelow, Unaffected, UnaffectedKey;
    ListMeansSame(m, defs, rank, bound, k, t, u);
  }

  lemma ListMeansSame(m: Meaning, defs: Schemas, rank: Ranking, bound: nat, k: string, t: seq<Json>, u: seq<Json>)
    requires (Listed(k) || k == "oneOf") && |u| == |t|
    requires forall i | 0 <= i < |t| :: Same(m, defs, rank, bound, t[i], u[i])
    ensures SameKey(m, defs, rank, bound, k, Arr(t), Arr(u))
  {
    forall skip, x ensures AcceptsKey(m, defs, rank, bound, k, Arr(t), skip, x) <==> AcceptsKeyAlone(m, k, Arr(u), skip, x) {
      assert forall i, y | 0 <= i < |t| :: Accepts(m, defs, rank, bound, t[i], y) <==> AcceptsAlone(m, u[i], y);
      hide AcceptsKey, AcceptsKeyAlone, Same, Accepts, AcceptsAlone;
      if k == "prefixItems" {
        PrefixMeansSame(m, defs, rank, bound, t, u, skip, x);
      } else if k == "oneOf" {
        OneOfMeansSame(m, defs, rank, bound, t, u, skip, x);
      } else {
        BranchesMeanSame(m, defs, rank, bound, k, t, u, skip, x);
      }
    }
  }

  lemma PrefixMeansSame(m: Meaning, defs: Schemas, rank: Ranking, bound: nat, t: seq<Json>, u: seq<Json>, skip: nat, x: Json)
    requires |u| == |t| && forall i, y | 0 <= i < |t| :: Accepts(m, defs, rank, bound, t[i], y) <==> AcceptsAlone(m, u[i], y)
    ensures AcceptsKey(m, defs, rank, bound, "prefixItems", Arr(t), skip, x) <==> AcceptsKeyAlone(m, "prefixItems", Arr(u), skip, x)
  {
    hide Accepts;
  }

  lemma OneOfUnfolds(m: Meaning, defs: Schemas, rank: Ranking, bound: nat, t: seq<Json>, skip: nat, x: Json)
    ensures AcceptsKey(m, defs, rank, bound, "oneOf", Arr(t), skip, x) <==>
      (exists i | 0 <= i < |t| :: Accepts(m, defs, rank, bound, t[i], x))
      && (forall i, j | 0 <= i < j < |t| :: !(Accepts(m, defs, rank, bound, t[i], x) && Accepts(m, defs, rank, bound, t[j], x)))
  {
    hide Accepts;
  }

  lemma OneOfMeansSame(m: Meaning, defs: Schemas, rank: Ranking, bound: nat, t: seq<Json>, u: seq<Json>, skip: nat, x: Json)
    requires |u| == |t| && forall i, y | 0 <= i < |t| :: Accepts(m, defs, rank, bound, t[i], y) <==> AcceptsAlone(m, u[i], y)
    ensures AcceptsKey(m, defs, rank, bound, "oneOf", Arr(t), skip, x) <==> AcceptsKeyAlone(m, "oneOf", Arr(u), skip, x)
  {
    hide Accepts, AcceptsKey;
    OneOfUnfolds(m, defs, rank, bound, t, skip, x);
    OneOfUnfolds(m, map[], map[], 0, u, skip, x);
    assert forall i | 0 <= i < |t| :: Accepts(m, defs, rank, bound, t[i], x) <==> AcceptsAlone(m, u[i], x);
  }

  lemma BranchesMeanSame(m: Meaning, defs: Schemas, rank: Ranking, bound: nat, k: string, t: seq<Json>, u: seq<Json>, skip: nat, x: Json)
    requires k == "anyOf" || k == "allOf"
    requires |u| == |t| && forall i, y | 0 <= i < |t| :: Accepts(m, defs, rank, bound, t[i], y) <==> AcceptsAlone(m, u[i], y)
    ensures AcceptsKey(m, defs, rank, bound, k, Arr(t), skip, x) <==> AcceptsKeyAlone(m, k, Arr(u), skip, x)
  {
    hide Accepts;
    assert forall i | 0 <= i < |t| :: Accepts(m, defs, rank, bound, t[i], x) <==> AcceptsAlone(m, u[i], x);
  }

  lemma {:induction false} NamedKeepMeaning(m: Meaning, defs: Schemas, rank: Ranking, bound: nat, k: string, v: Json)
    requires Acyclic(defs, rank) && RefsBelow(defs, rank, bound, v) && Named(k)
    requires AllUnaffected(m, defs) && UnaffectedKey(k, v)
    ensures SameKey(m, defs, rank, bound, k, v, Cleaned(defs, rank, bound, v))
    decreases bound, v, 1
  {
    var ps := v.fields;
    var r := CleanedObject(defs, rank, bound, ps);
    forall p | p in ps ensures p in r && Same(m, defs, rank, bound, ps[p], r[p]) {
      CleaningKeepsMeaning(m, defs, rank, bound, ps[p]);
    }
    assert r.Keys == ps.Keys by { hide Cleaned, Accepts, Acyclic, RefsBelow, Unaffected; PlainKeys(ps); }
    hide Cleaned, Accepts, Acyclic, RefsBelow, Unaffected, UnaffectedKey;
    NamesMeanSame(m, defs, rank, bound, k, ps, r);
  }

  lemma PlainKeys(ps: map<string, Json>)
    requires forall p | p in ps :: Kept(p) && p != "$ref"
    ensures PlainNames(ps)
  {
  }

  lemma NamesMeanSame(m: Meaning, defs: Schemas, rank: Ranking, bound: nat, k: string, ps: map<string, Json>, r: map<string, Json>)
    requires Named(k) && r.Keys == ps.Keys && forall p | p in ps :: Same(m, defs, rank, bound, ps[p], r[p])
    ensures SameKey(m, defs, rank, bound, k, Obj(ps), Obj(r))
  {
    hide Accepts;
    forall skip, x ensures AcceptsKey(m, defs, rank, bound, k, Obj(ps), skip, x) <==> AcceptsKeyAlone(m, k, Obj(r), skip, x) {
      if x.Obj? {
        assert forall p, q | p in ps && q in x.fields ::
          Accepts(m, defs, rank, bound, ps[p], x.fields[q]) <==> AcceptsAlone(m, r[p], x.fields[q]);
      }
    }
  }

  // ---------------------------------------------------------------- where it does more than relax

  /** Under `not` the rewriting can only tighten: what it accepts was accepted before. */
  lemma NotReverses(m: Meaning, defs: Schemas, rank: Ranking, bound: nat, s: Json, x: Json)
    requires Acyclic(defs, rank) && RefsBelow(defs, rank, bound, s) && AllReadable(defs) && Readable(s)
    ensures RefsBelow(defs, rank, bound, Obj(map["not" := s]))
    ensures AcceptsAlone(m, Cleaned(defs, rank, bound, Obj(map["not" := s])), x) ==>
      Accepts(m, defs, rank, bound, Obj(map["not" := s]), x)
  {
    CleaningRelaxes(m, defs, rank, bound, s, x);
    NotIsRewritten(defs, rank, bound, s);
    hide Cleaned, RefsBelow, Acyclic, Readable;
    NotNegates(m, defs, rank, bound, s, x);
    NotNegates(m, map[], map[], 0, Cleaned(defs, rank, bound, s), x);
  }

  lemma NotIsRewritten(defs: Schemas, rank: Ranking, bound: nat, s: Json)
    requires Acyclic(defs, rank) && RefsBelow(defs, rank, bound, s)
    ensures RefsBelow(defs, rank, bound, Obj(map["not" := s]))
    ensures Cleaned(defs, rank, bound, Obj(map["not" := s])) == Obj(map["not" := Cleaned(defs, rank, bound, s)])
  {
    hide Cleaned, RefsBelow, Acyclic;
    OneKey(defs, rank, bound, "not", s);
  }

  lemma NotNegates(m: Meaning, defs: Schemas, rank: Ranking, bound: nat, s: Json, x: Json)
    ensures Accepts(m, defs, rank, bound, Obj(map["not" := s]), x) <==> !Accepts(m, defs, rank, bound, s, x)
  {
    var f := map["not" := s];
    assert f.Keys == {"not"} && Kept("not");
    assert AcceptsKey(m, defs, rank, bound, "not", s, Prefix(f), x) <==> !Accepts(m, defs, rank, bound, s, x);
    hide AcceptsKey;
    assert Accepts(m, defs, rank, bound, Obj(f), x) <==> AcceptsKey(m, defs, rank, bound, "not", f["not"], Prefix(f), x);
  }

  lemma BoundMeaning(m: Meaning, n: real, x: real)
    ensures AcceptsAlone(m, Obj(map["exclusiveMinimum" := Num(n)]), Num(x)) <==> x > n
    ensures AcceptsAlone(m, Obj(map["minimum" := Num(n)]), Num(x)) <==> x >= n
    ensures AcceptsAlone(m, Obj(map["maximum" := Num(n)]), Num(x)) <==> x <= n
  {
    assert "exclusiveMinimum" in map["exclusiveMinimum" := Num(n)];
    DictionaryAccepts(m, map["minimum" := Num(n)], Num(x));
    DictionaryAccepts(m, map["maximum" := Num(n)], Num(x));
    assert "minimum" in map["minimum" := Num(n)] && "maximum" in map["maximum" := Num(n)];
  }

  lemma BoundIsSoftened(n: real)
    ensures var s := Obj(map["exclusiveMinimum" := Num(n)]);
      RefsBelow(map[], map[], 0, s) && Cleaned(map[], map[], 0, s) == Obj(map["minimum" := Num(n)])
  {
    SoftenedProperty(Num(n));
  }

  /** And it does: `{"not": {"exclusiveMinimum": 0}}` accepts zero, its rewritten form refuses it. */
  lemma NotIsTightened(m: Meaning)
    ensures var s := Obj(map["not" := Obj(map["exclusiveMinimum" := Num(0.0)])]);
      && RefsBelow(map[], map[], 0, s)
      && AcceptsAlone(m, s, Num(0.0)) && !AcceptsAlone(m, Cleaned(map[], map[], 0, s), Num(0.0))
  {
    hide Cleaned, Accepts, RefsBelow, Kept;
    var bound := Obj(map["exclusiveMinimum" := Num(0.0)]);
    BoundIsSoftened(0.0);
    NotIsRewritten(map[], map[], 0, bound);
    NotNegates(m, map[], map[], 0, bound, Num(0.0));
    NotNegates(m, map[], map[], 0, Cleaned(map[], map[], 0, bound), Num(0.0));
    BoundMeaning(m, 0.0, 0.0);
  }

  lemma OneOfKey(m: Meaning, a: Json, b: Json, skip: nat, x: Json)
    ensures AcceptsKeyAlone(m, "oneOf", Arr([a, b]), skip, x) <==> AcceptsAlone(m, a, x) != AcceptsAlone(m, b, x)
  {
    hide Accepts;
    var t := Arr([a, b]);
    assert t.items[0] == a && t.items[1] == b;
    if AcceptsAlone(m, a, x) && AcceptsAlone(m, b, x) {
      assert !AcceptsKeyAlone(m, "oneOf", t, skip, x);
    }
  }

  /** Two branches under `oneOf`. */
  lemma OneOfTwo(m: Meaning, a: Json, b: Json, x: Json)
    ensures AcceptsAlone(m, Obj(map["oneOf" := Arr([a, b])]), x) <==> AcceptsAlone(m, a, x) != AcceptsAlone(m, b, x)
  {
    var f := map["oneOf" := Arr([a, b])];
    OneOfIsKept();
    OneOfKey(m, a, b, Prefix(f), x);
    hide AcceptsKeyAlone, Accepts, Kept;
    assert f.Keys == {"oneOf"};
    DictionaryAccepts(m, f, x);
  }

  lemma BranchesAreRewritten()
    ensures var s := Obj(map["oneOf" := Arr([Obj(map["exclusiveMinimum" := Num(0.0)]), Obj(map["maximum" := Num(0.0)])])]);
      && RefsBelow(map[], map[], 0, s)
      && Cleaned(map[], map[], 0, s)
         == Obj(map["oneOf" := Arr([Obj(map["minimum" := Num(0.0)]), Obj(map["maximum" := Num(0.0)])])])
  {
    hide Cleaned, RefsBelow, Kept;
    var a, b := Obj(map["exclusiveMinimum" := Num(0.0)]), Obj(map["maximum" := Num(0.0)]);
    BoundIsSoftened(0.0);
    MaximumStays(0.0);
    TwoBranches(a, b);
    OneOfIsKept();
    OneKey(map[], map[], 0, "oneOf", Arr([a, b]));
  }

  lemma MaximumStays(n: real)
    ensures var s := Obj(map["maximum" := Num(n)]);
      RefsBelow(map[], map[], 0, s) && Cleaned(map[], map[], 0, s) == s
  {
    assert Kept("maximum");
    assert RefsBelow(map[], map[], 0, Num(n)) && Cleaned(map[], map[], 0, Num(n)) == Num(n);
    hide Cleaned, RefsBelow, Kept;
    OneKey(map[], map[], 0, "maximum", Num(n));
  }

  lemma OneOfIsKept()
    ensures Kept("oneOf") && "oneOf" != "$ref"
  {
  }

  lemma TwoBranches(a: Json, b: Json)
    requires RefsBelow(map[], map[], 0, a) && RefsBelow(map[], map[], 0, b)
    ensures RefsBelow(map[], map[], 0, Arr([a, b]))
    ensures Cleaned(map[], map[], 0, Arr([a, b])) == Arr([Cleaned(map[], map[], 0, a), Cleaned(map[], map[], 0, b)])
  {
    assert Cleaned(map[], map[], 0, Arr([a, b])).items == [Cleaned(map[], map[], 0, a), Cleaned(map[], map[], 0, b)];
  }

  /** Under `oneOf` it does as well: of an exclusive minimum and a maximum of zero exactly one
      accepts zero before, and both do after. */
  lemma OneOfIsTightened(m: Meaning)
    ensures var s := Obj(map["oneOf" := Arr([Obj(map["exclusiveMinimum" := Num(0.0)]), Obj(map["maximum" := Num(0.0)])])]);
      && RefsBelow(map[], map[], 0, s)
      && AcceptsAlone(m, s, Num(0.0)) && !AcceptsAlone(m, Cleaned(map[], map[], 0, s), Num(0.0))
  {
    hide Cleaned, Accepts, RefsBelow;
    BranchesAreRewritten();
    BoundMeaning(m, 0.0, 0.0);
    OneOfTwo(m, Obj(map["exclusiveMinimum" := Num(0.0)]), Obj(map["maximum" := Num(0.0)]), Num(0.0));
    OneOfTwo(m, Obj(map["minimum" := Num(0.0)]), Obj(map["maximum" := Num(0.0)]), Num(0.0));
  }

  lemma OneProperty(m: Meaning, p: string, v: Json, q: string, x: Json)
    ensures AcceptsAlone(m, Obj(map["properties" := Obj(map[p := v])]), Obj(map[q := x]))
      <==> (p == q ==> AcceptsAlone(m, v, x))
  {
    var ps, xs := map[p := v], map[q := x];
    var f := map["properties" := Obj(ps)];
    assert f.Keys == {"properties"} && Kept("properties");
    DictionaryAccepts(m, f, Obj(xs));
    assert p in ps && q in xs;
    assert AcceptsKeyAlone(m, "properties", f["properties"], Prefix(f), Obj(xs)) <==> (p == q ==> AcceptsAlone(m, v, x)) by {
      hide Accepts;
    }
  }

  /** A property called `exclusiveMinimum` turns into one called `minimum`.  So for every schema
      `v` and value `x` that `v` refuses, the object `{"minimum": x}` was accepted before, its
      property being unconstrained, and is refused after. */
  lemma PropertyIsRenamed(m: Meaning, v: Json, x: Json)
    requires Tidy(v) && !AcceptsAlone(m, v, x)
    ensures var s := Obj(map["properties" := Obj(map["exclusiveMinimum" := v])]);
      && RefsBelow(map[], map[], 0, s)
      && AcceptsAlone(m, s, Obj(map["minimum" := x]))
      && !AcceptsAlone(m, Cleaned(map[], map[], 0, s), Obj(map["minimum" := x]))
  {
    hide Accepts, Tidy;
    OneProperty(m, "exclusiveMinimum", v, "minimum", x);
    OneProperty(m, "minimum", v, "minimum", x);
    RenamedProperty(v);
  }

  /** For example a property that is at most one, and the value two. */
  lemma RenamedPropertyRefusesTwo(m: Meaning)
    ensures var s := Obj(map["properties" := Obj(map["exclusiveMinimum" := Obj(map["maximum" := Num(1.0)])])]);
      && RefsBelow(map[], map[], 0, s)
      && AcceptsAlone(m, s, Obj(map["minimum" := Num(2.0)]))
      && !AcceptsAlone(m, Cleaned(map[], map[], 0, s), Obj(map["minimum" := Num(2.0)]))
  {
    hide Accepts, RefsBelow, Cleaned;
    BoundMeaning(m, 1.0, 2.0);
    var f := map["maximum" := Num(1.0)];
    assert f.Keys == {"maximum"} && Tidy(Num(1.0));
    PropertyIsRenamed(m, Obj(f), Num(2.0));
  }
}
