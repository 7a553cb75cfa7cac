/** The rewriting of a JSON schema for a model API that refuses references,
    `additionalProperties` and exclusive bounds. */
module SchemaClean {

  /** A JSON value.  An object is a map: the rewriting turns out not to depend
      on the order in which a dictionary is walked (see `Clean`). */
  datatype Json =
    | Null
    | Bool(b: bool)
    | Num(n: real)
    | Str(s: string)
    | Arr(items: seq<Json>)
    | Obj(fields: map<string, Json>)

  type Schemas = map<string, Json>
  type Ranking = map<string, nat>

  const EMPTY: Json := Obj(map[])
  const DROPPED: set<string> := {"additionalProperties", "title", "default"}

  /** Keys that are rewritten in place; the others are dropped or softened. */
  predicate Kept(k: string) {
    k !in DROPPED && k != "exclusiveMinimum" && k != "exclusiveMaximum"
  }

  // ---------------------------------------------------------------- references

  function LastSegment(s: string): (r: string)
    ensures '/' !in r
    ensures r == s || (|r| < |s| && s[|s| - |r|..] == r && s[|s| - |r| - 1] == '/')
  {
    if s == "" then ""
    else if s[|s| - 1] == '/' then ""
    else
      var r := LastSegment(s[..|s| - 1]);
      r + [s[|s| - 1]]
  }

  /** The definition a `$ref` value names; an unknown name means the empty schema. */
  function Target(defs: Schemas, ref: Json): (r: Json)
    ensures r == EMPTY || (ref.Str? && LastSegment(ref.s) in defs && r == defs[LastSegment(ref.s)])
  {
    if ref.Str? && LastSegment(ref.s) in defs then defs[LastSegment(ref.s)] else EMPTY
  }

  /** Every reference that the rewriting can meet in `node` names a definition ranked below `bound`. */
  ghost predicate RefsBelow(defs: Schemas, rank: Ranking, bound: nat, node: Json)
    decreases node
  {
    match node
    case Obj(f) =>
      if "$ref" in f then RefBelow(defs, rank, bound, f["$ref"])
      else forall k | k in f && Kept(k) :: RefsBelow(defs, rank, bound, f[k])
    case Arr(s) => forall i | 0 <= i < |s| :: RefsBelow(defs, rank, bound, s[i])
    case _ => true
  }

  ghost predicate RefBelow(defs: Schemas, rank: Ranking, bound: nat, ref: Json) {
    ref.Str? && LastSegment(ref.s) in defs ==>
      LastSegment(ref.s) in rank && rank[LastSegment(ref.s)] < bound
  }

  /** `rank` witnesses that the definitions do not refer to each other in a circle. */
  ghost predicate Acyclic(defs: Schemas, rank: Ranking) {
    forall d | d in defs :: d in rank && RefsBelow(defs, rank, rank[d], defs[d])
  }

  ghost function TargetRank(defs: Schemas, rank: Ranking, ref: Json): nat {
    if ref.Str? && LastSegment(ref.s) in defs && LastSegment(ref.s) in rank
    then rank[LastSegment(ref.s)] else 0
  }

  // ---------------------------------------------------------------- the rewriting

  /** The keys that an object has after the rewriting. */
  function OutKeys(f: map<string, Json>): set<string> {
    (set k | k in f && Kept(k))
    + (if "exclusiveMinimum" in f then {"minimum"} else {})
    + (if "exclusiveMaximum" in f then {"maximum"} else {})
  }

  /** The exclusive bound that a softened bound comes from. */
  function ExclusiveOf(k: string): string {
    if k == "minimum" then "exclusiveMinimum" else "exclusiveMaximum"
  }

  /** The rewritten values, and the bounds moved from an exclusive key without a plain one. */
  ghost function Assemble(f: map<string, Json>, done: map<string, Json>): map<string, Json>
    requires done.Keys == set k | k in f && Kept(k)
  {
    map k | k in OutKeys(f) :: if k in done then done[k] else f[ExclusiveOf(k)]
  }

  ghost function Cleaned(defs: Schemas, rank: Ranking, bound: nat, node: Json): (r: Json)
    requires Acyclic(defs, rank) && RefsBelow(defs, rank, bound, node)
    decreases bound, node
  {
    match node
    case Obj(f) =>
      if "$ref" in f then
        if Target(defs, f["$ref"]) == EMPTY then EMPTY
        else Cleaned(defs, rank, TargetRank(defs, rank, f["$ref"]), Target(defs, f["$ref"]))
      else
        Obj(Assemble(f, map k | k in f && Kept(k) :: Cleaned(defs, rank, bound, f[k])))
    case Arr(s) => Arr(seq(|s|, i requires 0 <= i < |s| => Cleaned(defs, rank, bound, s[i])))
    case _ => node
  }

  /** The recursive rewriting. */
  method Clean(defs: Schemas, ghost rank: Ranking, ghost bound: nat, node: Json) returns (r: Json)
    requires Acyclic(defs, rank) && RefsBelow(defs, rank, bound, node)
    ensures r == Cleaned(defs, rank, bound, node)
    decreases bound, node, 1
  {
    match node
    case Obj(f) =>
      if "$ref" in f {
        var target := Target(defs, f["$ref"]);
        if target == EMPTY {
          r := EMPTY;
        } else {
          r := Clean(defs, rank, TargetRank(defs, rank, f["$ref"]), target);
        }
      } else {
        r := CleanObject(defs, rank, bound, f);
      }
    case Arr(s) =>
      var out: seq<Json> := [];
      for i := 0 to |s|
        invariant |out| == i
        invariant forall j | 0 <= j < i :: out[j] == Cleaned(defs, rank, bound, s[j])
      {
        var v := Clean(defs, rank, bound, s[i]);
        out := out + [v];
      }
      r := Arr(out);
    case _ => r := node;
  }

  function SetDefault(out: map<string, Json>, k: string, v: Json): map<string, Json> {
    if k in out then out else out[k := v]
  }

  /** What the dictionary being filled holds at `k`, once the keys outside `todo` have been
      walked; `done` gives the rewritten values. */
  ghost predicate Filled(f: map<string, Json>, done: map<string, Json>,
                         todo: set<string>, out: map<string, Json>, k: string)
  {
    if !Kept(k) then k !in out
    else if k in done && k !in todo then k in out && out[k] == done[k]
    else if k in {"minimum", "maximum"} && ExclusiveOf(k) in f && ExclusiveOf(k) !in todo then
      k in out && out[k] == f[ExclusiveOf(k)]
    else k !in out
  }

  /** The dictionary after one key. */
  function After(f: map<string, Json>, out: map<string, Json>, k: string, v: Json): map<string, Json>
    requires k in f
  {
    if k in DROPPED then out
    else if k == "exclusiveMinimum" then SetDefault(out, "minimum", f[k])
    else if k == "exclusiveMaximum" then SetDefault(out, "maximum", f[k])
    else out[k := v]
  }

  lemma AfterFills(f: map<string, Json>, done: map<string, Json>, todo: set<string>,
                   out: map<string, Json>, k: string, v: Json, x: string)
    requires k in f && k in todo
    requires done.Keys == set y | y in f && Kept(y)
    requires k in done ==> done[k] == v
    requires forall y :: Filled(f, done, todo, out, y)
    ensures Filled(f, done, todo - {k}, After(f, out, k, v), x)
  {
    assert Filled(f, done, todo, out, x);
  }

  lemma Unfilled(f: map<string, Json>, done: map<string, Json>, x: string)
    requires done.Keys <= f.Keys
    ensures Filled(f, done, f.Keys, map[], x)
  {
  }

  ghost function Rewritten(defs: Schemas, rank: Ranking, bound: nat, f: map<string, Json>): map<string, Json>
    requires Acyclic(defs, rank) && RefsBelow(defs, rank, bound, Obj(f)) && "$ref" !in f
  {
    map k | k in f && Kept(k) :: Cleaned(defs, rank, bound, f[k])
  }

  lemma FilledIsCleaned(defs: Schemas, rank: Ranking, bound: nat, f: map<string, Json>, out: map<string, Json>)
    requires Acyclic(defs, rank) && RefsBelow(defs, rank, bound, Obj(f)) && "$ref" !in f
    requires forall y :: Filled(f, Rewritten(defs, rank, bound, f), {}, out, y)
    ensures Obj(out) == Cleaned(defs, rank, bound, Obj(f))
  {
    var r := Assemble(f, Rewritten(defs, rank, bound, f));
    forall x ensures x in out <==> x in r {
      assert Filled(f, Rewritten(defs, rank, bound, f), {}, out, x);
    }
    forall x | x in out ensures out[x] == r[x] {
      assert Filled(f, Rewritten(defs, rank, bound, f), {}, out, x);
    }
    assert out == r;
  }

  /** One dictionary.  The loop takes the keys in any order and the result is the same: a
      plain bound wins over an exclusive one whichever of them comes first. */
  method CleanObject(defs: Schemas, ghost rank: Ranking, ghost bound: nat, f: map<string, Json>) returns (r: Json)
    requires Acyclic(defs, rank) && RefsBelow(defs, rank, bound, Obj(f)) && "$ref" !in f
    ensures r == Cleaned(defs, rank, bound, Obj(f))
    decreases bound, Obj(f), 0
  {
    hide Cleaned, Filled;
    var out: map<string, Json> := map[];
    var todo := f.Keys;
    ghost var done := Rewritten(defs, rank, bound, f);
    forall x ensures Filled(f, done, todo, out, x) { Unfilled(f, done, x); }
    while todo != {}
      invariant todo <= f.Keys
      invariant forall x :: Filled(f, done, todo, out, x)
      decreases |todo|
    {
      var k :| k in todo;
      var v := Null;
      ghost var before := out;
      if k in DROPPED {
      } else if k == "exclusiveMinimum" {
        out := SetDefault(out, "minimum", f[k]);
      } else if k == "exclusiveMaximum" {
        out := SetDefault(out, "maximum", f[k]);
      } else {
        v := Clean(defs, rank, bound, f[k]);
        out := out[k := v];
      }
      assert out == After(f, before, k, v);
      forall x ensures Filled(f, done, todo - {k}, out, x) {
        AfterFills(f, done, todo, before, k, v, x);
      }
      todo := todo - {k};
    }
    FilledIsCleaned(defs, rank, bound, f, out);
    r := Obj(out);
  }

  /** `_gemini_schema`: the root's `$defs` are taken out of it before it is rewritten. */
  function DefinitionsOf(raw: map<string, Json>): Schemas {
    if "$defs" in raw && raw["$defs"].Obj? then raw["$defs"].fields else map[]
  }

  method GeminiSchema(raw: map<string, Json>, ghost rank: Ranking, ghost bound: nat) returns (r: Json)
    requires Acyclic(DefinitionsOf(raw), rank)
    requires RefsBelow(DefinitionsOf(raw), rank, bound, Obj(raw - {"$defs"}))
    ensures r == Cleaned(DefinitionsOf(raw), rank, bound, Obj(raw - {"$defs"}))
  {
    r := Clean(DefinitionsOf(raw), rank, bound, Obj(raw - {"$defs"}));
  }

  // ---------------------------------------------------------------- what is left in the result

  /** The result is the definitions' and the node's alone: any two rankings give the same. */
  lemma {:induction false} RankingIsIrrelevant(defs: Schemas, rank: Ranking, bound: nat,
                                              other: Ranking, limit: nat, node: Json)
    requires Acyclic(defs, rank) && RefsBelow(defs, rank, bound, node)
    requires Acyclic(defs, other) && RefsBelow(defs, other, limit, node)
    ensures Cleaned(defs, rank, bound, node) == Cleaned(defs, other, limit, node)
    decreases bound, node
  {
    match node
    case Obj(f) =>
      if "$ref" in f {
        if Target(defs, f["$ref"]) != EMPTY {
          RankingIsIrrelevant(defs, rank, TargetRank(defs, rank, f["$ref"]),
                              other, TargetRank(defs, other, f["$ref"]), Target(defs, f["$ref"]));
        }
      } else {
        var a := map k | k in f && Kept(k) :: Cleaned(defs, rank, bound, f[k]);
        var b := map k | k in f && Kept(k) :: Cleaned(defs, other, limit, f[k]);
        forall k | k in f && Kept(k) ensures a[k] == b[k] {
          RankingIsIrrelevant(defs, rank, bound, other, limit, f[k]);
        }
        assert a == b;
      }
    case Arr(s) =>
      forall i | 0 <= i < |s|
        ensures Cleaned(defs, rank, bound, s[i]) == Cleaned(defs, other, limit, s[i])
      {
        RankingIsIrrelevant(defs, rank, bound, other, limit, s[i]);
      }
    case _ =>
  }


  /** Nothing the API refuses is left anywhere. */
  ghost predicate Tidy(node: Json) {
    match node
    case Obj(f) => forall k | k in f :: k != "$ref" && Kept(k) && Tidy(f[k])
    case Arr(s) => forall i | 0 <= i < |s| :: Tidy(s[i])
    case _ => true
  }

  /** An exclusive bound that becomes a plain one is moved as it stands. */
  ghost predicate MovedIsTidy(f: map<string, Json>, k: string) {
    ExclusiveOf(k) in f && k !in f ==> Tidy(f[ExclusiveOf(k)])
  }

  ghost predicate MovedAreTidy(defs: Schemas, rank: Ranking, bound: nat, node: Json)
    requires Acyclic(defs, rank) && RefsBelow(defs, rank, bound, node)
    decreases bound, node
  {
    match node
    case Obj(f) =>
      if "$ref" in f then
        Target(defs, f["$ref"]) == EMPTY
        || MovedAreTidy(defs, rank, TargetRank(defs, rank, f["$ref"]), Target(defs, f["$ref"]))
      else
        MovedIsTidy(f, "minimum") && MovedIsTidy(f, "maximum")
        && forall k | k in f && Kept(k) :: MovedAreTidy(defs, rank, bound, f[k])
    case Arr(s) => forall i | 0 <= i < |s| :: MovedAreTidy(defs, rank, bound, s[i])
    case _ => true
  }

  /** The result is free of references, `additionalProperties`, titles, defaults and exclusive
      bounds exactly when every exclusive bound moved as it stands is itself free of them. */
  lemma {:induction false} CleanedIsTidy(defs: Schemas, rank: Ranking, bound: nat, node: Json)
    requires Acyclic(defs, rank) && RefsBelow(defs, rank, bound, node)
    ensures Tidy(Cleaned(defs, rank, bound, node)) <==> MovedAreTidy(defs, rank, bound, node)
    decreases bound, node
  {
    match node
    case Obj(f) =>
      if "$ref" in f {
        if Target(defs, f["$ref"]) != EMPTY {
          CleanedIsTidy(defs, rank, TargetRank(defs, rank, f["$ref"]), Target(defs, f["$ref"]));
        }
      } else {
        forall k | k in f && Kept(k)
          ensures Tidy(Cleaned(defs, rank, bound, f[k])) <==> MovedAreTidy(defs, rank, bound, f[k])
        {
          CleanedIsTidy(defs, rank, bound, f[k]);
        }
        ObjectIsTidy(defs, rank, bound, f);
      }
    case Arr(s) =>
      forall i | 0 <= i < |s|
        ensures Tidy(Cleaned(defs, rank, bound, s[i])) <==> MovedAreTidy(defs, rank, bound, s[i])
      {
        CleanedIsTidy(defs, rank, bound, s[i]);
      }
      var r := Cleaned(defs, rank, bound, node).items;
      assert forall i | 0 <= i < |s| :: r[i] == Cleaned(defs, rank, bound, s[i]);
    case _ =>
  }

  /** No property has a name that the rewriting takes for a keyword it moves or follows. */
  ghost predicate PlainNames(ps: map<string, Json>) {
    "$ref" !in ps && "exclusiveMinimum" !in ps && "exclusiveMaximum" !in ps
  }

  /** What the rewritten dictionary holds. */
  lemma CleanedObject(defs: Schemas, rank: Ranking, bound: nat, f: map<string, Json>) returns (r: map<string, Json>)
    requires Acyclic(defs, rank) && RefsBelow(defs, rank, bound, Obj(f)) && "$ref" !in f
    ensures Cleaned(defs, rank, bound, Obj(f)) == Obj(r)
    ensures "$ref" !in r && forall k | k in r :: Kept(k)
    ensures forall k | k in r && k in f :: r[k] == Cleaned(defs, rank, bound, f[k])
    ensures forall k | k in r && k !in f ::
      (k == "minimum" || k == "maximum") && ExclusiveOf(k) in f && r[k] == f[ExclusiveOf(k)]
    ensures forall k | k in f && Kept(k) :: k in r
    ensures forall k | k == "minimum" || k == "maximum" :: ExclusiveOf(k) in f ==> k in r
    ensures PlainNames(f) ==> r.Keys <= f.Keys
  {
    var done := Rewritten(defs, rank, bound, f);
    r := Assemble(f, done);
    AssembleHolds(f, done);
  }

  lemma AssembleHolds(f: map<string, Json>, done: map<string, Json>)
    requires "$ref" !in f && done.Keys == set k | k in f && Kept(k)
    ensures var r := Assemble(f, done);
      && "$ref" !in r
      && (forall k | k in r :: Kept(k))
      && (forall k | k in f && Kept(k) :: k in r)
      && (forall k | k == "minimum" || k == "maximum" :: ExclusiveOf(k) in f ==> k in r)
      && (forall k | k in r && k in f :: r[k] == done[k])
      && (forall k | k in r && k !in f ::
            (k == "minimum" || k == "maximum") && ExclusiveOf(k) in f && r[k] == f[ExclusiveOf(k)])
      && (PlainNames(f) ==> r.Keys <= f.Keys)
  {
  }

  lemma ObjectIsTidy(defs: Schemas, rank: Ranking, bound: nat, f: map<string, Json>)
    requires Acyclic(defs, rank) && RefsBelow(defs, rank, bound, Obj(f)) && "$ref" !in f
    requires forall k | k in f && Kept(k) ::
      Tidy(Cleaned(defs, rank, bound, f[k])) <==> MovedAreTidy(defs, rank, bound, f[k])
    ensures Tidy(Cleaned(defs, rank, bound, Obj(f))) <==> MovedAreTidy(defs, rank, bound, Obj(f))
  {
    hide Cleaned, RefsBelow, Acyclic, MovedIsTidy, Tidy, MovedAreTidy;
    var r := CleanedObject(defs, rank, bound, f);
    MovedBounds(f, r);
    KeptAreTidy(defs, rank, bound, f, r);
    TidyParts(f, r);
    MovedParts(defs, rank, bound, f);
  }

  lemma TidyParts(f: map<string, Json>, r: map<string, Json>)
    requires "$ref" !in r && forall k | k in r :: Kept(k)
    ensures Tidy(Obj(r)) <==> (forall k | k in r && k in f :: Tidy(r[k])) && (forall k | k in r && k !in f :: Tidy(r[k]))
  {
    hide Kept;
  }

  lemma MovedParts(defs: Schemas, rank: Ranking, bound: nat, f: map<string, Json>)
    requires Acyclic(defs, rank) && RefsBelow(defs, rank, bound, Obj(f)) && "$ref" !in f
    ensures MovedAreTidy(defs, rank, bound, Obj(f)) <==>
      MovedIsTidy(f, "minimum") && MovedIsTidy(f, "maximum") && forall k | k in f && Kept(k) :: MovedAreTidy(defs, rank, bound, f[k])
  {
    hide Kept, Acyclic, MovedIsTidy;
  }

  lemma KeptAreTidy(defs: Schemas, rank: Ranking, bound: nat, f: map<string, Json>, r: map<string, Json>)
    requires Acyclic(defs, rank) && RefsBelow(defs, rank, bound, Obj(f)) && "$ref" !in f
    requires (forall k | k in f && Kept(k) :: k in r) && (forall k | k in r :: Kept(k))
    requires forall k | k in r && k in f :: r[k] == Cleaned(defs, rank, bound, f[k])
    requires forall k | k in f && Kept(k) ::
      Tidy(Cleaned(defs, rank, bound, f[k])) <==> MovedAreTidy(defs, rank, bound, f[k])
    ensures (forall k | k in r && k in f :: Tidy(r[k])) <==> (forall k | k in f && Kept(k) :: MovedAreTidy(defs, rank, bound, f[k]))
  {
    hide Cleaned, Acyclic, MovedAreTidy, Tidy, Kept;
  }

  lemma MovedBounds(f: map<string, Json>, r: map<string, Json>)
    requires forall k | k in r && k !in f :: (k == "minimum" || k == "maximum") && ExclusiveOf(k) in f && r[k] == f[ExclusiveOf(k)]
    requires forall k | k == "minimum" || k == "maximum" :: ExclusiveOf(k) in f ==> k in r
    ensures (forall k | k in r && k !in f :: Tidy(r[k])) <==> MovedIsTidy(f, "minimum") && MovedIsTidy(f, "maximum")
  {
    hide Tidy;
  }

  /** What is already tidy is left as it is; so rewriting a tidy result again changes nothing. */
  lemma {:induction false} TidyIsFixed(defs: Schemas, rank: Ranking, bound: nat, node: Json)
    requires Tidy(node) && Acyclic(defs, rank)
    ensures RefsBelow(defs, rank, bound, node) && Cleaned(defs, rank, bound, node) == node
    decreases node
  {
    match node
    case Obj(f) =>
      forall k | k in f ensures RefsBelow(defs, rank, bound, f[k]) && Cleaned(defs, rank, bound, f[k]) == f[k] {
        TidyIsFixed(defs, rank, bound, f[k]);
      }
      assert OutKeys(f) == f.Keys;
      assert Cleaned(defs, rank, bound, node).fields == f;
    case Arr(s) =>
      forall i | 0 <= i < |s| ensures RefsBelow(defs, rank, bound, s[i]) && Cleaned(defs, rank, bound, s[i]) == s[i] {
        TidyIsFixed(defs, rank, bound, s[i]);
      }
      assert Cleaned(defs, rank, bound, node).items == s;
    case _ =>
  }

  lemma OneKeyOut(k: string, v: Json, w: Json)
    requires Kept(k)
    ensures map[k := w].Keys == set j | j in map[k := v] && Kept(j)
    ensures Assemble(map[k := v], map[k := w]) == map[k := w]
  {
    var f := map[k := v];
    assert f.Keys == {k} && OutKeys(f) == {k};
  }

  /** A dictionary with one kept key. */
  lemma OneKey(defs: Schemas, rank: Ranking, bound: nat, k: string, v: Json)
    requires Acyclic(defs, rank) && RefsBelow(defs, rank, bound, v) && Kept(k) && k != "$ref"
    ensures RefsBelow(defs, rank, bound, Obj(map[k := v]))
    ensures Cleaned(defs, rank, bound, Obj(map[k := v])) == Obj(map[k := Cleaned(defs, rank, bound, v)])
  {
    var f, w := map[k := v], Cleaned(defs, rank, bound, v);
    assert f.Keys == {k};
    OneKeyOut(k, v, w);
    hide Assemble, OutKeys, Acyclic, Kept;
    assert RefsBelow(defs, rank, bound, Obj(f));
    assert (map j | j in f && Kept(j) :: Cleaned(defs, rank, bound, f[j])) == map[k := w];
  }

  lemma RenamedProperty(v: Json)
    ensures var s := Obj(map["properties" := Obj(map["exclusiveMinimum" := v])]);
      && RefsBelow(map[], map[], 0, s)
      && Cleaned(map[], map[], 0, s) == Obj(map["properties" := Obj(map["minimum" := v])])
  {
    hide Cleaned, RefsBelow;
    SoftenedProperty(v);
    OneKey(map[], map[], 0, "properties", Obj(map["exclusiveMinimum" := v]));
  }

  lemma SoftenedProperty(v: Json)
    ensures RefsBelow(map[], map[], 0, Obj(map["exclusiveMinimum" := v]))
    ensures Cleaned(map[], map[], 0, Obj(map["exclusiveMinimum" := v])) == Obj(map["minimum" := v])
  {
    var g := map["exclusiveMinimum" := v];
    assert OutKeys(g) == {"minimum"};
    assert Cleaned(map[], map[], 0, Obj(g)).fields == map["minimum" := v];
  }

  /** A property called `exclusiveMinimum` is taken for a bound, and the reference inside it survives. */
  lemma ReferenceSurvives(ref: Json)
    ensures var s := Obj(map["properties" := Obj(map["exclusiveMinimum" := Obj(map["$ref" := ref])])]);
      && RefsBelow(map[], map[], 0, s)
      && Cleaned(map[], map[], 0, s) == Obj(map["properties" := Obj(map["minimum" := Obj(map["$ref" := ref])])])
      && !Tidy(Cleaned(map[], map[], 0, s))
  {
    hide Cleaned, RefsBelow, Kept;
    RenamedProperty(Obj(map["$ref" := ref]));
    var g := map["$ref" := ref];
    assert "$ref" in g && !Tidy(Obj(g));
    var h := map["minimum" := Obj(g)];
    assert "minimum" in h && !Tidy(Obj(h));
    var f := map["properties" := Obj(h)];
    assert "properties" in f && !Tidy(Obj(f));
  }

  // ---------------------------------------------------------------- references and bounds in the result

  lemma {:induction false} LastName(prefix: string, name: string)
    requires '/' !in name
    ensures LastSegment(name) == name && LastSegment(prefix + "/" + name) == name
  {
    var s := prefix + "/" + name;
    if name != "" {
      var front := name[..|name| - 1];
      LastName(prefix, front);
      assert s[..|s| - 1] == prefix + "/" + front;
    }
  }

  /** A reference to a definition of the root is rewritten to what the definition itself is rewritten
      to; to the empty schema only when there is no definition of that name. */
  lemma ReferenceIsInlined(raw: map<string, Json>, defs: Schemas, rank: Ranking, bound: nat,
                           f: map<string, Json>, prefix: string, name: string)
    requires "$defs" in raw && raw["$defs"] == Obj(defs) && '/' !in name
    requires "$ref" in f && (f["$ref"] == Str(prefix + "/" + name) || f["$ref"] == Str(name))
    requires Acyclic(DefinitionsOf(raw), rank) && RefsBelow(DefinitionsOf(raw), rank, bound, Obj(f))
    ensures DefinitionsOf(raw) == defs
    ensures name in defs ==>
      && name in rank && RefsBelow(defs, rank, rank[name], defs[name])
      && Cleaned(defs, rank, bound, Obj(f)) == Cleaned(defs, rank, rank[name], defs[name])
    ensures name !in defs ==> Cleaned(defs, rank, bound, Obj(f)) == Obj(map[])
  {
    LastName(prefix, name);
    if name in defs && defs[name] == EMPTY { NothingToClean(defs, rank, rank[name]); }
  }

  lemma NothingToClean(defs: Schemas, rank: Ranking, bound: nat)
    requires Acyclic(defs, rank)
    ensures RefsBelow(defs, rank, bound, EMPTY) && Cleaned(defs, rank, bound, EMPTY) == EMPTY
  {
    TidyIsFixed(defs, rank, bound, EMPTY);
  }

  lemma NoDefinitions(raw: map<string, Json>)
    requires "$defs" !in raw
    ensures DefinitionsOf(raw) == map[]
  {
  }

  /** The keys that no rewritten dictionary has. */
  predicate Gone(k: string) {
    k == "additionalProperties" || k == "title" || k == "default" || k == "exclusiveMinimum" || k == "exclusiveMaximum"
  }

  /** One dictionary, key by key: what goes, what becomes of the bounds, and that all else is
      rewritten where it stands. */
  lemma ObjectExactly(defs: Schemas, rank: Ranking, bound: nat, f: map<string, Json>) returns (r: map<string, Json>)
    requires Acyclic(defs, rank) && RefsBelow(defs, rank, bound, Obj(f)) && "$ref" !in f
    ensures Cleaned(defs, rank, bound, Obj(f)) == Obj(r)
    ensures forall k | k in r :: !Gone(k) && (k in f || k == "minimum" || k == "maximum")
    ensures "minimum" in r <==> "minimum" in f || "exclusiveMinimum" in f
    ensures "maximum" in r <==> "maximum" in f || "exclusiveMaximum" in f
    ensures "minimum" !in f && "exclusiveMinimum" in f ==> r["minimum"] == f["exclusiveMinimum"]
    ensures "maximum" !in f && "exclusiveMaximum" in f ==> r["maximum"] == f["exclusiveMaximum"]
    ensures forall k | k in f && !Gone(k) :: k in r && RefsBelow(defs, rank, bound, f[k]) && r[k] == Cleaned(defs, rank, bound, f[k])
  {
    r := CleanedObject(defs, rank, bound, f);
    hide Cleaned, RefsBelow, Acyclic, Gone, Kept;
    forall k ensures Kept(k) <==> !Gone(k) { DroppedKeys(k); }
    BoundsAreKept();
    KeptRefs(defs, rank, bound, f);
  }

  lemma BoundsAreKept()
    ensures ExclusiveOf("minimum") == "exclusiveMinimum" && ExclusiveOf("maximum") == "exclusiveMaximum"
    ensures !Gone("minimum") && !Gone("maximum")
  {
  }

  lemma KeptRefs(defs: Schemas, rank: Ranking, bound: nat, f: map<string, Json>)
    requires RefsBelow(defs, rank, bound, Obj(f)) && "$ref" !in f
    ensures forall k | k in f && Kept(k) :: RefsBelow(defs, rank, bound, f[k])
  {
  }

  lemma DroppedKeys(k: string)
    ensures Kept(k) <==> !Gone(k)
  {
  }
}
