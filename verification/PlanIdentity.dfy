/**
 What the identity of a launch plan tells (src/preflight/compile.ts, lines
 257-260): the plan as JSON, in whatever order its keys are read back, verifies
 exactly while it means what was sealed. SHA-256 is any function; that it has no
 collision on the very values compared is a hypothesis of the lemmas that need it.
 */
module PlanIdentity {
  import opened Canonical
  import opened Compile
  import opened Outcomes
  import B = Budget

  /** The digest has no collision on these two values. */
  predicate TellsApart(sha: Sha, a: Json, b: Json) {
    CanonicalSha(sha, a) == CanonicalSha(sha, b) ==> Normalize(a) == Normalize(b)
  }

  /** Where the form is in the list, or its length. */
  function PlaceOf(forms: seq<Option<Json>>, form: Option<Json>): (n: nat)
    ensures n <= |forms| && (n < |forms| ==> forms[n] == form) && (form in forms ==> n < |forms|)
  {
    if forms == [] || forms[0] == form then 0 else 1 + PlaceOf(forms[1..], form)
  }

  /** There is a digest without a collision on any of finitely many values. */
  lemma SomeDigestTells(values: seq<Json>) returns (sha: Sha)
    ensures forall i, k :: 0 <= i < |values| && 0 <= k < |values| ==> TellsApart(sha, values[i], values[k])
  {
    var forms := seq(|values|, i requires 0 <= i < |values| => Normalize(values[i]));
    sha := form => PlaceOf(forms, form);
    assert forall i :: 0 <= i < |values| ==> forms[i] == Normalize(values[i]) && forms[i] in forms;
  }

  /** A value that has a canonical form. */
  predicate Data(j: Json) { Proper(j) && Normalize(j).Some? }

  // ----- objects and lists of data are data -----

  lemma ListIsData(j: Json)
    requires j.List? && forall i :: 0 <= i < |j.items| ==> Data(j.items[i])
    ensures Data(j)
  {
    ItemsSucceed(j, |j.items|);
  }

  lemma ObjectIsProper(j: Json)
    requires j.Object? && KeysDistinct(j.fields) && forall i :: 0 <= i < |j.fields| ==> Proper(j.fields[i].value)
    ensures Proper(j)
  {}

  lemma ObjectNormalizes(j: Json)
    requires j.Object? && forall i :: 0 <= i < |j.fields| ==> Normalize(j.fields[i].value).Some?
    ensures Normalize(j).Some?
  {
    var sorted := Sorting.Sort(j.fields, ByKey());
    Sorting.SameElements(sorted, j.fields);
    FieldsSucceed(j, sorted, |sorted|);
  }

  lemma ObjectIsData(j: Json)
    requires j.Object? && KeysDistinct(j.fields) && forall i :: 0 <= i < |j.fields| ==> Data(j.fields[i].value)
    ensures Data(j)
  {
    forall i | 0 <= i < |j.fields| ensures Proper(j.fields[i].value) && Normalize(j.fields[i].value).Some? {
      assert Data(j.fields[i].value);
    }
    ObjectIsProper(j);
    ObjectNormalizes(j);
  }

  lemma NumbersAreData(n: int)
    ensures Data(Whole(n))
  {}

  lemma TextIsData(s: string)
    ensures Data(Text(s))
  {}

  // ----- what an object's meaning has -----

  lemma Has(j: Json, f: Field)
    requires j.Object? && KeysDistinct(j.fields) && f in j.fields
    ensures Meaning(j).ObjectV? && f.key in Meaning(j).fields && Meaning(j).fields[f.key] == Meaning(f.value)
  {
    var i :| 0 <= i < |j.fields| && j.fields[i] == f;
    FieldAt(j, |j.fields|, i);
  }

  lemma HasNot(j: Json, key: string)
    requires j.Object? && forall f :: f in j.fields ==> f.key != key
    ensures Meaning(j).ObjectV? && key !in Meaning(j).fields
  {
    if key in Meaning(j).fields { FieldKeys(j, |j.fields|, key); }
  }

  /** Two objects with one meaning give the same to a key both have. */
  lemma SameField(a: Json, b: Json, f: Field, g: Field)
    requires a.Object? && b.Object? && KeysDistinct(a.fields) && KeysDistinct(b.fields) && Meaning(a) == Meaning(b)
    requires f in a.fields && g in b.fields && f.key == g.key
    ensures Meaning(f.value) == Meaning(g.value)
  {
    Has(a, f);
    Has(b, g);
  }

  lemma SameItems(a: Json, b: Json)
    requires a.List? && b.List? && Meaning(a) == Meaning(b)
    ensures |a.items| == |b.items| && forall i :: 0 <= i < |a.items| ==> Meaning(a.items[i]) == Meaning(b.items[i])
  {
    forall i | 0 <= i < |a.items| ensures Meaning(a.items[i]) == Meaning(b.items[i]) {
      ItemAt(a, |a.items|, i);
      ItemAt(b, |b.items|, i);
    }
  }

  // ----- texts, modes, resources -----

  lemma TextsAreData(xs: seq<string>)
    ensures Data(Texts(xs))
  {
    ListIsData(Texts(xs));
  }

  lemma TextsTell(xs: seq<string>, ys: seq<string>)
    requires Meaning(Texts(xs)) == Meaning(Texts(ys))
    ensures xs == ys
  {
    SameItems(Texts(xs), Texts(ys));
    forall i | 0 <= i < |xs| ensures xs[i] == ys[i] {
      assert Meaning(Texts(xs).items[i]) == TextV(xs[i]) && Meaning(Texts(ys).items[i]) == TextV(ys[i]);
    }
  }

  lemma ModeTextsAreData(modes: seq<Mode>)
    ensures Data(ModeTexts(modes))
  {
    ListIsData(ModeTexts(modes));
  }

  lemma ModeTextTells(a: Mode, b: Mode)
    requires ModeText(a) == ModeText(b)
    ensures a == b
  {
    assert |ModeText(ReadOnly)| == 9 && |ModeText(Worktree)| == 8;
  }

  lemma ModeTextsTell(xs: seq<Mode>, ys: seq<Mode>)
    requires Meaning(ModeTexts(xs)) == Meaning(ModeTexts(ys))
    ensures xs == ys
  {
    var a := seq(|xs|, i requires 0 <= i < |xs| => ModeText(xs[i]));
    var b := seq(|ys|, i requires 0 <= i < |ys| => ModeText(ys[i]));
    TextsTell(a, b);
    forall i | 0 <= i < |xs| ensures xs[i] == ys[i] {
      assert a[i] == ModeText(xs[i]) && b[i] == ModeText(ys[i]);
      ModeTextTells(xs[i], ys[i]);
    }
  }

  lemma KindTextTells(a: Kind, b: Kind)
    requires KindText(a) == KindText(b)
    ensures a == b
  {
    assert |KindText(AgentKind)| == 5 && |KindText(ToolKind)| == 4 && |KindText(SkillKind)| == 5 && |KindText(ContextKind)| == 7;
    assert KindText(AgentKind)[0] == 'a' && KindText(SkillKind)[0] == 's';
  }

  lemma ResourceKeys(r: Resource)
    ensures KeysDistinct(ResourceJson(r).fields)
  {
    var f := ResourceJson(r).fields;
    assert f[0].key == "kind" && f[1].key == "name" && f[2].key == "source" && f[3].key == "sha256";
    assert "kind"[0] == 'k' && "name"[0] == 'n' && "source"[1] == 'o' && "sha256"[1] == 'h';
  }

  lemma ResourceIsData(r: Resource)
    ensures Data(ResourceJson(r))
  {
    ResourceKeys(r);
    ObjectIsData(ResourceJson(r));
  }

  lemma ResourceTells(r: Resource, t: Resource)
    requires Meaning(ResourceJson(r)) == Meaning(ResourceJson(t))
    ensures r == t
  {
    ResourceKeys(r);
    ResourceKeys(t);
    var a, b := ResourceJson(r), ResourceJson(t);
    SameField(a, b, a.fields[0], b.fields[0]);
    SameField(a, b, a.fields[1], b.fields[1]);
    SameField(a, b, a.fields[2], b.fields[2]);
    SameField(a, b, a.fields[3], b.fields[3]);
    KindTextTells(r.kind, t.kind);
  }

  lemma ResourcesAreData(rs: seq<Resource>)
    ensures Data(ResourcesJson(rs))
  {
    forall i | 0 <= i < |rs| ensures Data(ResourcesJson(rs).items[i]) { ResourceIsData(rs[i]); }
    ListIsData(ResourcesJson(rs));
  }

  /** A list of resources is known by its meaning. */
  lemma ResourcesTell(rs: seq<Resource>, ts: seq<Resource>)
    requires Meaning(ResourcesJson(rs)) == Meaning(ResourcesJson(ts))
    ensures rs == ts
  {
    SameItems(ResourcesJson(rs), ResourcesJson(ts));
    forall i | 0 <= i < |rs| ensures rs[i] == ts[i] {
      assert ResourcesJson(rs).items[i] == ResourceJson(rs[i]) && ResourcesJson(ts).items[i] == ResourceJson(ts[i]);
      ResourceTells(rs[i], ts[i]);
    }
  }

  // ----- limits and ceilings -----

  /** The fields of the limits' JSON, one by one. */
  predicate ListsLimits(f: seq<Field>, l: B.Limits)
    requires |f| == (if l.tokens.Some? then 3 else 2) + 5
  {
    var k := if l.tokens.Some? then 3 else 2;
    && f[0] == Field("cumulativeRuntimeMs", Whole(l.runtimeMs)) && f[1] == Field("attemptTimeoutMs", Whole(l.attemptTimeoutMs))
    && (l.tokens.Some? ==> f[2] == Field("totalTokens", Whole(l.tokens.value)))
    && f[k] == Field("cost", Num(Finite(l.cost))) && f[k + 1] == Field("outputBytes", Whole(l.outputBytes))
    && f[k + 2] == Field("workspaceWriteBytes", Whole(l.workspaceWriteBytes))
    && f[k + 3] == Field("retries", Whole(l.retries)) && f[k + 4] == Field("resumes", Whole(l.resumes))
  }

  lemma LimitsAt(l: B.Limits)
    ensures |LimitsJson(l).fields| == (if l.tokens.Some? then 3 else 2) + 5 && ListsLimits(LimitsJson(l).fields, l)
  {}

  lemma LimitsNames()
    ensures |"cumulativeRuntimeMs"| == 19 && |"attemptTimeoutMs"| == 16 && |"totalTokens"| == 11 && |"cost"| == 4
    ensures |"outputBytes"| == 11 && |"workspaceWriteBytes"| == 19 && |"retries"| == |"resumes"| == 7
    ensures "cumulativeRuntimeMs"[0] == 'c' && "workspaceWriteBytes"[0] == 'w' && "totalTokens"[0] == 't' && "outputBytes"[0] == 'o'
    ensures "retries"[2] == 't' && "resumes"[2] == 's'
  {}

  lemma KeysOfLimits(f: seq<Field>, l: B.Limits)
    requires |f| == (if l.tokens.Some? then 3 else 2) + 5 && ListsLimits(f, l)
    ensures KeysDistinct(f)
    ensures l.tokens.None? ==> forall x :: x in f ==> x.key != "totalTokens"
  {
    LimitsNames();
  }

  lemma LimitsAreData(l: B.Limits)
    ensures Data(LimitsJson(l))
  {
    LimitsAt(l);
    var f := LimitsJson(l).fields;
    KeysOfLimits(f, l);
    forall i | 0 <= i < |f| ensures Data(f[i].value) {
      assert f[i].value.Num? && f[i].value.n.Finite?;
    }
    ObjectIsData(LimitsJson(l));
  }

  /** The field under a key that both have is the same number. */
  lemma SameNumber(a: Json, b: Json, key: string, m: int, n: int)
    requires a.Object? && b.Object? && KeysDistinct(a.fields) && KeysDistinct(b.fields) && Meaning(a) == Meaning(b)
    requires Field(key, Whole(m)) in a.fields && Field(key, Whole(n)) in b.fields
    ensures m == n
  {
    SameField(a, b, Field(key, Whole(m)), Field(key, Whole(n)));
  }

  lemma TokensTell(a: Json, b: Json, l: B.Limits, m: B.Limits)
    requires a.Object? && b.Object? && Meaning(a) == Meaning(b)
    requires |a.fields| == (if l.tokens.Some? then 3 else 2) + 5 && |b.fields| == (if m.tokens.Some? then 3 else 2) + 5
    requires ListsLimits(a.fields, l) && ListsLimits(b.fields, m)
    ensures l.tokens == m.tokens
  {
    KeysOfLimits(a.fields, l);
    KeysOfLimits(b.fields, m);
    if l.tokens.Some? { Has(a, a.fields[2]); } else { HasNot(a, "totalTokens"); }
    if m.tokens.Some? { Has(b, b.fields[2]); } else { HasNot(b, "totalTokens"); }
    if l.tokens.Some? { SameNumber(a, b, "totalTokens", l.tokens.value, m.tokens.value); }
  }

  /** Two objects with one meaning that list the same key at the same place. */
  lemma SameAt(a: Json, b: Json, i: nat)
    requires a.Object? && b.Object? && KeysDistinct(a.fields) && KeysDistinct(b.fields) && Meaning(a) == Meaning(b)
    requires i < |a.fields| && i < |b.fields| && a.fields[i].key == b.fields[i].key
    ensures Meaning(a.fields[i].value) == Meaning(b.fields[i].value)
  {
    SameField(a, b, a.fields[i], b.fields[i]);
  }

  lemma LimitsTell(l: B.Limits, m: B.Limits)
    requires Meaning(LimitsJson(l)) == Meaning(LimitsJson(m))
    ensures l == m
  {
    LimitsAt(l);
    LimitsAt(m);
    var a, b := LimitsJson(l), LimitsJson(m);
    KeysOfLimits(a.fields, l);
    KeysOfLimits(b.fields, m);
    TokensTell(a, b, l, m);
    FieldsTell(a, b, l, m);
  }

  /** The limits from the meanings of the fields, in their places. */
  lemma FieldsTell(a: Json, b: Json, l: B.Limits, m: B.Limits)
    requires a.Object? && b.Object? && KeysDistinct(a.fields) && KeysDistinct(b.fields) && Meaning(a) == Meaning(b)
    requires l.tokens == m.tokens && |a.fields| == |b.fields| == (if l.tokens.Some? then 3 else 2) + 5
    requires ListsLimits(a.fields, l) && ListsLimits(b.fields, m)
    ensures l == m
  {
    var k := if l.tokens.Some? then 3 else 2;
    SameNumber(a, b, "cumulativeRuntimeMs", l.runtimeMs, m.runtimeMs);
    SameNumber(a, b, "attemptTimeoutMs", l.attemptTimeoutMs, m.attemptTimeoutMs);
    SameAt(a, b, k);
    SameNumber(a, b, "outputBytes", l.outputBytes, m.outputBytes);
    SameNumber(a, b, "workspaceWriteBytes", l.workspaceWriteBytes, m.workspaceWriteBytes);
    SameNumber(a, b, "retries", l.retries, m.retries);
    SameNumber(a, b, "resumes", l.resumes, m.resumes);
  }

  lemma CeilingKeys(c: Ceiling)
    ensures KeysDistinct(CeilingJson(c).fields)
    ensures forall f :: f in CeilingJson(c).fields ==> f.key == "workspaceModes" || f.key == "tools"
    ensures |"workspaceModes"| == 14 && |"tools"| == 5
  {}

  lemma CeilingIsData(c: Ceiling)
    ensures Data(CeilingJson(c))
  {
    CeilingKeys(c);
    if c.modes.Some? { ModeTextsAreData(c.modes.value); }
    if c.tools.Some? { TextsAreData(c.tools.value); }
    ObjectIsData(CeilingJson(c));
  }

  lemma CeilingHas(c: Ceiling)
    ensures Meaning(CeilingJson(c)).ObjectV?
    ensures var m := Meaning(CeilingJson(c)).fields;
            && ("workspaceModes" in m <==> c.modes.Some?) && ("tools" in m <==> c.tools.Some?)
            && (c.modes.Some? ==> m["workspaceModes"] == Meaning(ModeTexts(c.modes.value)))
            && (c.tools.Some? ==> m["tools"] == Meaning(Texts(c.tools.value)))
  {
    CeilingKeys(c);
    var j := CeilingJson(c);
    if c.modes.Some? {
      assert j.fields[0] == Field("workspaceModes", ModeTexts(c.modes.value));
      Has(j, j.fields[0]);
    } else { HasNot(j, "workspaceModes"); }
    if c.tools.Some? {
      assert j.fields[|j.fields| - 1] == Field("tools", Texts(c.tools.value));
      Has(j, j.fields[|j.fields| - 1]);
    } else { HasNot(j, "tools"); }
  }

  lemma CeilingTells(c: Ceiling, d: Ceiling)
    requires Meaning(CeilingJson(c)) == Meaning(CeilingJson(d))
    ensures c == d
  {
    CeilingHas(c);
    CeilingHas(d);
    if c.modes.Some? { ModeTextsTell(c.modes.value, d.modes.value); }
    if c.tools.Some? { TextsTell(c.tools.value, d.tools.value); }
  }

  // ----- drafts -----

  /** The fields of the draft's JSON, one by one. */
  predicate ListsDraft(f: seq<Field>, d: Draft)
    requires |f| == (if d.ceiling.Some? then 8 else 7) + 2
  {
    var k := if d.ceiling.Some? then 8 else 7;
    && f[0] == Field("rest", d.rest) && f[1] == Field("attemptId", Whole(d.attempt))
    && f[2] == Field("workspace", Text(ModeText(d.mode))) && f[3] == Field("tools", Texts(d.tools))
    && f[4] == Field("preloadSkills", Texts(d.preloadSkills)) && f[5] == Field("contextScopes", Texts(d.contextScopes))
    && f[6] == Field("resources", ResourcesJson(d.resources))
    && (d.ceiling.Some? ==> f[7] == Field("ceiling", CeilingJson(d.ceiling.value)))
    && f[k] == Field("sandbox", Whole(d.memoryBytes)) && f[k + 1] == Field("limits", LimitsJson(d.limits))
  }

  lemma DraftAt(d: Draft)
    ensures |DraftJson(d).fields| == (if d.ceiling.Some? then 8 else 7) + 2 && ListsDraft(DraftJson(d).fields, d)
  {}

  lemma DraftNames()
    ensures "attemptId"[0] == 'a' && "workspace"[0] == 'w' && "resources"[0] == 'r' && "preloadSkills"[0] == 'p'
    ensures "contextScopes"[0] == 'c' && "ceiling"[0] == 'c' && "sandbox"[0] == 's' && |"rest"| == 4 && |"tools"| == 5
    ensures |"ceiling"| == |"sandbox"| == 7 && |"limits"| == 6 && |"attemptId"| == |"workspace"| == |"resources"| == 9
    ensures |"contextScopes"| == |"preloadSkills"| == 13
  {}

  lemma KeysOfDraft(f: seq<Field>, d: Draft)
    requires |f| == (if d.ceiling.Some? then 8 else 7) + 2 && ListsDraft(f, d)
    ensures KeysDistinct(f)
    ensures d.ceiling.None? ==> forall x :: x in f ==> x.key != "ceiling"
  {
    DraftNames();
  }

  /** Whatever of the draft can be sealed at all: everything but the part taken over is data anyway. */
  lemma DraftIsData(d: Draft)
    requires Data(d.rest)
    ensures Data(DraftJson(d))
  {
    DraftAt(d);
    DraftValuesAreData(DraftJson(d).fields, d);
    KeysOfDraft(DraftJson(d).fields, d);
    ObjectIsData(DraftJson(d));
  }

  lemma DraftValuesAreData(f: seq<Field>, d: Draft)
    requires |f| == (if d.ceiling.Some? then 8 else 7) + 2 && ListsDraft(f, d) && Data(d.rest)
    ensures forall i :: 0 <= i < |f| ==> Data(f[i].value)
  {
    forall i | 0 <= i < |f| ensures Data(f[i].value) { DraftValueIsData(f, d, i); }
  }

  lemma DraftValueIsData(f: seq<Field>, d: Draft, i: nat)
    requires |f| == (if d.ceiling.Some? then 8 else 7) + 2 && ListsDraft(f, d) && Data(d.rest) && i < |f|
    ensures Data(f[i].value)
  {
    var k := if d.ceiling.Some? then 8 else 7;
    if i == 1 { NumbersAreData(d.attempt); }
    else if i == 2 { TextIsData(ModeText(d.mode)); }
    else if i == 3 { TextsAreData(d.tools); }
    else if i == 4 { TextsAreData(d.preloadSkills); }
    else if i == 5 { TextsAreData(d.contextScopes); }
    else if i == 6 { ResourcesAreData(d.resources); }
    else if i == k { NumbersAreData(d.memoryBytes); }
    else if i == k + 1 { LimitsAreData(d.limits); }
    else if i == 7 { CeilingIsData(d.ceiling.value); }
  }

  /** The same draft, up to the order of keys in the part taken over. */
  predicate SameDraft(d: Draft, e: Draft) {
    d == e.(rest := d.rest) && Meaning(d.rest) == Meaning(e.rest)
  }

  lemma DraftsTell(d: Draft, e: Draft)
    requires Meaning(DraftJson(d)) == Meaning(DraftJson(e))
    ensures SameDraft(d, e)
  {
    DraftAt(d);
    DraftAt(e);
    var a, b := DraftJson(d), DraftJson(e);
    KeysOfDraft(a.fields, d);
    KeysOfDraft(b.fields, e);
    CeilingsTell(a, b, d, e);
    ListsTell(a, b, d, e);
    NumbersTell(a, b, d, e);
  }

  ghost predicate Alike(a: Json, b: Json, d: Draft, e: Draft) {
    && a.Object? && b.Object? && KeysDistinct(a.fields) && KeysDistinct(b.fields) && Meaning(a) == Meaning(b)
    && |a.fields| == (if d.ceiling.Some? then 8 else 7) + 2 && |b.fields| == (if e.ceiling.Some? then 8 else 7) + 2
    && ListsDraft(a.fields, d) && ListsDraft(b.fields, e)
  }

  lemma CeilingsTell(a: Json, b: Json, d: Draft, e: Draft)
    requires Alike(a, b, d, e)
    requires d.ceiling.None? ==> forall x :: x in a.fields ==> x.key != "ceiling"
    requires e.ceiling.None? ==> forall x :: x in b.fields ==> x.key != "ceiling"
    ensures d.ceiling == e.ceiling
  {
    if d.ceiling.Some? { Has(a, a.fields[7]); } else { HasNot(a, "ceiling"); }
    if e.ceiling.Some? { Has(b, b.fields[7]); } else { HasNot(b, "ceiling"); }
    if d.ceiling.Some? { CeilingTells(d.ceiling.value, e.ceiling.value); }
  }

  lemma ListsTell(a: Json, b: Json, d: Draft, e: Draft)
    requires Alike(a, b, d, e)
    ensures d.tools == e.tools && d.preloadSkills == e.preloadSkills && d.contextScopes == e.contextScopes && d.resources == e.resources
  {
    SameAt(a, b, 3);
    TextsTell(d.tools, e.tools);
    SameAt(a, b, 4);
    TextsTell(d.preloadSkills, e.preloadSkills);
    SameAt(a, b, 5);
    TextsTell(d.contextScopes, e.contextScopes);
    SameAt(a, b, 6);
    ResourcesTell(d.resources, e.resources);
  }

  lemma NumbersTell(a: Json, b: Json, d: Draft, e: Draft)
    requires Alike(a, b, d, e) && d.ceiling == e.ceiling
    ensures Meaning(d.rest) == Meaning(e.rest) && d.attempt == e.attempt && d.mode == e.mode
    ensures d.memoryBytes == e.memoryBytes && d.limits == e.limits
  {
    var k := if d.ceiling.Some? then 8 else 7;
    SameAt(a, b, 0);
    SameAt(a, b, 1);
    SameAt(a, b, 2);
    ModeTextTells(d.mode, e.mode);
    SameAt(a, b, k);
    SameAt(a, b, k + 1);
    LimitsTell(d.limits, e.limits);
  }

  lemma SameDraftSameMeaning(d: Draft, e: Draft)
    requires SameDraft(d, e)
    ensures Meaning(DraftJson(d)) == Meaning(DraftJson(e))
  {
    var a, b := DraftJson(d), DraftJson(e);
    assert a.fields == [Field("rest", d.rest)] + a.fields[1..] && b.fields == [Field("rest", e.rest)] + a.fields[1..];
    SameMeaningFields(a, b, |a.fields|);
  }

  lemma {:induction false} SameMeaningFields(a: Json, b: Json, n: nat)
    requires a.Object? && b.Object? && n <= |a.fields| == |b.fields|
    requires forall i :: 0 <= i < n ==> a.fields[i].key == b.fields[i].key && Meaning(a.fields[i].value) == Meaning(b.fields[i].value)
    ensures MeaningFields(a, n) == MeaningFields(b, n)
  {
    if n > 0 { SameMeaningFields(a, b, n - 1); }
  }

  // ----- what the identity tells -----

  /**
   The draft's JSON as it is read back, its keys in any order at any depth,
   verifies; and nothing that means anything else does, unless the digest collides
   on the two.
   */
  lemma ReadBackVerifiesExactly(sha: Sha, d: Draft, j: Json)
    requires Data(d.rest) && Data(j)
    ensures Meaning(j) == Meaning(DraftJson(d)) ==> CanonicalSha(sha, j) == Sealed(sha, d).identity
    ensures CanonicalSha(sha, j) == Sealed(sha, d).identity && TellsApart(sha, j, DraftJson(d)) <==>
              Meaning(j) == Meaning(DraftJson(d))
  {
    DraftIsData(d);
    FormIsMeaning(j, DraftJson(d));
  }

  /** An identity sealed for one draft verifies another exactly when the two are the same draft: a change of any field is found. */
  lemma IdentityTellsDrafts(sha: Sha, d: Draft, e: Draft)
    requires TellsApart(sha, DraftJson(e), DraftJson(d)) && Data(d.rest) && Data(e.rest)
    ensures VerifyLaunchPlanIdentity(sha, Plan(e, Sealed(sha, d).identity)) <==> SameDraft(d, e)
  {
    DraftIsData(e);
    ReadBackVerifiesExactly(sha, d, DraftJson(e));
    if Meaning(DraftJson(d)) == Meaning(DraftJson(e)) { DraftsTell(d, e); }
    if SameDraft(d, e) { SameDraftSameMeaning(d, e); }
  }

  /**
   Every plan derived from a compiled one, however often, verifies when it is read
   back with its keys in any order; without a collision nothing else does.
   Derived plans differ in attempt and limits only.
   */
  lemma DerivedPlansVerifyExactly(sha: Sha, plans: seq<Plan>, steps: seq<B.Step>, n: nat, j: Json)
    requires PlanChain(sha, plans, steps) && VerifyLaunchPlanIdentity(sha, plans[0])
    requires n <= |steps| && Data(plans[0].draft.rest) && Data(j)
    ensures Meaning(j) == Meaning(DraftJson(plans[n].draft)) ==> CanonicalSha(sha, j) == plans[n].identity
    ensures CanonicalSha(sha, j) == plans[n].identity && TellsApart(sha, j, DraftJson(plans[n].draft)) <==>
              Meaning(j) == Meaning(DraftJson(plans[n].draft))
    ensures plans[n].draft == plans[0].draft.(attempt := plans[n].draft.attempt, limits := plans[n].draft.limits)
  {
    ChainKeepsDraft(sha, plans, steps, n);
    VerifiedIsSealed(sha, plans[n]);
    ReadBackVerifiesExactly(sha, plans[n].draft, j);
  }

  lemma VerifiedIsSealed(sha: Sha, p: Plan)
    requires VerifyLaunchPlanIdentity(sha, p)
    ensures p == Sealed(sha, p.draft)
  {}

  /** So the plans of two attempts of one run never verify under each other's identity. */
  lemma AttemptsTellApart(sha: Sha, plans: seq<Plan>, steps: seq<B.Step>, m: nat, n: nat)
    requires PlanChain(sha, plans, steps) && m < n <= |steps|
    requires TellsApart(sha, DraftJson(plans[m].draft), DraftJson(plans[n].draft))
    requires Data(plans[0].draft.rest) && plans[0].draft.attempt == 0
    ensures plans[m].draft != plans[n].draft
    ensures !VerifyLaunchPlanIdentity(sha, Plan(plans[m].draft, plans[n].identity))
  {
    ChainKeepsDraft(sha, plans, steps, m);
    ChainKeepsDraft(sha, plans, steps, n);
    assert plans[n] == Sealed(sha, plans[n].draft);
    IdentityTellsDrafts(sha, plans[n].draft, plans[m].draft);
  }

  // ----- the order in which context resources are listed -----

  /** The digest has no collision on the granted and the projected contexts, as the compiler lists them. */
  predicate TellsProjection(sha: Sha, host: Host, rs: seq<Resource>, contexts: seq<Resource>) {
    TellsApart(sha, ResourcesJson(Sorting.Sort(Contexts(rs), ByName(host.collate))),
               ResourcesJson(Sorting.Sort(contexts, ByName(host.collate))))
  }

  /** Unless the digest collides on them, the contexts projected are the contexts granted, whatever their order. */
  lemma AcceptedContexts(sha: Sha, host: Host, r: Request, agent: Agent, rs: seq<Resource>, contexts: seq<Resource>)
    requires TellsProjection(sha, host, rs, contexts) && Accepted(sha, host, r, agent, rs, contexts)
    ensures multiset(contexts) == multiset(Contexts(rs))
    ensures forall c :: c in contexts ==> c in rs && c.kind.ContextKind?
  {
    var granted := Sorting.Sort(Contexts(rs), ByName(host.collate));
    var projected := Sorting.Sort(contexts, ByName(host.collate));
    ResourcesAreData(granted);
    ResourcesAreData(projected);
    FormIsMeaning(ResourcesJson(granted), ResourcesJson(projected));
    ResourcesTell(granted, projected);
    Sorting.SameElements(contexts, Contexts(rs));
  }

  lemma AcceptedInAnyOrder(sha: Sha, host: Host, r: Request, agent: Agent, rs: seq<Resource>, contexts: seq<Resource>,
                           others: seq<Resource>)
    requires TellsProjection(sha, host, rs, contexts) && multiset(contexts) == multiset(others) && TellsContexts(host, rs)
    requires Accepted(sha, host, r, agent, rs, contexts)
    ensures Accepted(sha, host, r, agent, rs, others)
  {
    AcceptedContexts(sha, host, r, agent, rs, contexts);
    ByNameOrders(host.collate);
    NamesSeparate(host, rs, contexts);
    Sorting.SortForgetsOrder(contexts, others, ByName(host.collate));
    Sorting.SameElements(contexts, others);
  }

  /** The plan or the refusal is the same when every list the compiler is given is given in another order. */
  lemma CompileIgnoresEveryOrder(sha: Sha, host: Host, attempt: nat, r: Request, t: Request, agent: Agent,
                                 rs: seq<Resource>, ts: seq<Resource>, contexts: seq<Resource>, others: seq<Resource>)
    requires TellsProjection(sha, host, ts, contexts) && TellsProjection(sha, host, ts, others) && TellsContexts(host, rs)
    requires Reordered(r, t) && multiset(rs) == multiset(ts) && multiset(contexts) == multiset(others)
    ensures Compiled(sha, host, attempt, r, agent, rs, contexts) == Compiled(sha, host, attempt, t, agent, ts, others)
  {
    CompileIgnoresOrder(sha, host, attempt, r, t, agent, rs, ts, contexts);
    Sorting.SameElements(rs, ts);
    if Accepted(sha, host, t, agent, ts, contexts) { AcceptedInAnyOrder(sha, host, t, agent, ts, contexts, others); }
    if Accepted(sha, host, t, agent, ts, others) { AcceptedInAnyOrder(sha, host, t, agent, ts, others, contexts); }
  }
}
