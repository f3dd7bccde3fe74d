/**
 Compiling a launch plan (src/preflight/compile.ts) and deriving the next from it
 (src/service.ts). `sha` stands for SHA-256 over the text of a canonical form, and
 nothing is assumed of it. What the plan takes over unread (task, prompt, model,
 sandbox) is in `rest`.
 */
module Compile {
  import opened Canonical
  import opened Contracts
  import opened Outcomes
  import opened Sorting
  import B = Budget

  datatype Kind = AgentKind | ToolKind | SkillKind | ContextKind

  datatype Mode = ReadOnly | Worktree

  datatype Resource = Resource(kind: Kind, name: string, source: string, sha256: string)

  datatype Ceiling = Ceiling(modes: Option<seq<Mode>>, tools: Option<seq<string>>)

  datatype Request = Request(
    tools: seq<string>, preloadSkills: seq<string>, contextScopes: seq<string>, mode: Mode,
    ceiling: Option<Ceiling>, memoryBytes: Option<nat>, limits: B.Limits)

  datatype Agent = Agent(
    name: string, source: string, sha256: string, tools: seq<string>, modes: seq<Mode>,
    preloadSkills: seq<string>, contextScopes: seq<string>, limitCeiling: B.Limits, memoryCeiling: nat)

  datatype Draft = Draft(
    rest: Json, attempt: nat, mode: Mode, tools: seq<string>, preloadSkills: seq<string>, contextScopes: seq<string>,
    resources: seq<Resource>, ceiling: Option<Ceiling>, memoryBytes: nat, limits: B.Limits)

  datatype Plan = Plan(draft: Draft, identity: nat)

  type Sha = Option<Json> -> nat

  // ----- identity -----

  function KindText(k: Kind): (r: string)
    ensures ':' !in r
  {
    match k
    case AgentKind => "agent"
    case ToolKind => "tool"
    case SkillKind => "skill"
    case ContextKind => "context"
  }

  function ModeText(m: Mode): string { if m.ReadOnly? then "read-only" else "worktree" }

  function Texts(xs: seq<string>): Json { List(seq(|xs|, i requires 0 <= i < |xs| => Text(xs[i]))) }

  function Whole(n: int): Json { Num(Finite(n as real)) }

  function ResourceJson(r: Resource): Json {
    Object([Field("kind", Text(KindText(r.kind))), Field("name", Text(r.name)), Field("source", Text(r.source)),
        Field("sha256", Text(r.sha256))])
  }

  function ResourcesJson(rs: seq<Resource>): Json {
    List(seq(|rs|, i requires 0 <= i < |rs| => ResourceJson(rs[i])))
  }

  function LimitsJson(l: B.Limits): Json {
    Object([Field("cumulativeRuntimeMs", Whole(l.runtimeMs)), Field("attemptTimeoutMs", Whole(l.attemptTimeoutMs))] +
           (if l.tokens.Some? then [Field("totalTokens", Whole(l.tokens.value))] else []) +
           [Field("cost", Num(Finite(l.cost))), Field("outputBytes", Whole(l.outputBytes)),
            Field("workspaceWriteBytes", Whole(l.workspaceWriteBytes)),
            Field("retries", Whole(l.retries)), Field("resumes", Whole(l.resumes))])
  }

  function ModeTexts(modes: seq<Mode>): Json {
    Texts(seq(|modes|, i requires 0 <= i < |modes| => ModeText(modes[i])))
  }

  function CeilingJson(c: Ceiling): Json {
    Object((if c.modes.Some? then [Field("workspaceModes", ModeTexts(c.modes.value))] else []) +
           (if c.tools.Some? then [Field("tools", Texts(c.tools.value))] else []))
  }

  function DraftJson(d: Draft): Json {
    Object([Field("rest", d.rest), Field("attemptId", Whole(d.attempt)),
            Field("workspace", Text(ModeText(d.mode))), Field("tools", Texts(d.tools)),
            Field("preloadSkills", Texts(d.preloadSkills)), Field("contextScopes", Texts(d.contextScopes)),
            Field("resources", ResourcesJson(d.resources))] +
           (if d.ceiling.Some? then [Field("ceiling", CeilingJson(d.ceiling.value))] else []) +
           [Field("sandbox", Whole(d.memoryBytes)), Field("limits", LimitsJson(d.limits))])
  }

  function CanonicalSha(sha: Sha, j: Json): nat { sha(Normalize(j)) }

  function Sealed(sha: Sha, d: Draft): Plan { Plan(d, CanonicalSha(sha, DraftJson(d))) }

  predicate VerifyLaunchPlanIdentity(sha: Sha, p: Plan) {
    CanonicalSha(sha, DraftJson(p.draft)) == p.identity
  }

  // ----- resources -----

  datatype Identity = Identity(kind: Kind, name: string)

  function IdentityOf(r: Resource): Identity { Identity(r.kind, r.name) }

  predicate UniqueIdentities(rs: seq<Resource>) {
    forall i, j :: 0 <= i < j < |rs| ==> IdentityOf(rs[i]) != IdentityOf(rs[j])
  }

  predicate Has(rs: seq<Resource>, id: Identity) {
    exists r :: r in rs && IdentityOf(r) == id
  }

  /** Every identity the request needs is granted once, no tool beyond them, and the agent is the one resolved. */
  predicate ResourcesOk(agent: Agent, tools: seq<string>, skills: seq<string>, contexts: seq<Resource>, rs: seq<Resource>) {
    && UniqueIdentities(rs)
    && Has(rs, Identity(AgentKind, agent.name))
    && (forall t :: t in tools ==> Has(rs, Identity(ToolKind, t)))
    && (forall s :: s in skills ==> Has(rs, Identity(SkillKind, s)))
    && (forall c :: c in contexts ==> Has(rs, Identity(ContextKind, c.name)))
    && (forall r :: r in rs && r.kind.ToolKind? ==> r.name in tools)
    && (exists r :: r in rs && AgentGranted(agent, r))
  }

  function Required(agent: Agent, tools: seq<string>, skills: seq<string>, contexts: seq<Resource>): seq<Identity> {
    [Identity(AgentKind, agent.name)] +
    seq(|tools|, i requires 0 <= i < |tools| => Identity(ToolKind, tools[i])) +
    seq(|skills|, i requires 0 <= i < |skills| => Identity(SkillKind, skills[i])) +
    seq(|contexts|, i requires 0 <= i < |contexts| => Identity(ContextKind, contexts[i].name))
  }

  lemma RequiredHas(agent: Agent, tools: seq<string>, skills: seq<string>, contexts: seq<Resource>, id: Identity)
    ensures id in Required(agent, tools, skills, contexts) <==>
              id == Identity(AgentKind, agent.name) || (id.kind.ToolKind? && id.name in tools)
              || (id.kind.SkillKind? && id.name in skills)
              || (id.kind.ContextKind? && exists c :: c in contexts && c.name == id.name)
  {
    var ts := seq(|tools|, i requires 0 <= i < |tools| => Identity(ToolKind, tools[i]));
    var ss := seq(|skills|, i requires 0 <= i < |skills| => Identity(SkillKind, skills[i]));
    var cs := seq(|contexts|, i requires 0 <= i < |contexts| => Identity(ContextKind, contexts[i].name));
    if id.kind.ToolKind? && id.name in tools {
      var i :| 0 <= i < |tools| && tools[i] == id.name;
      assert ts[i] == id;
    }
    if id.kind.SkillKind? && id.name in skills {
      var i :| 0 <= i < |skills| && skills[i] == id.name;
      assert ss[i] == id;
    }
    if c :| id.kind.ContextKind? && c in contexts && c.name == id.name {
      var i :| 0 <= i < |contexts| && contexts[i] == c;
      assert cs[i] == id;
    }
  }

  /** Everything required is there exactly when each group is. */
  lemma RequiredCovered(agent: Agent, tools: seq<string>, skills: seq<string>, contexts: seq<Resource>, rs: seq<Resource>)
    ensures (forall id :: id in Required(agent, tools, skills, contexts) ==> Has(rs, id)) <==>
            && Has(rs, Identity(AgentKind, agent.name))
            && (forall t :: t in tools ==> Has(rs, Identity(ToolKind, t)))
            && (forall s :: s in skills ==> Has(rs, Identity(SkillKind, s)))
            && (forall c :: c in contexts ==> Has(rs, Identity(ContextKind, c.name)))
  {
    forall id { RequiredHas(agent, tools, skills, contexts, id); }
    if forall id :: id in Required(agent, tools, skills, contexts) ==> Has(rs, id) {
      forall t | t in tools
        ensures Has(rs, Identity(ToolKind, t)) { RequiredHas(agent, tools, skills, contexts, Identity(ToolKind, t)); }
      forall s | s in skills
        ensures Has(rs, Identity(SkillKind, s)) { RequiredHas(agent, tools, skills, contexts, Identity(SkillKind, s)); }
      forall c | c in contexts
        ensures Has(rs, Identity(ContextKind, c.name)) { RequiredHas(agent, tools, skills, contexts, Identity(ContextKind, c.name)); }
      RequiredHas(agent, tools, skills, contexts, Identity(AgentKind, agent.name));
    }
  }

  /** The map by identity, unless two resources share one. */
  method ByIdentity(rs: seq<Resource>) returns (r: Option<map<Identity, Resource>>)
    ensures r.Some? <==> UniqueIdentities(rs)
    ensures r.Some? ==> forall x :: x in rs ==> IdentityOf(x) in r.value && r.value[IdentityOf(x)] == x
    ensures r.Some? ==> forall id :: id in r.value ==> r.value[id] in rs && IdentityOf(r.value[id]) == id
  {
    var byIdentity: map<Identity, Resource> := map[];
    for i := 0 to |rs|
      invariant forall j :: 0 <= j < i ==> IdentityOf(rs[j]) in byIdentity && byIdentity[IdentityOf(rs[j])] == rs[j]
      invariant forall id :: id in byIdentity ==> byIdentity[id] in rs[..i] && IdentityOf(byIdentity[id]) == id
      invariant forall j, k :: 0 <= j < k < i ==> IdentityOf(rs[j]) != IdentityOf(rs[k])
    {
      if IdentityOf(rs[i]) in byIdentity {
        var j :| 0 <= j < i && rs[j] == byIdentity[IdentityOf(rs[i])];
        return None;
      }
      byIdentity := byIdentity[IdentityOf(rs[i]) := rs[i]];
    }
    r := Some(byIdentity);
  }

  /** Fills a map by identity, then checks what is required against it. */
  method ValidateResources(agent: Agent, tools: seq<string>, skills: seq<string>, contexts: seq<Resource>,
      rs: seq<Resource>) returns (ok: bool)
    ensures ok <==> ResourcesOk(agent, tools, skills, contexts, rs)
  {
    var byIdentity := ByIdentity(rs);
    if byIdentity.None? { return false; }
    var required := Required(agent, tools, skills, contexts);
    RequiredCovered(agent, tools, skills, contexts, rs);
    for i := 0 to |required|
      invariant forall j :: 0 <= j < i ==> Has(rs, required[j])
    {
      if required[i] !in byIdentity.value { return false; }
      assert byIdentity.value[required[i]] in rs;
    }
    for i := 0 to |rs|
      invariant forall j :: 0 <= j < i && rs[j].kind.ToolKind? ==> rs[j].name in tools
    {
      RequiredHas(agent, tools, skills, contexts, IdentityOf(rs[i]));
      if rs[i].kind.ToolKind? && IdentityOf(rs[i]) !in required {
        assert rs[i] in rs;
        return false;
      }
    }
    ok := AgentGranted(agent, byIdentity.value[Identity(AgentKind, agent.name)]);
  }

  predicate AgentGranted(agent: Agent, r: Resource) {
    r.kind.AgentKind? && r.name == agent.name && r.source == agent.source && r.sha256 == agent.sha256
  }

  // ----- compiling -----

  /** What is resolved outside: model, agent text, workspace; refused as a whole or taken over. */
  datatype Host = Host(rest: Option<Json>, collate: Order<string>, textBytes: Option<Json> -> nat)

  const MAX_PLAN_BYTES := 768 * 1024
  const MIN_MEMORY_BYTES := 1024 * 1024 * 1024
  const MAX_MEMORY_BYTES := 4 * 1024 * 1024 * 1024
  const MEMORY_GRANULARITY_BYTES := 64 * 1024 * 1024

  predicate SchemaMemory(bytes: nat) {
    MIN_MEMORY_BYTES <= bytes <= MAX_MEMORY_BYTES && bytes % MEMORY_GRANULARITY_BYTES == 0
  }

  /** The bounds of the limits schema. */
  predicate SchemaLimits(l: B.Limits) {
    && 1000 <= l.runtimeMs <= 3600000 && 1000 <= l.attemptTimeoutMs <= 3600000
    && (l.tokens.Some? ==> 1 <= l.tokens.value <= 10000000) && l.cost >= 0.0
    && 1 <= l.outputBytes <= 16 * 1024 * 1024
    && 0 <= l.retries <= 10 && 0 <= l.resumes <= 10
  }

  predicate LimitsWithin(l: B.Limits, ceiling: B.Limits) {
    && l.attemptTimeoutMs <= l.runtimeMs
    && l.runtimeMs <= ceiling.runtimeMs && l.attemptTimeoutMs <= ceiling.attemptTimeoutMs
    && (l.tokens.Some? && ceiling.tokens.Some? ==> l.tokens.value <= ceiling.tokens.value)
    && l.cost <= ceiling.cost && l.outputBytes <= ceiling.outputBytes && l.workspaceWriteBytes <= ceiling.workspaceWriteBytes
    && l.retries <= ceiling.retries && l.resumes <= ceiling.resumes
  }

  predicate Subset(xs: seq<string>, ys: seq<string>) { forall x :: x in xs ==> x in ys }

  predicate WithinHostCeiling(r: Request) {
    r.ceiling.Some? ==>
      && (r.ceiling.value.modes.Some? ==> r.mode in r.ceiling.value.modes.value)
      && (r.ceiling.value.tools.Some? ==> Subset(r.tools, r.ceiling.value.tools.value))
  }

  /** No list of the request names anything twice. */
  predicate NoRepeats<T(==)>(xs: seq<T>) { forall i, j :: 0 <= i < j < |xs| ==> xs[i] != xs[j] }

  predicate SchemaRequest(r: Request) {
    && NoRepeats(r.tools) && SchemaLimits(r.limits) && (r.memoryBytes.Some? ==> SchemaMemory(r.memoryBytes.value))
    && (r.ceiling.Some? ==>
          && (r.ceiling.value.modes.Some? ==> NoRepeats(r.ceiling.value.modes.value) && r.ceiling.value.modes.value != [])
          && (r.ceiling.value.tools.Some? ==> NoRepeats(r.ceiling.value.tools.value)))
  }

  /** A resource name holds no colon: `^[a-zA-Z0-9][a-zA-Z0-9._-]*$` */
  predicate NamesValid(rs: seq<Resource>) { forall r :: r in rs ==> ':' !in r.name }

  /** `[...new Set(xs)]`: each element once, where it was first. */
  function Dedup(xs: seq<string>): seq<string> {
    if xs == [] then []
    else
      var front := Dedup(xs[..|xs| - 1]);
      if xs[|xs| - 1] in front then front else front + [xs[|xs| - 1]]
  }

  function SortedUnion(xs: seq<string>, ys: seq<string>): seq<string> {
    Sort(Dedup(xs + ys), ByText())
  }

  function ResourceKey(r: Resource): string {
    KindText(r.kind) + [':'] + (r.name + [':'] + r.source)
  }

  function ByResourceKey(): Order<Resource> {
    (a: Resource, b: Resource) => TextLe(ResourceKey(a), ResourceKey(b))
  }

  function ByMode(): Order<Mode> {
    (a: Mode, b: Mode) => a.ReadOnly? || b.Worktree?
  }

  function ByName(collate: Order<string>): Order<Resource> {
    (a: Resource, b: Resource) => collate(a.name, b.name)
  }

  function Contexts(rs: seq<Resource>): (r: seq<Resource>)
    ensures forall x :: x in r <==> x in rs && x.kind.ContextKind?
  {
    if rs == [] then [] else (if rs[0].kind.ContextKind? then [rs[0]] else []) + Contexts(rs[1..])
  }

  function RecordedCeiling(c: Ceiling): Ceiling {
    Ceiling(if c.modes.Some? then Some(Sort(c.modes.value, ByMode())) else None,
            if c.tools.Some? then Some(Sort(c.tools.value, ByText())) else None)
  }

  /** Every check of `compileLaunchPlan` before the plan is built. */
  predicate Accepted(sha: Sha, host: Host, r: Request, agent: Agent, rs: seq<Resource>, contexts: seq<Resource>) {
    && SchemaRequest(r) && host.rest.Some?
    && Subset(r.tools, agent.tools) && r.mode in agent.modes && WithinHostCeiling(r)
    && LimitsWithin(r.limits, agent.limitCeiling)
    && SchemaMemory(agent.memoryCeiling) && (r.memoryBytes.Some? ==> r.memoryBytes.value <= agent.memoryCeiling)
    && (forall c :: c in contexts ==> c.kind.ContextKind?)
    && CanonicalSha(sha, ResourcesJson(Sort(Contexts(rs), ByName(host.collate)))) ==
       CanonicalSha(sha, ResourcesJson(Sort(contexts, ByName(host.collate))))
    && ResourcesOk(agent, r.tools, SortedUnion(agent.preloadSkills, r.preloadSkills), Sort(contexts, ByName(host.collate)), rs)
  }

  function DraftOf(rest: Json, attempt: nat, r: Request, agent: Agent, rs: seq<Resource>): Draft {
    Draft(rest, attempt, r.mode, Sort(r.tools, ByText()), SortedUnion(agent.preloadSkills, r.preloadSkills),
          SortedUnion(agent.contextScopes, r.contextScopes), Sort(rs, ByResourceKey()),
          if r.ceiling.Some? then Some(RecordedCeiling(r.ceiling.value)) else None,
          if r.memoryBytes.Some? then r.memoryBytes.value else agent.memoryCeiling, r.limits)
  }

  function PlanJson(p: Plan): Json {
    Object([Field("draft", DraftJson(p.draft)), Field("identitySha256", Whole(p.identity))])
  }

  predicate PlanFits(host: Host, p: Plan) {
    host.textBytes(Normalize(PlanJson(p))) <= MAX_PLAN_BYTES && NamesValid(p.draft.resources)
  }

  function Compiled(sha: Sha, host: Host, attempt: nat, r: Request, agent: Agent, rs: seq<Resource>,
      contexts: seq<Resource>): Option<Plan> {
    if !Accepted(sha, host, r, agent, rs, contexts) then None
    else
      var plan := Sealed(sha, DraftOf(host.rest.value, attempt, r, agent, rs));
      if PlanFits(host, plan) then Some(plan) else None
  }

  method CompileLaunchPlan(sha: Sha, host: Host, attempt: nat, r: Request, agent: Agent, rs: seq<Resource>, contexts: seq<Resource>)
      returns (plan: Option<Plan>)
    ensures plan == Compiled(sha, host, attempt, r, agent, rs, contexts)
    ensures plan.Some? ==> VerifyLaunchPlanIdentity(sha, plan.value) && B.Valid(plan.value.draft.limits)
  {
    if !SchemaRequest(r) || host.rest.None? || !Subset(r.tools, agent.tools) || r.mode !in agent.modes
        || !WithinHostCeiling(r) { return None; }
    if !LimitsWithin(r.limits, agent.limitCeiling) || !SchemaMemory(agent.memoryCeiling) { return None; }
    if r.memoryBytes.Some? && r.memoryBytes.value > agent.memoryCeiling { return None; }
    if exists c :: c in contexts && !c.kind.ContextKind? { return None; }
    var sorted := Sort(contexts, ByName(host.collate));
    var local := Sort(Contexts(rs), ByName(host.collate));
    if CanonicalSha(sha, ResourcesJson(local)) != CanonicalSha(sha, ResourcesJson(sorted)) { return None; }
    var ok := ValidateResources(agent, r.tools, SortedUnion(agent.preloadSkills, r.preloadSkills), sorted, rs);
    if !ok { return None; }
    var sealed := Sealed(sha, DraftOf(host.rest.value, attempt, r, agent, rs));
    if !PlanFits(host, sealed) { return None; }
    plan := Some(sealed);
  }

  // ----- the order of the request's lists makes no difference -----

  /** Index of the first colon, or the length when there is none. */
  function ColonAt(s: string): nat {
    if s == [] || s[0] == ':' then 0 else 1 + ColonAt(s[1..])
  }

  lemma {:induction false} ColonAtIs(x: string, y: string)
    requires ':' !in x
    ensures ColonAt(x + [':'] + y) == |x|
  {
    var s := x + [':'] + y;
    if x == [] {
      assert s[0] == ':';
    } else {
      assert s[1..] == x[1..] + [':'] + y && s[0] == x[0];
      ColonAtIs(x[1..], y);
    }
  }

  lemma BeforeColon(x: string, y: string, u: string, v: string)
    requires ':' !in x && ':' !in u && x + [':'] + y == u + [':'] + v
    ensures x == u && y == v
  {
    ColonAtIs(x, y);
    ColonAtIs(u, v);
    var s := x + [':'] + y;
    assert x == s[..|x|] == u && y == s[|x| + 1..] == v;
  }

  /** With valid names, the sort key tells apart whatever the identities tell apart. */
  lemma KeyTellsIdentity(a: Resource, b: Resource)
    requires ResourceKey(a) == ResourceKey(b) && ':' !in a.name && ':' !in b.name
    ensures IdentityOf(a) == IdentityOf(b)
  {
    BeforeColon(KindText(a.kind), a.name + [':'] + a.source, KindText(b.kind), b.name + [':'] + b.source);
    BeforeColon(a.name, a.source, b.name, b.source);
  }

  lemma SameIdentitySame(rs: seq<Resource>, a: Resource, b: Resource)
    requires UniqueIdentities(rs) && a in rs && b in rs && IdentityOf(a) == IdentityOf(b)
    ensures a == b
  {
    var i :| 0 <= i < |rs| && rs[i] == a;
    var j :| 0 <= j < |rs| && rs[j] == b;
  }

  lemma ByResourceKeyOrders(rs: seq<Resource>)
    ensures TotalPreorder(ByResourceKey())
    ensures UniqueIdentities(rs) && NamesValid(rs) ==> Separates(rs, ByResourceKey())
  {
    var le := ByResourceKey();
    forall a: Resource, b: Resource ensures le(a, b) || le(b, a) { TextLeTotal(ResourceKey(a), ResourceKey(b)); }
    forall a: Resource, b: Resource, c: Resource | le(a, b) && le(b, c) ensures le(a, c) {
      TextLeTransitive(ResourceKey(a), ResourceKey(b), ResourceKey(c));
    }
    if UniqueIdentities(rs) && NamesValid(rs) {
      forall a, b | a in rs && b in rs && le(a, b) && le(b, a) ensures a == b {
        TextLeSeparates(ResourceKey(a), ResourceKey(b));
        KeyTellsIdentity(a, b);
        SameIdentitySame(rs, a, b);
      }
    }
  }

  lemma UniqueStays(rs: seq<Resource>, ts: seq<Resource>)
    requires multiset(rs) == multiset(ts) && UniqueIdentities(rs)
    ensures UniqueIdentities(ts)
  {
    SameElements(rs, ts);
    DistinctStays(rs, ts);
    forall i, j | 0 <= i < j < |ts| ensures IdentityOf(ts[i]) != IdentityOf(ts[j]) {
      assert ts[i] in rs && ts[j] in rs;
      if IdentityOf(ts[i]) == IdentityOf(ts[j]) { SameIdentitySame(rs, ts[i], ts[j]); }
    }
  }

  lemma {:induction false} DedupIs(xs: seq<string>)
    ensures NoRepeats(Dedup(xs)) && forall x :: x in Dedup(xs) <==> x in xs
  {
    if xs != [] {
      DedupIs(xs[..|xs| - 1]);
      assert xs == xs[..|xs| - 1] + [xs[|xs| - 1]];
    }
  }

  /** The union depends on what is in the lists and nothing else. */
  lemma SortedUnionIgnoresOrder(xs: seq<string>, ys: seq<string>, zs: seq<string>)
    requires forall y :: y in ys <==> y in zs
    ensures SortedUnion(xs, ys) == SortedUnion(xs, zs)
  {
    DedupIs(xs + ys);
    DedupIs(xs + zs);
    var names := set x | x in Dedup(xs + ys);
    KeyList(Dedup(xs + ys), names);
    KeyList(Dedup(xs + zs), names);
    ByTextOrders();
    SortForgetsOrder(Dedup(xs + ys), Dedup(xs + zs), ByText());
  }

  lemma SortTextIgnoresOrder(xs: seq<string>, ys: seq<string>)
    requires multiset(xs) == multiset(ys)
    ensures Sort(xs, ByText()) == Sort(ys, ByText())
  {
    ByTextOrders();
    SortForgetsOrder(xs, ys, ByText());
  }

  lemma SortModesIgnoresOrder(xs: seq<Mode>, ys: seq<Mode>)
    requires multiset(xs) == multiset(ys)
    ensures Sort(xs, ByMode()) == Sort(ys, ByMode())
  {
    SortForgetsOrder(xs, ys, ByMode());
  }

  predicate SameList<T(==)>(xs: Option<seq<T>>, ys: Option<seq<T>>) {
    if xs.Some? && ys.Some? then multiset(xs.value) == multiset(ys.value) else xs == ys
  }

  /** Two requests that differ only in the order of their lists. */
  predicate Reordered(r: Request, t: Request) {
    && multiset(r.tools) == multiset(t.tools)
    && multiset(r.preloadSkills) == multiset(t.preloadSkills) && multiset(r.contextScopes) == multiset(t.contextScopes)
    && (if r.ceiling.Some? && t.ceiling.Some? then
          SameList(r.ceiling.value.modes, t.ceiling.value.modes) && SameList(r.ceiling.value.tools, t.ceiling.value.tools)
        else r.ceiling == t.ceiling)
    && r.mode == t.mode && r.memoryBytes == t.memoryBytes && r.limits == t.limits
  }

  lemma NoRepeatsStays<T>(xs: seq<T>, ys: seq<T>)
    requires multiset(xs) == multiset(ys)
    ensures NoRepeats(xs) <==> NoRepeats(ys)
  {
    if NoRepeats(xs) { DistinctStays(xs, ys); }
    if NoRepeats(ys) { DistinctStays(ys, xs); }
  }

  lemma ReorderedSchema(r: Request, t: Request)
    requires Reordered(r, t)
    ensures SchemaRequest(r) <==> SchemaRequest(t)
    ensures WithinHostCeiling(r) <==> WithinHostCeiling(t)
    ensures forall ys :: Subset(r.tools, ys) <==> Subset(t.tools, ys)
  {
    NoRepeatsStays(r.tools, t.tools);
    SameElements(r.tools, t.tools);
    if r.ceiling.Some? && t.ceiling.Some? {
      var c, d := r.ceiling.value, t.ceiling.value;
      if c.modes.Some? && d.modes.Some? {
        NoRepeatsStays(c.modes.value, d.modes.value);
        SameElements(c.modes.value, d.modes.value);
      }
      if c.tools.Some? && d.tools.Some? {
        NoRepeatsStays(c.tools.value, d.tools.value);
        SameElements(c.tools.value, d.tools.value);
      }
    }
  }

  lemma ReorderedCeiling(r: Request, t: Request)
    requires Reordered(r, t) && r.ceiling.Some?
    ensures t.ceiling.Some? && RecordedCeiling(r.ceiling.value) == RecordedCeiling(t.ceiling.value)
  {
    var c, d := r.ceiling.value, t.ceiling.value;
    if c.modes.Some? { SortModesIgnoresOrder(c.modes.value, d.modes.value); }
    if c.tools.Some? { SortTextIgnoresOrder(c.tools.value, d.tools.value); }
  }

  lemma ResourcesOkIgnoresOrder(agent: Agent, tools: seq<string>, otherTools: seq<string>,
                                skills: seq<string>, contexts: seq<Resource>,
                                rs: seq<Resource>, ts: seq<Resource>)
    requires multiset(rs) == multiset(ts) && multiset(tools) == multiset(otherTools)
    ensures ResourcesOk(agent, tools, skills, contexts, rs) <==> ResourcesOk(agent, otherTools, skills, contexts, ts)
  {
    SameElements(rs, ts);
    SameElements(tools, otherTools);
    if UniqueIdentities(rs) { UniqueStays(rs, ts); }
    if UniqueIdentities(ts) { UniqueStays(ts, rs); }
    forall id ensures Has(rs, id) <==> Has(ts, id) {}
  }

  lemma {:induction false} ContextsMultiset(rs: seq<Resource>, x: Resource)
    ensures multiset(Contexts(rs))[x] == if x.kind.ContextKind? then multiset(rs)[x] else 0
  {
    if rs != [] {
      assert rs == [rs[0]] + rs[1..];
      ContextsMultiset(rs[1..], x);
    }
  }

  /** The host's collation orders names, and no two context resources by names it holds for the same. */
  ghost predicate TellsContexts(host: Host, rs: seq<Resource>) {
    && TotalPreorder(host.collate)
    && forall a, b | a in rs && b in rs && a.kind.ContextKind? && b.kind.ContextKind? ::
         host.collate(a.name, b.name) && host.collate(b.name, a.name) ==> a.name == b.name
  }

  lemma ByNameOrders(collate: Order<string>)
    requires TotalPreorder(collate)
    ensures TotalPreorder(ByName(collate))
  {
    var le := ByName(collate);
    forall a: Resource, b: Resource ensures le(a, b) || le(b, a) {
      assert collate(a.name, b.name) || collate(b.name, a.name);
    }
    forall a: Resource, b: Resource, c: Resource | le(a, b) && le(b, c) ensures le(a, c) {
      assert collate(a.name, b.name) && collate(b.name, c.name);
    }
  }

  /** Context resources of one list are told apart by their names. */
  lemma NamesSeparate(host: Host, rs: seq<Resource>, cs: seq<Resource>)
    requires UniqueIdentities(rs) && TellsContexts(host, rs)
    requires forall c :: c in cs ==> c in rs && c.kind.ContextKind?
    ensures Separates(cs, ByName(host.collate))
  {
    forall a, b | a in cs && b in cs && host.collate(a.name, b.name) && host.collate(b.name, a.name) ensures a == b {
      SameIdentitySame(rs, a, b);
    }
  }

  lemma SameContexts(rs: seq<Resource>, ts: seq<Resource>)
    requires multiset(rs) == multiset(ts)
    ensures multiset(Contexts(rs)) == multiset(Contexts(ts))
  {
    forall x: Resource ensures multiset(Contexts(rs))[x] == multiset(Contexts(ts))[x] {
      ContextsMultiset(rs, x);
      ContextsMultiset(ts, x);
    }
  }

  lemma ContextsSorted(host: Host, rs: seq<Resource>, ts: seq<Resource>)
    requires multiset(rs) == multiset(ts) && UniqueIdentities(rs)
    requires TellsContexts(host, rs)
    ensures Sort(Contexts(rs), ByName(host.collate)) == Sort(Contexts(ts), ByName(host.collate))
  {
    SameContexts(rs, ts);
    ByNameOrders(host.collate);
    NamesSeparate(host, rs, Contexts(rs));
    SortForgetsOrder(Contexts(rs), Contexts(ts), ByName(host.collate));
  }

  lemma AcceptedIgnoresOrder(sha: Sha, host: Host, r: Request, t: Request, agent: Agent, rs: seq<Resource>,
      ts: seq<Resource>, contexts: seq<Resource>)
    requires Reordered(r, t) && multiset(rs) == multiset(ts)
    requires TellsContexts(host, rs)
    requires Accepted(sha, host, r, agent, rs, contexts)
    ensures Accepted(sha, host, t, agent, ts, contexts)
  {
    ReorderedSchema(r, t);
    SameElements(r.preloadSkills, t.preloadSkills);
    SortedUnionIgnoresOrder(agent.preloadSkills, r.preloadSkills, t.preloadSkills);
    var sorted := Sort(contexts, ByName(host.collate));
    ResourcesOkIgnoresOrder(agent, r.tools, t.tools, SortedUnion(agent.preloadSkills, r.preloadSkills), sorted, rs, ts);
    ContextsSorted(host, rs, ts);
  }

  lemma DraftIgnoresOrder(rest: Json, attempt: nat, r: Request, t: Request, agent: Agent, rs: seq<Resource>, ts: seq<Resource>)
    requires Reordered(r, t) && multiset(rs) == multiset(ts) && UniqueIdentities(rs) && NamesValid(rs)
    ensures DraftOf(rest, attempt, r, agent, rs) == DraftOf(rest, attempt, t, agent, ts)
  {
    SortTextIgnoresOrder(r.tools, t.tools);
    SameElements(r.preloadSkills, t.preloadSkills);
    SameElements(r.contextScopes, t.contextScopes);
    SortedUnionIgnoresOrder(agent.preloadSkills, r.preloadSkills, t.preloadSkills);
    SortedUnionIgnoresOrder(agent.contextScopes, r.contextScopes, t.contextScopes);
    ByResourceKeyOrders(rs);
    SortForgetsOrder(rs, ts, ByResourceKey());
    if r.ceiling.Some? { ReorderedCeiling(r, t); }
  }

  lemma SamePlan(sha: Sha, host: Host, attempt: nat, r: Request, t: Request, agent: Agent, rs: seq<Resource>, ts: seq<Resource>)
    requires Reordered(r, t) && multiset(rs) == multiset(ts) && UniqueIdentities(rs) && host.rest.Some?
    ensures var p := Sealed(sha, DraftOf(host.rest.value, attempt, r, agent, rs));
            var q := Sealed(sha, DraftOf(host.rest.value, attempt, t, agent, ts));
            (PlanFits(host, p) || PlanFits(host, q)) ==> p == q
  {
    SameElements(rs, ts);
    SameElements(rs, Sort(rs, ByResourceKey()));
    SameElements(ts, Sort(ts, ByResourceKey()));
    if NamesValid(rs) { DraftIgnoresOrder(host.rest.value, attempt, r, t, agent, rs, ts); }
    assert NamesValid(Sort(rs, ByResourceKey())) ==> NamesValid(rs);
    assert NamesValid(Sort(ts, ByResourceKey())) ==> NamesValid(rs);
  }

  /** The plan, or the refusal, does not depend on the order in which tools, skills, scopes, ceilings and resources are listed. */
  lemma CompileIgnoresOrder(sha: Sha, host: Host, attempt: nat, r: Request, t: Request, agent: Agent,
                            rs: seq<Resource>, ts: seq<Resource>, contexts: seq<Resource>)
    requires Reordered(r, t) && multiset(rs) == multiset(ts)
    requires TellsContexts(host, rs)
    ensures Compiled(sha, host, attempt, r, agent, rs, contexts) == Compiled(sha, host, attempt, t, agent, ts, contexts)
  {
    AcceptedEither(sha, host, r, t, agent, rs, ts, contexts);
    if Accepted(sha, host, r, agent, rs, contexts) { SamePlan(sha, host, attempt, r, t, agent, rs, ts); }
  }

  lemma AcceptedEither(sha: Sha, host: Host, r: Request, t: Request, agent: Agent, rs: seq<Resource>, ts: seq<Resource>,
      contexts: seq<Resource>)
    requires Reordered(r, t) && multiset(rs) == multiset(ts)
    requires TellsContexts(host, rs)
    ensures Accepted(sha, host, r, agent, rs, contexts) <==> Accepted(sha, host, t, agent, ts, contexts)
  {
    if Accepted(sha, host, r, agent, rs, contexts) { AcceptedIgnoresOrder(sha, host, r, t, agent, rs, ts, contexts); }
    SameElements(rs, ts);
    if Accepted(sha, host, t, agent, ts, contexts) { AcceptedIgnoresOrder(sha, host, t, r, agent, ts, rs, contexts); }
  }

  // ----- the plans derived from it -----

  function DerivedPlan(sha: Sha, p: Plan, attempt: nat, limits: B.Limits): Plan {
    Sealed(sha, p.draft.(attempt := attempt, limits := limits))
  }

  /** `plans[i + 1]` is what `retryPlan` or `resumePlan` makes of `plans[i]`. */
  ghost predicate PlanChain(sha: Sha, plans: seq<Plan>, steps: seq<B.Step>) {
    && |plans| == |steps| + 1
    && forall i :: 0 <= i < |steps| ==>
         && steps[i].charged.cost >= 0.0
         && B.Derive(plans[i].draft.limits, steps[i].failure, steps[i].charged, steps[i].derivation).Ok?
         && plans[i + 1] == DerivedPlan(sha, plans[i], i + 1,
              B.Derive(plans[i].draft.limits, steps[i].failure, steps[i].charged, steps[i].derivation).value)
  }

  function LimitsOf(plans: seq<Plan>): seq<B.Limits> {
    seq(|plans|, i requires 0 <= i < |plans| => plans[i].draft.limits)
  }

  /** The drafts of a chain differ in attempt and limits only. */
  lemma {:induction false} ChainKeepsDraft(sha: Sha, plans: seq<Plan>, steps: seq<B.Step>, n: nat)
    requires PlanChain(sha, plans, steps) && n <= |steps|
    ensures n > 0 ==> VerifyLaunchPlanIdentity(sha, plans[n]) && plans[n].draft.attempt == n
    ensures plans[n].draft == plans[0].draft.(attempt := plans[n].draft.attempt, limits := plans[n].draft.limits)
  {
    if n > 0 {
      ChainKeepsDraft(sha, plans, steps, n - 1);
      var k := n - 1;
      assert plans[k + 1].draft == plans[k].draft.(attempt := n, limits := plans[n].draft.limits);
    }
  }

  lemma LimitsChain(sha: Sha, plans: seq<Plan>, steps: seq<B.Step>)
    requires PlanChain(sha, plans, steps) && B.Valid(plans[0].draft.limits)
    ensures B.Chain(LimitsOf(plans), steps)
  {
    var limits := LimitsOf(plans);
    forall i | 0 <= i < |steps|
      ensures steps[i].charged.cost >= 0.0
          && B.Derive(limits[i], steps[i].failure, steps[i].charged, steps[i].derivation) == Ok(limits[i + 1])
    {}
  }

  /**
   Every plan derived from a compiled one, however often, passes
   `verifyLaunchPlanIdentity`, differs from it in attempt and limits only, and its
   limits form a budget chain.
   */
  lemma DerivedPlansVerify(sha: Sha, host: Host, r: Request, agent: Agent, rs: seq<Resource>, contexts: seq<Resource>,
                           plans: seq<Plan>, steps: seq<B.Step>, n: nat)
    requires PlanChain(sha, plans, steps) && n <= |steps|
    requires Compiled(sha, host, 0, r, agent, rs, contexts) == Some(plans[0])
    ensures VerifyLaunchPlanIdentity(sha, plans[n])
    ensures plans[n].draft == plans[0].draft.(attempt := n, limits := plans[n].draft.limits)
    ensures B.Chain(LimitsOf(plans), steps)
  {
    ChainKeepsDraft(sha, plans, steps, n);
    LimitsChain(sha, plans, steps);
  }
}
