/**
 Entities of a fleet device operation: the reviewed plan, the resumable journal,
 the fleet it acts on, and the order its effects must keep.
 */
module LifecycleJournal {
  import opened Wrappers
  import opened SubscriptionPublisher

  type Host = string

  datatype Action = Issue | Refresh | Revoke

  /** The complete declared fleet of one operation. */
  datatype Manifest = Manifest(action: Action, device: string, nodes: set<Host>, publishers: set<Host>,
                               journalHost: Host, native: bool)

  /** A node document without `device_operations`; `revoked` is its subscription deny list. */
  datatype Content = Content(body: string, revoked: seq<Token>)

  datatype Grant = Grant(before: Option<Envelope>, after: Envelope)

  datatype CanaryIntent = CanaryIntent(token: Token, document: Envelope)

  datatype CanaryState = CanaryState(positive: bool, cleanupStarted: bool, cleaned: bool)

  /** What `prepare` fixes once: every preimage, every generated byte, and the order of each publisher's grants. */
  datatype Plan = Plan(source: string, before: map<Host, Content>, after: map<Host, Content>, profiles: set<Host>,
                       grants: map<Host, map<Token, Grant>>, order: map<Host, seq<Token>>, artifact: Option<string>,
                       canaries: map<Host, CanaryIntent>)

  datatype Phase = Prepared | AuthorityWritten | RuntimeAdopted | Complete

  datatype Journal = Journal(action: Action, device: string, plan: Plan, phase: Phase,
                             written: seq<Host>, adopted: seq<Host>, published: seq<(Host, Token)>,
                             canaries: map<Host, CanaryState>, revocation: Option<Plan>)

  /** Everything outside the controller: node documents, publishers, adopted runtimes, the recipient file. */
  datatype World = World(source: string, docs: map<Host, Content>, pubs: map<Host, Publisher>,
                         running: map<Host, Content>, output: Option<string>)

  function Elems<T>(s: seq<T>): set<T> {
    set x | x in s
  }

  predicate Distinct<T(==)>(s: seq<T>) {
    forall i, j | 0 <= i < j < |s| :: s[i] != s[j]
  }

  function GrantIds(plan: Plan): set<(Host, Token)> {
    set h, t | h in plan.grants && t in plan.grants[h] :: (h, t)
  }

  predicate Known(plan: Plan, host: Host, token: Token) {
    host in plan.grants && token in plan.grants[host]
  }

  predicate IsCanary(plan: Plan, host: Host, token: Token) {
    host in plan.canaries && token == plan.canaries[host].token
  }

  /** Runtimes that must adopt the plan. */
  function Affected(m: Manifest, plan: Plan): (hosts: set<Host>)
    requires plan.before.Keys == m.nodes && plan.after.Keys == m.nodes
  {
    if m.action.Revoke? then m.nodes
    else (set h | h in m.nodes && plan.before[h] != plan.after[h]) + plan.profiles
  }

  /** A list of exactly these items, each once. */
  predicate Lists<T(==)>(items: seq<T>, all: set<T>) {
    Distinct(items) && Elems(items) == all
  }

  predicate GrantsListed(plan: Plan) {
    plan.order.Keys == plan.grants.Keys && forall p | p in plan.grants :: Lists(plan.order[p], plan.grants[p].Keys)
  }

  /** Shape of the immutable half that every load and save checks. */
  predicate ValidPlan(m: Manifest, plan: Plan) {
    && plan.before.Keys == m.nodes && plan.after.Keys == m.nodes
    && plan.profiles <= m.nodes
    && plan.grants.Keys <= m.publishers && GrantsListed(plan)
    && (plan.artifact.Some? <==> m.action.Issue? || m.native)
    && plan.canaries.Keys == (if m.action.Revoke? then m.publishers else {})
  }

  predicate AllPositive(j: Journal) {
    forall h | h in j.canaries :: j.canaries[h].positive
  }

  predicate AllCleaned(j: Journal) {
    forall h | h in j.canaries :: j.canaries[h].cleaned
  }

  /** The checks every loaded and every saved journal must pass. */
  predicate ValidJournal(m: Manifest, j: Journal) {
    && j.action == m.action && j.device == m.device
    && ValidPlan(m, j.plan)
    && j.revocation == (if m.action.Revoke? then Some(j.plan) else None)
    && j.canaries.Keys == j.plan.canaries.Keys
    && Distinct(j.written) && Distinct(j.adopted) && Distinct(j.published)
    && Elems(j.written) <= m.nodes && Elems(j.adopted) <= Elems(j.written)
    && Elems(j.published) <= GrantIds(j.plan)
    && (!j.phase.Prepared? ==> Elems(j.written) == m.nodes)
    && (j.phase.RuntimeAdopted? || j.phase.Complete? ==> Elems(j.adopted) == Affected(m, j.plan))
    && (j.phase.Complete? ==> Elems(j.published) == GrantIds(j.plan))
    && (j.written != [] ==> AllPositive(j))
    && (j.phase.Complete? ==> AllCleaned(j))
  }

  /** The write-ahead chain behind the journal's evidence sets. */
  predicate Evidence(m: Manifest, j: Journal)
    requires ValidPlan(m, j.plan)
  {
    && Elems(j.adopted) <= Affected(m, j.plan)
    && (j.adopted != [] ==> Elems(j.written) == m.nodes)
    && (j.published != [] ==> Elems(j.adopted) == Affected(m, j.plan))
    && (forall h | h in j.canaries ::
          && (j.canaries[h].cleaned ==> j.canaries[h].cleanupStarted)
          && (j.canaries[h].cleanupStarted ==>
                j.canaries[h].positive && Elems(j.written) == m.nodes
                && Elems(j.adopted) == Affected(m, j.plan) && Elems(j.published) == GrantIds(j.plan)))
  }

  predicate SafeJournal(m: Manifest, j: Journal) {
    ValidJournal(m, j) && Evidence(m, j)
  }

  /** Evidence only grows; the intent never changes. */
  predicate Advances(a: Journal, b: Journal) {
    && b.action == a.action && b.device == a.device && b.plan == a.plan && b.revocation == a.revocation
    && a.written <= b.written && a.adopted <= b.adopted && a.published <= b.published
    && b.canaries.Keys == a.canaries.Keys
    && forall h | h in a.canaries ::
         && (a.canaries[h].positive ==> b.canaries[h].positive)
         && (a.canaries[h].cleanupStarted ==> b.canaries[h].cleanupStarted)
         && (a.canaries[h].cleaned ==> b.canaries[h].cleaned)
  }

  /** Observable effects of runs, in the order they happened; interruptions do not erase them. */
  datatype Event =
    | ServedCanary(host: Host)            // the owned canary was read back through the public route
    | WroteNode(host: Host)
    | AdoptedRuntime(host: Host)
    | ProbedDevice(host: Host)
    | ConfirmedGrant(host: Host, token: Token)
    | DeniedCanary(host: Host)            // the public route answered that the canary is revoked
    | RecordedCleanup(host: Host)         // the journal holding `cleanup_started` is durable
    | DeletedCanary(host: Host)

  /** What must already have happened before an effect. */
  ghost predicate Allowed(m: Manifest, plan: Plan, past: seq<Event>, e: Event)
    requires ValidPlan(m, plan)
  {
    match e
    case ServedCanary(h) => h in plan.canaries
    case WroteNode(h) => h in m.nodes && forall c | c in plan.canaries :: ServedCanary(c) in past
    case AdoptedRuntime(h) => h in Affected(m, plan) && forall n | n in m.nodes :: WroteNode(n) in past
    case ProbedDevice(h) => AdoptedRuntime(h) in past || h !in Affected(m, plan)
    case ConfirmedGrant(h, t) =>
      Known(plan, h, t) && forall n | n in Affected(m, plan) ::
        AdoptedRuntime(n) in past && (n in plan.profiles ==> ProbedDevice(n) in past)
    case DeniedCanary(h) =>
      && h in plan.canaries
      && (forall n | n in Affected(m, plan) :: AdoptedRuntime(n) in past)
      && forall g | g in GrantIds(plan) :: ConfirmedGrant(g.0, g.1) in past
    case RecordedCleanup(h) => DeniedCanary(h) in past
    case DeletedCanary(h) => ServedCanary(h) in past && DeniedCanary(h) in past && RecordedCleanup(h) in past
  }

  ghost predicate Ordered(m: Manifest, plan: Plan, trace: seq<Event>)
    requires ValidPlan(m, plan)
  {
    trace != [] ==>
      && Ordered(m, plan, trace[..|trace| - 1])
      && Allowed(m, plan, trace[..|trace| - 1], trace[|trace| - 1])
  }

  /** Every recorded piece of evidence was observed. */
  ghost predicate Justified(j: Journal, trace: seq<Event>) {
    && (forall h | h in j.canaries ::
          && (j.canaries[h].positive ==> ServedCanary(h) in trace)
          && (j.canaries[h].cleanupStarted ==> DeniedCanary(h) in trace)
          && (j.canaries[h].cleaned ==> DeletedCanary(h) in trace))
    && (forall h | h in j.written :: WroteNode(h) in trace)
    && (forall h | h in j.adopted :: AdoptedRuntime(h) in trace && (h in j.plan.profiles ==> ProbedDevice(h) in trace))
    && (forall g | g in j.published :: ConfirmedGrant(g.0, g.1) in trace)
  }

  lemma {:induction false} OrderedAppend(m: Manifest, plan: Plan, trace: seq<Event>, e: Event)
    requires ValidPlan(m, plan)
    requires Ordered(m, plan, trace) && Allowed(m, plan, trace, e)
    ensures Ordered(m, plan, trace + [e])
  {
    assert (trace + [e])[..|trace|] == trace;
  }

  lemma {:induction false} AdvancesTransitive(a: Journal, b: Journal, c: Journal)
    requires Advances(a, b) && Advances(b, c)
    ensures Advances(a, c)
  {
  }

  lemma {:induction false} AllowedAt(m: Manifest, plan: Plan, trace: seq<Event>, i: nat)
    requires ValidPlan(m, plan) && Ordered(m, plan, trace) && i < |trace|
    ensures Allowed(m, plan, trace[..i], trace[i])
  {
    if i < |trace| - 1 {
      AllowedAt(m, plan, trace[..|trace| - 1], i);
      assert trace[..|trace| - 1][..i] == trace[..i];
    }
  }

  /**
   In any log of any number of interrupted runs, with any other writers: a canary is
   deleted only after it was served, every node was written, every runtime adopted,
   every grant confirmed, its revocation observed, and the intent to delete it saved.
   */
  lemma {:induction false} DeletionIsLast(m: Manifest, plan: Plan, trace: seq<Event>, i: nat)
    requires ValidPlan(m, plan) && m.action.Revoke? && Ordered(m, plan, trace)
    requires i < |trace| && trace[i].DeletedCanary?
    ensures var past := trace[..i]; var h := trace[i].host;
            && ServedCanary(h) in past && DeniedCanary(h) in past && RecordedCleanup(h) in past
            && (forall g | g in GrantIds(plan) :: ConfirmedGrant(g.0, g.1) in past)
            && (forall n | n in m.nodes :: AdoptedRuntime(n) in past && WroteNode(n) in past)
            && (m.nodes != {} ==> forall c | c in plan.canaries :: ServedCanary(c) in past)
  {
    AllowedAt(m, plan, trace, i);
    var denied := IndexOf(trace[..i], DeniedCanary(trace[i].host));
    AllowedAt(m, plan, trace, denied);
    if n :| n in m.nodes {
      var adopted := IndexOf(trace[..denied], AdoptedRuntime(n));
      AllowedAt(m, plan, trace, adopted);
      var wrote := IndexOf(trace[..adopted], WroteNode(n));
      AllowedAt(m, plan, trace, wrote);
    }
  }

  lemma {:induction false} IndexOf(trace: seq<Event>, e: Event) returns (i: nat)
    requires e in trace
    ensures i < |trace| && trace[i] == e
  {
    i :| i < |trace| && trace[i] == e;
  }
}
