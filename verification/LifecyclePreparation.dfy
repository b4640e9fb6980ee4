/** How `prepare` turns an admitted fleet into the plan that every later run follows. */
module LifecyclePreparation {
  import opened Wrappers
  import opened SubscriptionPublisher
  import opened LifecycleJournal
  import opened LifecycleFleet

  /**
   Results of the pure steps around preparation: candidate documents from the credential
   functions, rendered payloads, fresh random tokens, what `discover` found, and the order in which
   each snapshot lists its documents; whether another operation is unfinished, which delivery hosts have no active registry entry of the device, and
   whether exactly this review was approved.
   */
  datatype Draft = Draft(candidate: map<Host, Content>, profiles: set<Host>, holders: set<Host>, issuer: Host,
                         token: Token, issued: Envelope, renewed: map<(Host, Token), string>,
                         canaries: map<Host, CanaryIntent>, artifact: string,
                         order: map<Host, seq<Token>>,
                         unfinished: bool, inactive: set<Host>, approved: bool)

  lemma {:induction false} ElemsAppend<T>(s: seq<T>, x: T)
    ensures Elems(s + [x]) == Elems(s) + {x}
  {
  }

  function DeviceTokens(m: Manifest, pub: Publisher): set<Token> {
    set t | t in pub.rows && pub.rows[t].client == m.device
  }

  predicate Active(pub: Publisher, token: Token)
    requires token in pub.rows
  {
    token !in pub.revoked && !pub.Expired(pub.rows[token])
  }

  function ActiveTokens(m: Manifest, pub: Publisher): set<Token> {
    set t | t in DeviceTokens(m, pub) && Active(pub, t)
  }

  /** Revocation keeps every document as it is; denial comes from the deny list. */
  function RevokedGrants(m: Manifest, pub: Publisher): map<Token, Grant> {
    map t | t in DeviceTokens(m, pub) :: Grant(Some(pub.rows[t]), pub.rows[t])
  }

  /** Refresh renews the payload of each active grant and keeps its client and expiry. */
  function RefreshedGrants(m: Manifest, host: Host, pub: Publisher, renewed: map<(Host, Token), string>): map<Token, Grant>
    requires forall t | t in ActiveTokens(m, pub) :: (host, t) in renewed
  {
    map t | t in ActiveTokens(m, pub) :: Grant(Some(pub.rows[t]), pub.rows[t].(payload := renewed[(host, t)]))
  }

  /** Those of the items that are kept, in their order. */
  function Filtered<T(==)>(items: seq<T>, keep: set<T>): seq<T> {
    if items == [] then []
    else
      var last := items[|items| - 1];
      Filtered(items[..|items| - 1], keep) + if last in keep then [last] else []
  }

  lemma {:induction false} FilteredLists<T>(items: seq<T>, keep: set<T>)
    requires Distinct(items)
    ensures Lists(Filtered(items, keep), Elems(items) * keep)
    decreases |items|
  {
    if items != [] {
      var init, last := items[..|items| - 1], items[|items| - 1];
      FilteredLists(init, keep);
      assert last !in Elems(init) && Elems(items) == Elems(init) + {last};
      var rest := Filtered(init, keep);
      assert last !in Elems(rest);
      ElemsAppend(rest, last);
      assert Elems(items) * keep == Elems(init) * keep + if last in keep then {last} else {};
      assert rest + [] == rest;
    }
  }

  /** The order of the grants of one action: the snapshot's. */
  function PlannedOrder(w: World, d: Draft, grants: map<Host, map<Token, Grant>>): map<Host, seq<Token>> {
    map p | p in grants && p in d.order :: Filtered(d.order[p], grants[p].Keys)
  }

  lemma {:induction false} PlannedLists(m: Manifest, w: World, d: Draft, plan: Plan)
    requires Admitted(m, w, d) && plan.grants.Keys <= m.publishers && plan.order == PlannedOrder(w, d, plan.grants)
    requires forall p | p in plan.grants :: plan.grants[p].Keys <= w.pubs[p].rows.Keys
    ensures GrantsListed(plan)
  {
    hide Lists, Filtered;
    forall p | p in plan.grants
      ensures p in plan.order && Lists(plan.order[p], plan.grants[p].Keys)
    {
      assert Distinct(d.order[p]) && Elems(d.order[p]) == w.pubs[p].rows.Keys by { ListsMeans(d.order[p], w.pubs[p].rows.Keys); }
      FilteredLists(d.order[p], plan.grants[p].Keys);
      assert w.pubs[p].rows.Keys * plan.grants[p].Keys == plan.grants[p].Keys;
    }
  }

  lemma {:induction false} ListsMeans<T>(items: seq<T>, all: set<T>)
    requires Lists(items, all)
    ensures Distinct(items) && Elems(items) == all
  {
  }

  /** What the controller is started with: a complete fleet and genuinely fresh tokens. */
  ghost predicate Admitted(m: Manifest, w: World, d: Draft) {
    && m.publishers <= m.nodes && m.journalHost in m.nodes && (m.action.Revoke? ==> !m.native)
    && w.docs.Keys == m.nodes && w.pubs.Keys == m.publishers && w.running.Keys == m.nodes
    && d.candidate.Keys == m.nodes && d.profiles <= m.nodes
    && (forall p | p in m.publishers :: p in d.order && Lists(d.order[p], w.pubs[p].rows.Keys))
    && (m.action.Issue? && !m.native ==>
          d.issuer in m.publishers && d.issued.client == m.device
          && d.token !in w.pubs[d.issuer].rows && d.token !in w.pubs[d.issuer].revoked
          && d.token !in d.candidate[d.issuer].revoked)
    && (m.action.Revoke? ==>
          d.canaries.Keys == m.publishers
          && forall p | p in m.publishers ::
               d.canaries[p].token !in w.pubs[p].rows && d.canaries[p].token !in w.pubs[p].revoked
               && d.canaries[p].document.expires == "")
  }

  /** Append the tokens a deny list does not name yet, one by one. */
  method DenyAll(list: seq<Token>, tokens: set<Token>) returns (r: seq<Token>)
    ensures list <= r && Elems(r) == Elems(list) + tokens
    ensures Distinct(list) ==> Distinct(r)
  {
    r := list;
    var todo := tokens;
    while todo != {}
      invariant todo <= tokens && list <= r
      invariant Elems(r) == Elems(list) + (tokens - todo)
      invariant Distinct(list) ==> Distinct(r)
    {
      var token :| token in todo;
      if token !in r {
        ElemsAppend(r, token);
        r := r + [token];
      }
      todo := todo - {token};
    }
  }

  /** The candidate's deny list, then the device's grants it does not name yet, then the canary. */
  ghost predicate Denies(m: Manifest, pub: Publisher, canary: Token, candidate: Content, after: Content) {
    && after.body == candidate.body && candidate.revoked <= after.revoked
    && Elems(after.revoked) == Elems(candidate.revoked) + DeviceTokens(m, pub) + {canary}
  }

  method PlanDenial(m: Manifest, pub: Publisher, canary: Token, candidate: Content) returns (after: Content)
    ensures Denies(m, pub, canary, candidate, after)
  {
    var denied := DenyAll(candidate.revoked, DeviceTokens(m, pub));
    ElemsAppend(denied, canary);
    after := candidate.(revoked := denied + [canary]);
  }

  /** One publisher's part of a revocation. */
  ghost predicate Revokes(m: Manifest, w: World, d: Draft, p: Host, grants: map<Host, map<Token, Grant>>, after: map<Host, Content>) {
    && p in w.pubs && p in d.canaries && p in d.candidate && p in grants && p in after
    && grants[p] == RevokedGrants(m, w.pubs[p])
    && Denies(m, w.pubs[p], d.canaries[p].token, d.candidate[p], after[p])
  }

  lemma {:induction false} RevokesNext(m: Manifest, w: World, d: Draft, p: Host, todo: set<Host>, grants: map<Host, map<Token, Grant>>,
                                       after: map<Host, Content>, denied: Content)
    requires p in todo && p in m.publishers && p in w.pubs && p in d.canaries && p in d.candidate
    requires forall q | q in m.publishers && q !in todo :: Revokes(m, w, d, q, grants, after)
    requires Denies(m, w.pubs[p], d.canaries[p].token, d.candidate[p], denied)
    ensures forall q | q in m.publishers && q !in todo - {p} ::
              Revokes(m, w, d, q, grants[p := RevokedGrants(m, w.pubs[p])], after[p := denied])
  {
    hide Denies, RevokedGrants;
  }

  /** The grants and deny lists of a revocation, publisher by publisher. */
  method PlanRevocation(m: Manifest, w: World, d: Draft)
    returns (grants: map<Host, map<Token, Grant>>, after: map<Host, Content>)
    requires Admitted(m, w, d) && m.action.Revoke?
    ensures grants.Keys == m.publishers && after.Keys == m.nodes
    ensures forall p | p in m.publishers :: Revokes(m, w, d, p, grants, after)
    ensures forall p | p in m.nodes && p !in m.publishers :: after[p] == d.candidate[p]
  {
    hide Denies, RevokedGrants, DeviceTokens, Elems, Lists, Revokes;
    grants, after := map[], d.candidate;
    var todo := m.publishers;
    while todo != {}
      invariant todo <= m.publishers && after.Keys == m.nodes
      invariant forall p :: p in grants <==> p in m.publishers && p !in todo
      invariant forall p | p in m.publishers && p !in todo :: Revokes(m, w, d, p, grants, after)
      invariant forall p | p in m.nodes && (p in todo || p !in m.publishers) :: after[p] == d.candidate[p]
    {
      var p :| p in todo;
      var denied := PlanDenial(m, w.pubs[p], d.canaries[p].token, after[p]);
      RevokesNext(m, w, d, p, todo, grants, after, denied);
      after := after[p := denied];
      grants := grants[p := RevokedGrants(m, w.pubs[p])];
      todo := todo - {p};
    }
  }

  /** The grants of a refresh; a grant whose payload cannot be rendered refuses it all. */
  method PlanRefresh(m: Manifest, w: World, d: Draft) returns (grants: Option<map<Host, map<Token, Grant>>>)
    requires Admitted(m, w, d)
    ensures grants.Some? ==>
              grants.value.Keys == m.publishers
              && forall p | p in m.publishers ::
                   (forall t | t in ActiveTokens(m, w.pubs[p]) :: (p, t) in d.renewed)
                   && grants.value[p] == RefreshedGrants(m, p, w.pubs[p], d.renewed)
    ensures grants.None? ==>
              exists p, t | p in m.publishers && t in ActiveTokens(m, w.pubs[p]) :: (p, t) !in d.renewed
  {
    var planned: map<Host, map<Token, Grant>> := map[];
    var todo := m.publishers;
    while todo != {}
      invariant todo <= m.publishers && planned.Keys == m.publishers - todo
      invariant forall p | p in planned ::
                  (forall t | t in ActiveTokens(m, w.pubs[p]) :: (p, t) in d.renewed)
                  && planned[p] == RefreshedGrants(m, p, w.pubs[p], d.renewed)
    {
      var p :| p in todo;
      if exists t | t in ActiveTokens(m, w.pubs[p]) :: (p, t) !in d.renewed {
        return None;
      }
      planned := planned[p := RefreshedGrants(m, p, w.pubs[p], d.renewed)];
      todo := todo - {p};
    }
    return Some(planned);
  }

  /** The reviewed preconditions of each action. */
  predicate ReviewedFacts(m: Manifest, w: World, d: Draft)
    requires w.pubs.Keys == m.publishers
  {
    var published := exists p | p in m.publishers :: DeviceTokens(m, w.pubs[p]) != {};
    && (m.action.Issue? ==> d.holders == {})
    && (!m.action.Issue? ==> d.holders != {} || (m.action.Revoke? && published))
    && (forall p | p in m.publishers :: w.pubs[p].bootstrap == 0)
    && (m.action.Refresh? && !m.native ==> exists p | p in m.publishers :: ActiveTokens(m, w.pubs[p]) != {})
    && (m.action.Issue? || m.native ==> !published)
    && (m.action.Issue? || m.native ==> w.output.None?)
    && (m.action.Issue? && !m.native && d.issuer in m.publishers ==> !w.pubs[d.issuer].Expired(d.issued))
    && !d.unfinished && (m.action.Refresh? ==> d.inactive == {}) && d.approved
  }

  /** They are only looked at when every publisher's snapshot could be taken. */
  ghost predicate Reviewed(m: Manifest, w: World, d: Draft)
    requires w.pubs.Keys == m.publishers
  {
    ReviewedFacts(m, w, d) && forall p | p in m.publishers :: Snapshotable(w.pubs[p])
  }

  /** A row of the device, whether it is served or not. */
  ghost predicate RowOfDevice(m: Manifest, w: World, p: Host, t: Token) {
    p in m.publishers && p in w.pubs && t in w.pubs[p].rows && w.pubs[p].rows[t].client == m.device
  }

  ghost predicate ServedRow(m: Manifest, w: World, p: Host, t: Token) {
    RowOfDevice(m, w, p, t) && t !in w.pubs[p].revoked
    && (w.pubs[p].rows[t].expires == "" || w.pubs[p].rows[t].expires !in w.pubs[p].due)
  }

  /** An issue finds nothing of the device and nothing is delivered twice, a revocation finds something, a refresh only live entries. */
  lemma {:induction false} ReviewMeans(m: Manifest, w: World, d: Draft)
    requires w.pubs.Keys == m.publishers
    ensures Reviewed(m, w, d) <==>
            && d.approved && !d.unfinished
            && (forall p | p in m.publishers ::
                  w.pubs[p].bootstrap == 0 && |w.pubs[p].rows| <= 256 && Bytes(w.pubs[p].rows) <= 2097152
                  && 128 + 65 * |w.pubs[p].revoked| <= 2097152)
            && (m.action.Issue? || m.native ==> w.output.None? && forall p, t :: !RowOfDevice(m, w, p, t))
            && (match m.action
                case Issue =>
                  && d.holders == {}
                  && (!m.native && d.issuer in m.publishers ==> d.issued.expires == "" || d.issued.expires !in w.pubs[d.issuer].due)
                case Revoke => d.holders != {} || exists p, t :: RowOfDevice(m, w, p, t)
                case Refresh => d.holders != {} && d.inactive == {} && (!m.native ==> exists p, t :: ServedRow(m, w, p, t)))
  {
    hide Bytes;
    RowsOfDevice(m, w);
    hide DeviceTokens, ActiveTokens, RowOfDevice, ServedRow;
  }

  lemma {:induction false} RowsOfDevice(m: Manifest, w: World)
    requires w.pubs.Keys == m.publishers
    ensures (exists p | p in m.publishers :: DeviceTokens(m, w.pubs[p]) != {}) <==> exists p, t :: RowOfDevice(m, w, p, t)
    ensures (exists p | p in m.publishers :: ActiveTokens(m, w.pubs[p]) != {}) <==> exists p, t :: ServedRow(m, w, p, t)
  {
    forall p, t
      ensures RowOfDevice(m, w, p, t) <==> p in m.publishers && t in DeviceTokens(m, w.pubs[p])
      ensures ServedRow(m, w, p, t) <==> p in m.publishers && t in ActiveTokens(m, w.pubs[p])
    {
    }
    hide DeviceTokens, ActiveTokens, RowOfDevice, ServedRow;
    if p :| p in m.publishers && DeviceTokens(m, w.pubs[p]) != {} {
      var t :| t in DeviceTokens(m, w.pubs[p]);
      assert RowOfDevice(m, w, p, t);
    }
    if p :| p in m.publishers && ActiveTokens(m, w.pubs[p]) != {} {
      var t :| t in ActiveTokens(m, w.pubs[p]);
      assert ServedRow(m, w, p, t);
    }
    if p, t :| RowOfDevice(m, w, p, t) {
      assert t in DeviceTokens(m, w.pubs[p]);
    }
    if p, t :| ServedRow(m, w, p, t) {
      assert t in ActiveTokens(m, w.pubs[p]);
    }
  }

  /** The first journal: intent complete, no evidence yet. */
  function FirstJournal(m: Manifest, plan: Plan): (j: Journal) {
    Journal(m.action, m.device, plan, Prepared, [], [], [],
            map h | h in plan.canaries :: CanaryState(false, false, false),
            if m.action.Revoke? then Some(plan) else None)
  }

  /** What preparation fixes, in terms of the fleet it saw and the draft. */
  ghost predicate Planned(m: Manifest, w: World, d: Draft, plan: Plan)
    requires w.pubs.Keys == m.publishers
  {
    && plan.source == w.source && plan.before == w.docs && plan.profiles == d.profiles
    && plan.artifact == (if m.action.Issue? || m.native then Some(d.artifact) else None)
    // A revocation writes the candidate to every node, at publishers with more denied tokens.
    && (m.action.Revoke? ==> forall h | h in m.nodes && h !in m.publishers ::
          h in d.candidate && h in plan.after && plan.after[h] == d.candidate[h])
    && (m.action.Revoke? ==>
          && plan.canaries == d.canaries && plan.grants.Keys == m.publishers
          && forall p | p in m.publishers ::
               && plan.grants[p] == RevokedGrants(m, w.pubs[p])
               && p in d.canaries && p in d.candidate && p in plan.after
               && Denies(m, w.pubs[p], d.canaries[p].token, d.candidate[p], plan.after[p]))
    && (!m.action.Revoke? ==> plan.canaries == map[] && plan.after == d.candidate)
    && (m.native ==> plan.grants == map[])
    && (!m.action.Issue? ==> plan.order == PlannedOrder(w, d, plan.grants))
    && (m.action.Issue? && !m.native ==>
          plan.grants == map[d.issuer := map[d.token := Grant(None, d.issued)]] && plan.order == map[d.issuer := [d.token]])
    && (m.action.Refresh? && !m.native ==>
          && plan.grants.Keys == m.publishers
          && forall p | p in m.publishers ::
               && (forall t | t in ActiveTokens(m, w.pubs[p]) :: (p, t) in d.renewed)
               && plan.grants[p] == RefreshedGrants(m, p, w.pubs[p], d.renewed))
  }

  /** What is to become of one row of a publisher. */
  ghost predicate RowPlanned(m: Manifest, d: Draft, plan: Plan, p: Host, pub: Publisher, t: Token) {
    var theirs := t in pub.rows && pub.rows[t].client == m.device;
    var served := theirs && t !in pub.revoked && !(pub.rows[t].expires != "" && pub.rows[t].expires in pub.due);
    && (m.action.Revoke? ==> (Known(plan, p, t) <==> theirs))
    && (m.action.Revoke? && theirs ==> plan.grants[p][t] == Grant(Some(pub.rows[t]), pub.rows[t]))
    && (m.action.Refresh? && !m.native ==> (Known(plan, p, t) <==> served))
    && (m.action.Refresh? && !m.native && served ==>
          && (p, t) in d.renewed
          && plan.grants[p][t].before == Some(pub.rows[t]) && plan.grants[p][t].after.client == m.device
          && plan.grants[p][t].after.expires == pub.rows[t].expires && plan.grants[p][t].after.payload == d.renewed[(p, t)])
    && (m.action.Issue? || m.native ==> (Known(plan, p, t) <==> !m.native && p == d.issuer && t == d.token))
    && (m.action.Issue? && !m.native && p == d.issuer && t == d.token ==> plan.grants[p][t] == Grant(None, d.issued))
  }

  /** Row by row: a revocation names every document of the device, a refresh renews every one in use, an issue adds one. */
  lemma {:induction false} RowsPlanned(m: Manifest, w: World, d: Draft, plan: Plan, p: Host, t: Token)
    requires Admitted(m, w, d) && Planned(m, w, d, plan) && p in m.publishers
    ensures RowPlanned(m, d, plan, p, w.pubs[p], t)
  {
    hide Denies, PlannedOrder, Lists, RevokedGrants, RefreshedGrants, ActiveTokens;
    var pub := w.pubs[p];
    if m.action.Revoke? {
      RevokedRow(m, pub, t);
    } else if m.action.Refresh? && !m.native {
      RefreshedRow(m, p, pub, d.renewed, t);
    }
  }

  lemma {:induction false} RevokedRow(m: Manifest, pub: Publisher, t: Token)
    ensures t in RevokedGrants(m, pub) <==> t in pub.rows && pub.rows[t].client == m.device
    ensures t in RevokedGrants(m, pub) ==> RevokedGrants(m, pub)[t] == Grant(Some(pub.rows[t]), pub.rows[t])
  {
  }

  lemma {:induction false} RefreshedRow(m: Manifest, p: Host, pub: Publisher, renewed: map<(Host, Token), string>, t: Token)
    requires forall u | u in ActiveTokens(m, pub) :: (p, u) in renewed
    ensures var grants := RefreshedGrants(m, p, pub, renewed);
            && (t in grants <==>
                  && t in pub.rows && pub.rows[t].client == m.device && t !in pub.revoked
                  && !(pub.rows[t].expires != "" && pub.rows[t].expires in pub.due))
            && (t in grants ==>
                  && (p, t) in renewed && grants[t].before == Some(pub.rows[t]) && grants[t].after.client == m.device
                  && grants[t].after.expires == pub.rows[t].expires && grants[t].after.payload == renewed[(p, t)])
  {
  }

  lemma {:induction false} RefreshSound(m: Manifest, w: World, d: Draft, plan: Plan)
    requires Admitted(m, w, d) && m.action.Refresh? && !m.native && Reviewed(m, w, d)
    requires plan.source == w.source && plan.before == w.docs && plan.after == d.candidate && plan.profiles == d.profiles
    requires plan.grants.Keys == m.publishers && plan.artifact.None? && plan.canaries == map[]
    requires plan.order == PlannedOrder(w, d, plan.grants)
    requires forall p | p in m.publishers ::
               (forall t | t in ActiveTokens(m, w.pubs[p]) :: (p, t) in d.renewed)
               && plan.grants[p] == RefreshedGrants(m, p, w.pubs[p], d.renewed)
    ensures WellPlanned(m, plan, w) && (Deliverable(m, plan, w) <==> DenyListsAgree(m, plan, w))
  {
    hide Snapshotable, PublisherPlanned, PublisherDeliverable, Deliverable, DenyListsAgree, Elems, Affected, GrantsListed, Lists, Filtered;
    PlannedLists(m, w, d, plan);
    RefreshPlanned(m, w, d, plan);
    RefreshDeliverable(m, w, d, plan);
  }

  method MakeRefresh(m: Manifest, w: World, d: Draft) returns (plan: Option<Plan>)
    requires Admitted(m, w, d) && Reviewed(m, w, d) && m.action.Refresh? && !m.native
    ensures plan.Some? ==>
              && WellPlanned(m, plan.value, w) && Planned(m, w, d, plan.value)
              && (Deliverable(m, plan.value, w) <==> DenyListsAgree(m, plan.value, w))
              && forall p | p in m.publishers :: p in plan.value.grants && plan.value.grants[p].Keys == ActiveTokens(m, w.pubs[p])
  {
    hide Snapshotable, WellPlanned, Deliverable, DenyListsAgree, Elems, Affected, GrantsListed, Lists, Filtered;
    var grants := PlanRefresh(m, w, d);
    if grants.None? {
      return None;
    }
    var order := PlannedOrder(w, d, grants.value);
    plan := Some(Plan(w.source, w.docs, d.candidate, d.profiles, grants.value, order, None, map[]));
    RefreshSound(m, w, d, plan.value);
  }

  method MakeRevocation(m: Manifest, w: World, d: Draft) returns (plan: Plan)
    requires Admitted(m, w, d) && Reviewed(m, w, d) && m.action.Revoke?
    ensures WellPlanned(m, plan, w) && Planned(m, w, d, plan) && Deliverable(m, plan, w)
    ensures forall p | p in m.publishers :: p in plan.grants && plan.grants[p].Keys == DeviceTokens(m, w.pubs[p])
  {
    hide Snapshotable, PublisherPlanned, PublisherDeliverable, Denies, Deliverable, Elems, Affected, GrantsListed, Lists, Filtered;
    var grants, after := PlanRevocation(m, w, d);
    plan := Plan(w.source, w.docs, after, d.profiles, grants, PlannedOrder(w, d, grants), None, d.canaries);
    PlannedLists(m, w, d, plan);
    RevocationPlanned(m, w, d, plan);
    DenyListsNeverBlock(m, w, d, plan);
  }

  method MakePlan(m: Manifest, w: World, d: Draft) returns (plan: Option<Plan>)
    requires Admitted(m, w, d)
    ensures plan.Some? ==> Reviewed(m, w, d) && WellPlanned(m, plan.value, w)
    ensures plan.None? && !m.action.Refresh? ==> !Reviewed(m, w, d)
    // Only a refresh can be impossible to finish, and an operator can tell beforehand.
    ensures plan.Some? && (!m.action.Refresh? || m.native) ==> Deliverable(m, plan.value, w)
    ensures plan.Some? && m.action.Refresh? ==> (Deliverable(m, plan.value, w) <==> DenyListsAgree(m, plan.value, w))
    ensures plan.Some? ==> Planned(m, w, d, plan.value)
    ensures plan.Some? ==> d.approved && !d.unfinished && (m.action.Issue? ==> d.holders == {}) && (m.action.Refresh? ==> d.inactive == {})
    // The plan covers the device exactly: every row for revoke, every active row for refresh.
    ensures plan.Some? && m.action.Revoke? ==>
              forall p | p in m.publishers :: p in plan.value.grants && plan.value.grants[p].Keys == DeviceTokens(m, w.pubs[p])
    ensures plan.Some? && m.action.Refresh? && !m.native ==>
              forall p | p in m.publishers :: p in plan.value.grants && plan.value.grants[p].Keys == ActiveTokens(m, w.pubs[p])
  {
    hide Snapshotable, PublisherPlanned, PublisherDeliverable, Denies, Deliverable, DenyListsAgree, Elems, Affected, GrantsListed, Lists, Filtered;
    var taken := MeasureSnapshots(w.pubs);
    if !taken || !ReviewedFacts(m, w, d) {
      return None;
    }
    var artifact := if m.action.Issue? || m.native then Some(d.artifact) else None;
    if m.action.Revoke? {
      var planned := MakeRevocation(m, w, d);
      plan := Some(planned);
    } else if m.native {
      plan := Some(Plan(w.source, w.docs, d.candidate, d.profiles, map[], map[], artifact, map[]));
      IssuePlanned(m, w, d, plan.value);
      NothingPublishedAgrees(m, plan.value, w, d);
      DenyListsNeverBlock(m, w, d, plan.value);
    } else if m.action.Issue? {
      var grants := map[d.issuer := map[d.token := Grant(None, d.issued)]];
      plan := Some(Plan(w.source, w.docs, d.candidate, d.profiles, grants, map[d.issuer := [d.token]], artifact, map[]));
      IssuePlanned(m, w, d, plan.value);
      DenyListsNeverBlock(m, w, d, plan.value);
    } else {
      plan := MakeRefresh(m, w, d);
    }
  }

  lemma {:induction false} RevocationPlanned(m: Manifest, w: World, d: Draft, plan: Plan)
    requires Admitted(m, w, d) && m.action.Revoke? && Reviewed(m, w, d)
    requires plan.source == w.source && plan.before == w.docs && plan.after.Keys == m.nodes
    requires plan.profiles <= m.nodes && plan.grants.Keys == m.publishers && plan.artifact.None?
    requires plan.canaries == d.canaries && GrantsListed(plan)
    requires forall p | p in m.publishers :: plan.grants[p] == RevokedGrants(m, w.pubs[p])
    requires forall p | p in m.publishers ::
               Denies(m, w.pubs[p], d.canaries[p].token, d.candidate[p], plan.after[p])
    ensures WellPlanned(m, plan, w)
  {
    hide RowsFit, PublisherPlanned, Denies, RevokedGrants, GrantsListed;
    forall p | p in m.publishers
      ensures PublisherPlanned(m, plan, p, w.pubs[p])
    {
      RevocationPublisher(m, plan, p, w.pubs[p], d.candidate[p]);
    }
  }

  lemma {:induction false} RevocationPublisher(m: Manifest, plan: Plan, p: Host, pub: Publisher, candidate: Content)
    requires ValidPlan(m, plan) && m.action.Revoke? && p in m.nodes && p in plan.grants && p in plan.canaries
    requires plan.grants[p] == RevokedGrants(m, pub) && pub.bootstrap == 0 && DenyListFits(pub.revoked)
    requires Denies(m, pub, plan.canaries[p].token, candidate, plan.after[p])
    requires plan.canaries[p].token !in pub.rows && plan.canaries[p].token !in pub.revoked
    requires plan.canaries[p].document.expires == ""
    ensures PublisherPlanned(m, plan, p, pub)
  {
    var denied := Elems(plan.after[p].revoked);
    forall t | t in plan.grants[p]
      ensures GrantPlanned(m, plan.grants[p][t], pub, t) && !IsCanary(plan, p, t) && t in plan.after[p].revoked
    {
      assert t in denied;
    }
    assert plan.canaries[p].token in denied;
  }

  /** Issue, and native delivery, start from a fleet without any grant of the device. */
  lemma {:induction false} IssuePlanned(m: Manifest, w: World, d: Draft, plan: Plan)
    requires Admitted(m, w, d) && (m.action.Issue? || m.native) && Reviewed(m, w, d)
    requires plan.source == w.source && plan.before == w.docs && plan.after.Keys == m.nodes
    requires plan.profiles <= m.nodes && plan.artifact.Some? && plan.canaries == map[]
    requires plan.grants == if m.native then map[] else map[d.issuer := map[d.token := Grant(None, d.issued)]]
    requires plan.order == if m.native then map[] else map[d.issuer := [d.token]]
    ensures WellPlanned(m, plan, w)
  {
    hide Snapshotable, PublisherPlanned;
    assert Elems([d.token]) == {d.token};
    forall p | p in m.publishers
      ensures PublisherPlanned(m, plan, p, w.pubs[p])
    {
      IssuedPublisher(m, w, d, plan, p);
    }
  }

  lemma {:induction false} IssuedPublisher(m: Manifest, w: World, d: Draft, plan: Plan, p: Host)
    requires Admitted(m, w, d) && (m.action.Issue? || m.native) && Reviewed(m, w, d) && p in m.publishers
    requires ValidPlan(m, plan) && plan.canaries == map[]
    requires plan.grants == if m.native then map[] else map[d.issuer := map[d.token := Grant(None, d.issued)]]
    ensures PublisherPlanned(m, plan, p, w.pubs[p])
  {
    hide RowsFit, ValidPlan;
    assert DeviceTokens(m, w.pubs[p]) == {};
    forall t | t in w.pubs[p].rows
      ensures w.pubs[p].rows[t].client != m.device
    {
      assert t !in DeviceTokens(m, w.pubs[p]);
    }
  }

  lemma {:induction false} RefreshPlanned(m: Manifest, w: World, d: Draft, plan: Plan)
    requires Admitted(m, w, d) && m.action.Refresh? && !m.native && Reviewed(m, w, d)
    requires plan.source == w.source && plan.before == w.docs && plan.after.Keys == m.nodes
    requires plan.profiles <= m.nodes && plan.grants.Keys == m.publishers && plan.artifact.None?
    requires plan.canaries == map[] && GrantsListed(plan)
    requires forall p | p in m.publishers ::
               (forall t | t in ActiveTokens(m, w.pubs[p]) :: (p, t) in d.renewed)
               && plan.grants[p] == RefreshedGrants(m, p, w.pubs[p], d.renewed)
    ensures WellPlanned(m, plan, w)
  {
    hide Snapshotable, GrantsListed, PublisherPlanned;
    forall p | p in m.publishers
      ensures PublisherPlanned(m, plan, p, w.pubs[p])
    {
      RefreshedPublisher(m, w, d, plan, p);
    }
  }

  lemma {:induction false} RefreshedPublisher(m: Manifest, w: World, d: Draft, plan: Plan, p: Host)
    requires m.action.Refresh? && p in m.publishers && p in w.pubs && w.pubs[p].bootstrap == 0 && Snapshotable(w.pubs[p])
    requires ValidPlan(m, plan) && p in m.nodes && p in plan.grants && plan.canaries == map[]
    requires forall t | t in ActiveTokens(m, w.pubs[p]) :: (p, t) in d.renewed
    requires plan.grants[p] == RefreshedGrants(m, p, w.pubs[p], d.renewed)
    ensures PublisherPlanned(m, plan, p, w.pubs[p])
  {
    hide RowsFit, ValidPlan;
    forall t | t in plan.grants[p]
      ensures GrantPlanned(m, plan.grants[p][t], w.pubs[p], t)
    {
      assert t in ActiveTokens(m, w.pubs[p]);
    }
  }

  /** A fresh plan starts from exactly the admitted fleet. */
  lemma {:induction false} FirstJournalTracks(m: Manifest, plan: Plan, w: World)
    requires WellPlanned(m, plan, w)
    ensures SafeJournal(m, FirstJournal(m, plan))
    ensures Tracks(m, FirstJournal(m, plan), w, w)
    ensures Justified(FirstJournal(m, plan), [])
  {
    var j := FirstJournal(m, plan);
    forall p | p in m.publishers
      ensures PublisherTracks(m, j, p, w.pubs[p], w.pubs[p])
    {
      FirstPublisher(m, plan, p, w.pubs[p]);
    }
  }

  lemma {:induction false} FirstPublisher(m: Manifest, plan: Plan, p: Host, was: Publisher)
    requires ValidPlan(m, plan) && p in m.nodes && PublisherPlanned(m, plan, p, was)
    ensures PublisherTracks(m, FirstJournal(m, plan), p, was, was)
  {
    var j := FirstJournal(m, plan);
    forall t
      ensures RowTracks(m, j, p, t, was.Row(t), was.Row(t))
    {
      if Known(plan, p, t) {
        assert GrantPlanned(m, plan.grants[p][t], was, t);
      }
    }
  }

  /** The deny lists never stand in the way of an issue, a native delivery or a revocation. */
  lemma {:induction false} DenyListsNeverBlock(m: Manifest, w: World, d: Draft, plan: Plan)
    requires Admitted(m, w, d) && WellPlanned(m, plan, w)
    requires m.action.Revoke? || m.native || m.action.Issue?
    requires m.action.Issue? || m.native ==> Reviewed(m, w, d) && plan.after == d.candidate
    requires m.native ==> plan.grants == map[]
    requires m.action.Issue? && !m.native ==> plan.grants == map[d.issuer := map[d.token := Grant(None, d.issued)]]
    ensures Deliverable(m, plan, w)
  {
    if !m.action.Revoke? {
      forall p | p in m.publishers
        ensures PublisherDeliverable(m, plan, p, w.pubs[p])
      {
        assert DeviceTokens(m, w.pubs[p]) == {};
        forall t | t in w.pubs[p].rows
          ensures w.pubs[p].rows[t].client != m.device
        {
          assert t !in DeviceTokens(m, w.pubs[p]);
        }
      }
    }
  }

  /** What an operator can check before a refresh, row by row. */
  ghost predicate DenyListsAgree(m: Manifest, plan: Plan, w: World)
    requires WellPlanned(m, plan, w)
  {
    forall p | p in m.publishers && p in Affected(m, plan) ::
      forall t | t in DeviceTokens(m, w.pubs[p]) && !w.pubs[p].Expired(w.pubs[p].rows[t]) ::
        t in plan.after[p].revoked <==> t in w.pubs[p].revoked
  }

  ghost predicate Agreed(m: Manifest, plan: Plan, w: World) {
    WellPlanned(m, plan, w) && DenyListsAgree(m, plan, w)
  }

  lemma {:induction false} NothingPublishedAgrees(m: Manifest, plan: Plan, w: World, d: Draft)
    requires WellPlanned(m, plan, w) && Reviewed(m, w, d) && m.native
    ensures DenyListsAgree(m, plan, w)
  {
    forall p | p in m.publishers
      ensures DeviceTokens(m, w.pubs[p]) == {}
    {
    }
  }

  /** A refresh can be finished exactly when those deny lists agree beforehand. */
  lemma {:induction false} RefreshDeliverable(m: Manifest, w: World, d: Draft, plan: Plan)
    requires WellPlanned(m, plan, w) && m.action.Refresh? && plan.grants.Keys == m.publishers
    requires forall p | p in m.publishers ::
               (forall t | t in ActiveTokens(m, w.pubs[p]) :: (p, t) in d.renewed)
               && plan.grants[p] == RefreshedGrants(m, p, w.pubs[p], d.renewed)
    ensures Deliverable(m, plan, w) <==> DenyListsAgree(m, plan, w)
  {
    hide PublisherPlanned, GrantsListed, PublisherDeliverable, RefreshedGrants;
    forall p | p in m.publishers && p in Affected(m, plan)
      ensures PublisherDeliverable(m, plan, p, w.pubs[p]) <==>
                forall t | t in DeviceTokens(m, w.pubs[p]) && !w.pubs[p].Expired(w.pubs[p].rows[t]) ::
                  t in plan.after[p].revoked <==> t in w.pubs[p].revoked
    {
      RefreshPublisherDeliverable(m, plan, p, w.pubs[p], d.renewed);
    }
    forall p | p in m.publishers && p !in Affected(m, plan)
      ensures PublisherDeliverable(m, plan, p, w.pubs[p])
    {
      UnaffectedDeliverable(m, plan, p, w.pubs[p]);
    }
  }

  lemma {:induction false} UnaffectedDeliverable(m: Manifest, plan: Plan, p: Host, pub: Publisher)
    requires ValidPlan(m, plan) && p in m.nodes && p !in Affected(m, plan)
    ensures PublisherDeliverable(m, plan, p, pub)
  {
  }

  lemma {:induction false} RefreshPublisherDeliverable(m: Manifest, plan: Plan, p: Host, pub: Publisher, renewed: map<(Host, Token), string>)
    requires ValidPlan(m, plan) && m.action.Refresh? && p in m.nodes && p in plan.grants && p in Affected(m, plan)
    requires forall t | t in ActiveTokens(m, pub) :: (p, t) in renewed
    requires plan.grants[p] == RefreshedGrants(m, p, pub, renewed)
    ensures PublisherDeliverable(m, plan, p, pub) <==>
              forall t | t in DeviceTokens(m, pub) && !pub.Expired(pub.rows[t]) ::
                t in plan.after[p].revoked <==> t in pub.revoked
  {
    forall t | t in DeviceTokens(m, pub)
      ensures Known(plan, p, t) <==> t !in pub.revoked && !pub.Expired(pub.rows[t])
    {
    }
    if PublisherDeliverable(m, plan, p, pub) {
      forall t | t in DeviceTokens(m, pub) && !pub.Expired(pub.rows[t])
        ensures t in plan.after[p].revoked <==> t in pub.revoked
      {
        assert Known(plan, p, t) <==> t !in pub.revoked;
      }
    }
  }

  // A device whose document already denies the one token its publisher serves.

  const SERVED := Envelope("phone", "", "one")
  const DENYING := Content("node", ["token"])
  const SERVING := Publisher(map["token" := SERVED], {}, {}, 0)
  const REFRESH := Manifest(Refresh, "phone", {"node"}, {"node"}, "node", false)
  const SERVED_FLEET := World("rev", map["node" := DENYING], map["node" := SERVING], map["node" := DENYING], None)
  const RENEWAL := Draft(map["node" := DENYING], {"node"}, {"node"}, "node", "", SERVED, map[("node", "token") := "two"],
                         map[], "", map["node" := ["token"]], false, {}, true)

  lemma {:induction false} ServedFleetAdmitted()
    ensures Admitted(REFRESH, SERVED_FLEET, RENEWAL) && Reviewed(REFRESH, SERVED_FLEET, RENEWAL)
    ensures ActiveTokens(REFRESH, SERVING) == {"token"}
  {
    assert DeviceTokens(REFRESH, SERVING) == {"token"} && ActiveTokens(REFRESH, SERVING) == {"token"};
    assert Elems(["token"]) == {"token"};
    assert Snapshotable(SERVING) by {
      OneMore(map[], "token", SERVED);
      assert map[]["token" := SERVED] == SERVING.rows;
    }
  }

  function StuckPlan(): Plan {
    var grants := map["node" := map["token" := Grant(Some(SERVED), Envelope("phone", "", "two"))]];
    Plan("rev", map["node" := DENYING], map["node" := DENYING], {"node"}, grants,
         PlannedOrder(SERVED_FLEET, RENEWAL, grants), None, map[])
  }

  lemma {:induction false} StuckGrants()
    ensures forall t | t in ActiveTokens(REFRESH, SERVING) :: ("node", t) in RENEWAL.renewed
    ensures RefreshedGrants(REFRESH, "node", SERVING, RENEWAL.renewed) == StuckPlan().grants["node"]
  {
    ServedFleetAdmitted();
  }

  lemma {:induction false} StuckPlanned()
    ensures Planned(REFRESH, SERVED_FLEET, RENEWAL, StuckPlan()) && WellPlanned(REFRESH, StuckPlan(), SERVED_FLEET)
  {
    hide Snapshotable, GrantsListed, Filtered, Lists, Reviewed, Admitted, ActiveTokens, RefreshedGrants;
    ServedFleetAdmitted();
    StuckGrants();
    PlannedLists(REFRESH, SERVED_FLEET, RENEWAL, StuckPlan());
    RefreshPlanned(REFRESH, SERVED_FLEET, RENEWAL, StuckPlan());
  }

  /** The gap is real: a refresh that preparation accepts and no run can finish. */
  lemma {:induction false} RefreshCanStick() returns (m: Manifest, w: World, d: Draft, plan: Plan)
    ensures m.action.Refresh? && !m.native && m.publishers == {"node"}
    ensures Admitted(m, w, d) && Reviewed(m, w, d) && Planned(m, w, d, plan)
    ensures WellPlanned(m, plan, w) && !Deliverable(m, plan, w)
  {
    m, w, d, plan := REFRESH, SERVED_FLEET, RENEWAL, StuckPlan();
    hide WellPlanned, PlannedOrder, Planned, Admitted, Reviewed, PublisherDeliverable;
    ServedFleetAdmitted();
    StuckPlanned();
    assert ValidPlan(m, plan) by { PlannedValid(m, plan, w); }
    StuckPublisher(m, plan);
  }

  lemma {:induction false} PlannedValid(m: Manifest, plan: Plan, w: World)
    requires WellPlanned(m, plan, w)
    ensures ValidPlan(m, plan) && w.pubs.Keys == m.publishers
  {
  }

  lemma {:induction false} StuckPublisher(m: Manifest, plan: Plan)
    requires ValidPlan(m, plan) && m == REFRESH && plan.profiles == {"node"} && plan.after == map["node" := DENYING]
    requires "node" in plan.grants && "token" in plan.grants["node"]
    ensures !PublisherDeliverable(m, plan, "node", SERVING)
  {
    hide GrantsListed;
    assert plan.after["node"].revoked[0] == "token";
  }
}
