/**
 Entities of a two-document device migration: the journal kept in the source document,
 the documents and publishers it moves, and what their states may be in each phase.
 */
module MigrationJournal {
  import opened Wrappers
  import opened SubscriptionPublisher

  type Name = string
  type Alias = string

  /** A registry entry: device authority, and the delivery fields a publication replaces. */
  datatype Entry = Entry(authority: string, delivery: string)

  /** A node document without `device_migrations`, as fingerprinted. */
  datatype Document = Document(registry: map<Name, Entry>, identity: Option<string>, rest: string)

  datatype MigrationGrant = MigrationGrant(prior: Envelope, next: Envelope, before: map<Alias, Option<Envelope>>)

  datatype Phase = Preparing | Prepared | Publishing | Published | RollingBack | RolledBack

  /** Both halves of the commit, fenced before either is written. */
  datatype Intent = Intent(source: Document, target: Document,
                           sourceDelivery: map<Name, Entry>, targetDelivery: map<Name, Entry>,
                           registryBefore: map<Name, Entry>,
                           sourceIdentity: Option<string>, targetIdentity: Option<string>)

  datatype Undo = Undo(source: Document, target: Document)

  datatype Journal = Journal(phase: Phase, sourceBefore: Document, targetBefore: Document, candidate: Document,
                             devices: set<Name>, grants: map<Token, MigrationGrant>,
                             after: Option<Intent>, undo: Option<Undo>)

  datatype World = World(source: Document, target: Document, pubs: map<Alias, Publisher>, due: set<string>)

  function Rank(phase: Phase): nat {
    match phase
    case Preparing => 0
    case Prepared => 1
    case Publishing => 2
    case Published => 3
    case RollingBack => 4
    case RolledBack => 5
  }

  /** The text a phase is stored as. */
  function PhaseName(phase: Phase): string {
    match phase
    case Preparing => "preparing"
    case Prepared => "prepared"
    case Publishing => "publishing"
    case Published => "published"
    case RollingBack => "rolling-back"
    case RolledBack => "rolled-back"
  }

  // ---------------------------------------------------------------- room for the journal

  /** A quarter of what an encrypted document may hold. */
  const JOURNAL_CAP: nat := 1024 * 1024

  /** The bytes of a source document and of the journal in it, without the name of the phase. */
  type Measure = (Document, Journal) -> nat

  function SavedBytes(size: Measure, source: Document, j: Journal): nat {
    size(source, j.(phase := Preparing)) + |PhaseName(j.phase)|
  }

  predicate Storable(size: Measure, source: Document, j: Journal) {
    SavedBytes(size, source, j) <= JOURNAL_CAP
  }

  // ---------------------------------------------------------------- documents

  /** `registry.update(entries)`, and a new delivery identity if one is recorded. */
  function Updated(document: Document, entries: map<Name, Entry>, identity: Option<string>): Document {
    document.(registry := document.registry + entries,
              identity := if identity.Some? then identity else document.identity)
  }

  function Restricted(registry: map<Name, Entry>, names: set<Name>): map<Name, Entry> {
    map n | n in names && n in registry :: registry[n]
  }

  /** Each device's entry with its delivery fields replaced. */
  function Delivered(registry: map<Name, Entry>, names: set<Name>, deliveries: map<Name, string>): map<Name, Entry>
    requires names <= registry.Keys && names <= deliveries.Keys
  {
    map n | n in names :: registry[n].(delivery := deliveries[n])
  }

  /** What every saved journal satisfies, whatever other writers do. */
  ghost predicate Shape(publishers: set<Alias>, j: Journal) {
    && j.devices <= j.sourceBefore.registry.Keys && j.devices <= j.candidate.registry.Keys
    && (j.devices != {} ==> j.sourceBefore.identity.Some?)
    && (forall t | t in j.grants :: GrantShape(j.grants[t]) && j.grants[t].before.Keys <= publishers)
    && (j.phase.Publishing? || j.phase.Published? || j.phase.RollingBack? ==> j.after.Some?)
    && (j.after.Some? ==>
          && IntentShape(j, j.after.value)
          && forall t | t in j.grants :: j.grants[t].before.Keys == publishers)
    && (j.phase.Preparing? || j.phase.Prepared? ==> j.after.None? && j.undo.None?)
    && (j.phase.Publishing? || j.phase.Published? ==> j.undo.None?)
    && (j.undo.Some? ==> j.after.Some?)
  }

  ghost predicate GrantShape(g: MigrationGrant) {
    && g.next.client == g.prior.client && g.next.expires == g.prior.expires
    && forall a | a in g.before :: g.before[a] == None || g.before[a] == Some(g.prior)
  }

  ghost predicate IntentShape(j: Journal, i: Intent) {
    && i.sourceDelivery.Keys == j.devices && i.targetDelivery.Keys == j.devices
    && i.registryBefore == Restricted(j.sourceBefore.registry, j.devices)
    && i.source == Updated(j.sourceBefore, i.sourceDelivery, i.sourceIdentity)
    && i.target == Updated(j.candidate, i.targetDelivery, i.targetIdentity)
    && i.sourceIdentity == j.sourceBefore.identity
    && (j.candidate.identity.Some? ==> i.targetIdentity == j.candidate.identity)
  }

  /** The prepared target, with any delivery identity that was already committed to it. */
  ghost predicate KeepsCandidate(j: Journal, target: Document) {
    || target == j.candidate
    || (j.after.Some? && target == j.candidate.(identity := j.after.value.target.identity))
  }

  /** Both documents, phase by phase. */
  ghost predicate DocumentsTrack(j: Journal, source: Document, target: Document) {
    match j.phase
    case Preparing => source == j.sourceBefore && (target == j.targetBefore || target == j.candidate)
    case Prepared => source == j.sourceBefore && target == j.candidate
    case Publishing =>
      j.after.Some? && source == j.sourceBefore && (target == j.candidate || target == j.after.value.target)
    case Published => j.after.Some? && source == j.after.value.source && target == j.after.value.target
    case RollingBack =>
      && j.after.Some? && j.undo.Some?
      && (source == j.sourceBefore || source == j.after.value.source)
      && j.undo.value.source == j.sourceBefore && KeepsCandidate(j, j.undo.value.target)
      && (target == j.undo.value.target || target == j.after.value.target)
      && j.undo.value.target.identity == target.identity
    case RolledBack => source == j.sourceBefore && KeepsCandidate(j, target)
  }

  /** A row outside the migration is untouched, or a route probe that a crash left behind. */
  ghost predicate StrayTracks(row: Option<Envelope>, was: Option<Envelope>) {
    row == was || (was.None? && row.Some? && IsRouteProbe(row.value))
  }

  ghost predicate RowTracks(j: Journal, t: Token, row: Option<Envelope>, was: Option<Envelope>) {
    if t in j.grants then
      match j.phase
      case Preparing | Prepared | RolledBack => row == was
      case Published => row == Some(j.grants[t].next)
      case Publishing | RollingBack => row == was || row == Some(j.grants[t].next)
    else
      StrayTracks(row, was)
  }

  ghost predicate PublisherTracks(j: Journal, a: Alias, pub: Publisher, was: Publisher) {
    && pub.revoked == was.revoked && pub.bootstrap == was.bootstrap
    && (forall t :: RowTracks(j, t, pub.Row(t), was.Row(t)))
    && (forall t | t in j.grants && a in j.grants[t].before :: j.grants[t].before[a] == was.Row(t))
  }

  ghost predicate Tracks(j: Journal, w: World, base: World) {
    && DocumentsTrack(j, w.source, w.target)
    && w.pubs.Keys == base.pubs.Keys
    && forall a | a in w.pubs :: PublisherTracks(j, a, w.pubs[a], base.pubs[a])
  }

  /** `check_inputs`, on the two documents. */
  predicate InputsOk(j: Journal, source: Document, target: Document) {
    && (source == j.sourceBefore || (j.after.Some? && source == j.after.value.source)
        || (j.undo.Some? && source == j.undo.value.source))
    && (target == j.candidate || (j.after.Some? && target == j.after.value.target)
        || (j.undo.Some? && target == j.undo.value.target))
  }

  /** A live row the migration does not know, of a device it moves or of a namespace it empties. */
  predicate Stray(j: Journal, emptied: bool, pub: Publisher, t: Token)
    requires t in pub.rows
  {
    && !pub.Expired(pub.rows[t]) && t !in pub.revoked && t !in j.grants
    && (pub.rows[t].client in j.devices || emptied)
  }

  /** The namespace holds nothing the migration would have to leave behind. */
  predicate NothingStray(j: Journal, emptied: bool, pub: Publisher) {
    forall t | t in pub.rows :: !Stray(j, emptied, pub, t)
  }

  predicate Unexpired(g: MigrationGrant, due: set<string>) {
    g.prior.expires == "" || g.prior.expires !in due
  }

  /** A grant publication can move: neither revoked nor expired at the publisher. */
  ghost predicate PairLive(j: Journal, w: World, a: Alias, t: Token) {
    && a in w.pubs && t in j.grants
    && t !in w.pubs[a].revoked && !w.pubs[a].Expired(j.grants[t].prior)
  }

  /** A grant rollback can put back: one that is or was there has to be live for that. */
  ghost predicate PairBack(j: Journal, w: World, a: Alias, t: Token) {
    && a in w.pubs && t in j.grants && a in j.grants[t].before
    && (w.pubs[a].Row(t).Some? || j.grants[t].before[a].Some? ==>
          t !in w.pubs[a].revoked && !w.pubs[a].Expired(j.grants[t].prior))
  }

  ghost predicate PairReady(j: Journal, w: World, a: Alias, t: Token, rollback: bool) {
    if rollback then PairBack(j, w, a, t) else PairLive(j, w, a, t)
  }

  /** Every namespace answers and fits a snapshot. */
  ghost predicate SnapshotsFit(publishers: set<Alias>, w: World) {
    forall a | a in publishers :: a in w.pubs && Snapshotable(w.pubs[a])
  }

  /** What a reconciliation checks on its snapshots: none holds a stray grant, none is being bootstrapped. */
  predicate SnapshotsClean(first: Alias, publishers: set<Alias>, j: Journal, w: World) {
    && (forall a | a in publishers :: a in w.pubs && NothingStray(j, |publishers| > 1 && a == first, w.pubs[a]))
    && (|publishers| > 1 && first in w.pubs ==> w.pubs[first].bootstrap == 0)
  }

  ghost predicate SnapshotsOk(first: Alias, publishers: set<Alias>, j: Journal, w: World) {
    SnapshotsFit(publishers, w) && SnapshotsClean(first, publishers, j, w)
  }

  /** What a reconciliation and the publishers demand of every grant and namespace, in one direction. */
  ghost predicate Ready(first: Alias, publishers: set<Alias>, j: Journal, w: World, rollback: bool) {
    && SnapshotsOk(first, publishers, j, w)
    && (forall t | t in j.grants :: Unexpired(j.grants[t], w.due))
    && (forall a, t | a in publishers && t in j.grants :: PairReady(j, w, a, t, rollback))
  }

  // ---------------------------------------------------------------- room in the namespaces

  /** What a row is once every journaled grant is at one end of the migration. */
  function EndRow(j: Journal, a: Alias, rows: map<Token, Envelope>, t: Token, rollback: bool): Option<Envelope> {
    if t in j.grants then
      if !rollback then Some(j.grants[t].next)
      else if a in j.grants[t].before then j.grants[t].before[a]
      else None
    else if t in rows then Some(rows[t])
    else None
  }

  function EndRows(j: Journal, a: Alias, rows: map<Token, Envelope>, rollback: bool): map<Token, Envelope> {
    map t | t in rows.Keys + j.grants.Keys && EndRow(j, a, rows, t, rollback).Some? ::
      EndRow(j, a, rows, t, rollback).value
  }

  /** Every namespace still fits a snapshot with all its grants at that end. */
  ghost predicate EndFits(j: Journal, w: World, publishers: set<Alias>, rollback: bool) {
    forall a | a in publishers :: a in w.pubs && RowsFit(EndRows(j, a, w.pubs[a].rows, rollback))
  }

  /** The most a row holds while its grant is moved to one end. */
  function PeakRow(j: Journal, a: Alias, rows: map<Token, Envelope>, t: Token, rollback: bool): Option<Envelope> {
    var end := EndRow(j, a, rows, t, rollback);
    if t in rows && (end.None? || Size(end.value) < Size(rows[t])) then Some(rows[t]) else end
  }

  function PeakRows(j: Journal, a: Alias, rows: map<Token, Envelope>, rollback: bool): map<Token, Envelope> {
    map t | t in rows.Keys + j.grants.Keys && PeakRow(j, a, rows, t, rollback).Some? ::
      PeakRow(j, a, rows, t, rollback).value
  }

  /** Every namespace fits a snapshot at any moment of the move, with so many leftover route probes more. */
  ghost predicate PeakFits(j: Journal, w: World, publishers: set<Alias>, rollback: bool, probes: nat) {
    forall a | a in publishers :: a in w.pubs && PeakRoom(j, a, w.pubs[a].rows, rollback, probes)
  }

  ghost predicate PeakRoom(j: Journal, a: Alias, rows: map<Token, Envelope>, rollback: bool, probes: nat) {
    && |PeakRows(j, a, rows, rollback)| + probes <= MAX_DOCUMENTS
    && Bytes(PeakRows(j, a, rows, rollback)) + probes * PROBE_SIZE <= MAX_BYTES
  }

  // ---------------------------------------------------------------- progress

  /** A migration only moves forward through its phases, and rolled-back is the end. */
  ghost predicate Later(a: Journal, b: Journal) {
    && Rank(a.phase) <= Rank(b.phase)
    && b.sourceBefore == a.sourceBefore && b.targetBefore == a.targetBefore && b.candidate == a.candidate
    && b.devices == a.devices && b.grants.Keys == a.grants.Keys
    && (forall t | t in a.grants :: b.grants[t].prior == a.grants[t].prior && b.grants[t].next == a.grants[t].next)
    && (a.after.Some? ==> b.after == a.after && b.grants == a.grants)
    && (a.phase.RolledBack? ==> b == a)
  }

  /** The document a publisher should hold for one grant at the end of a direction. */
  function Wanted(j: Journal, a: Alias, t: Token, rollback: bool): Option<Envelope>
    requires t in j.grants && a in j.grants[t].before
  {
    if rollback then j.grants[t].before[a] else Some(j.grants[t].next)
  }

  function Allowed(j: Journal, a: Alias, t: Token, rollback: bool): Option<Envelope>
    requires t in j.grants && a in j.grants[t].before
  {
    if rollback then Some(j.grants[t].next) else j.grants[t].before[a]
  }

  function Pairs(j: Journal, publishers: set<Alias>): set<(Alias, Token)> {
    set a, t | a in publishers && t in j.grants :: (a, t)
  }

  ghost predicate PairSettled(j: Journal, w: World, a: Alias, t: Token, rollback: bool) {
    && a in w.pubs && t in j.grants && a in j.grants[t].before
    && w.pubs[a].Row(t) == Wanted(j, a, t, rollback)
  }

  /** Every publisher holds the wanted end of every grant. */
  ghost predicate Settled(j: Journal, w: World, publishers: set<Alias>, rollback: bool) {
    forall a, t | a in publishers && t in j.grants :: PairSettled(j, w, a, t, rollback)
  }

  function WithPublisher(w: World, a: Alias, pub: Publisher): World {
    w.(pubs := w.pubs[a := pub])
  }

  ghost predicate SamePublisher(pub: Publisher, was: Publisher) {
    pub.revoked == was.revoked && pub.due == was.due && pub.bootstrap == was.bootstrap
  }

  /** Only the row of `token` at `alias` may have changed. */
  ghost predicate OnlyRow(w: World, w': World, alias: Alias, token: Token) {
    && w'.source == w.source && w'.target == w.target && w'.due == w.due && w'.pubs.Keys == w.pubs.Keys
    && (forall a | a in w.pubs && a != alias :: w'.pubs[a] == w.pubs[a])
    && (alias in w.pubs ==>
          && SamePublisher(w'.pubs[alias], w.pubs[alias])
          && forall t | t != token :: w'.pubs[alias].Row(t) == w.pubs[alias].Row(t))
  }

  /** A row stayed as it was, or is a journaled grant that reached its end of the migration. */
  ghost predicate RowMoved(j: Journal, a: Alias, t: Token, row: Option<Envelope>, was: Option<Envelope>, rollback: bool) {
    row == was || (t in j.grants && row == EndRow(j, a, map[], t, rollback))
  }

  ghost predicate RowsMoved(j: Journal, a: Alias, pub: Publisher, was: Publisher, rollback: bool) {
    SamePublisher(pub, was) && forall t :: RowMoved(j, a, t, pub.Row(t), was.Row(t), rollback)
  }

  /** At the publishers, nothing changed but journaled grants that reached their end. */
  ghost predicate OnlyGrantRows(j: Journal, w: World, w': World, rollback: bool) {
    && w'.due == w.due && w'.pubs.Keys == w.pubs.Keys
    && forall a | a in w.pubs :: RowsMoved(j, a, w'.pubs[a], w.pubs[a], rollback)
  }

  /** And no document changed either. */
  ghost predicate OnlyGrants(j: Journal, w: World, w': World, rollback: bool) {
    w'.source == w.source && w'.target == w.target && OnlyGrantRows(j, w, w', rollback)
  }

  /** A publisher still shows for `token` what a snapshot of it showed. */
  ghost predicate StillAs(w: World, alias: Alias, token: Token, seen: World) {
    && alias in w.pubs && alias in seen.pubs
    && w.pubs[alias].Row(token) == seen.pubs[alias].Row(token)
    && SamePublisher(w.pubs[alias], seen.pubs[alias])
  }

  ghost predicate AllStill(todo: set<(Alias, Token)>, w: World, seen: World) {
    forall a, t | (a, t) in todo :: StillAs(w, a, t, seen)
  }

  ghost predicate AllSettled(pairs: set<(Alias, Token)>, j: Journal, w: World, rollback: bool) {
    forall a, t | (a, t) in pairs :: PairSettled(j, w, a, t, rollback)
  }

  ghost predicate AllReady(pairs: set<(Alias, Token)>, j: Journal, w: World, rollback: bool) {
    forall a, t | (a, t) in pairs :: PairReady(j, w, a, t, rollback)
  }

  /** Only the probes of one route check may have appeared. */
  ghost predicate OnlyProbes(w: World, w': World, tokens: map<Alias, Token>, stamp: string) {
    && w'.source == w.source && w'.target == w.target && w'.due == w.due && w'.pubs.Keys == w.pubs.Keys
    && forall a | a in w.pubs ::
         && SamePublisher(w'.pubs[a], w.pubs[a])
         && forall t :: w'.pubs[a].Row(t) == w.pubs[a].Row(t) || (w.pubs[a].Row(t).None? && IsProbe(w'.pubs[a].Row(t), stamp)
                                                                   && a in tokens && t == tokens[a])
  }

  ghost predicate IsProbe(row: Option<Envelope>, stamp: string) {
    row.Some? && IsRouteProbe(row.value) && row.value.expires == stamp
  }

  /** A random token no publisher has seen, and a probe whose expiry has not come. */
  ghost predicate Fresh(j: Journal, w: World, a: Alias, token: Token, stamp: string, nonce: string) {
    && a in w.pubs && token !in w.pubs[a].rows && token !in w.pubs[a].revoked && token !in j.grants
    && IsRouteProbe(Probe(stamp, nonce)) && stamp !in w.pubs[a].due
  }

  function Probe(stamp: string, nonce: string): Envelope {
    Envelope(ROUTE_CHECK, stamp, nonce)
  }

  /** A row that publication may start from: absent, or the live recorded document. */
  predicate RowAcceptable(pub: Publisher, t: Token, prior: Envelope) {
    var row := pub.Row(t);
    row.None? || (!pub.Expired(row.value) && t !in pub.revoked && row.value == prior)
  }

  /** Complete a grant's predecessors with what a snapshot shows. */
  function Recorded(g: MigrationGrant, t: Token, publishers: set<Alias>, pubs: map<Alias, Publisher>): MigrationGrant
    requires publishers <= pubs.Keys
  {
    g.(before := g.before + (map a | a in publishers && a !in g.before :: pubs[a].Row(t)))
  }

  predicate GrantRecordable(g: MigrationGrant, t: Token, publishers: set<Alias>, pubs: map<Alias, Publisher>)
    requires publishers <= pubs.Keys
  {
    forall a | a in publishers && a !in g.before :: RowAcceptable(pubs[a], t, g.prior)
  }

  /** What publication writes to both registries, computed before anything is published. */
  function IntentOf(j: Journal, source: Document, target: Document, sourceDelivery: map<Name, string>,
                    targetDelivery: map<Name, string>, identity: string): Intent
    requires j.devices <= source.registry.Keys && j.devices <= target.registry.Keys
    requires j.devices <= sourceDelivery.Keys && j.devices <= targetDelivery.Keys
  {
    var newSource := Delivered(source.registry, j.devices, sourceDelivery);
    var newTarget := Delivered(target.registry, j.devices, targetDelivery);
    var created := if j.devices == {} then None else Some(identity);
    var sourceIdentity := if source.identity.Some? then source.identity else created;
    var targetIdentity := if target.identity.Some? then target.identity else created;
    Intent(Updated(source, newSource, sourceIdentity), Updated(target, newTarget, targetIdentity),
           newSource, newTarget, Restricted(source.registry, j.devices), sourceIdentity, targetIdentity)
  }

  function AllRecorded(j: Journal, publishers: set<Alias>, pubs: map<Alias, Publisher>): map<Token, MigrationGrant>
    requires publishers <= pubs.Keys
  {
    map t | t in j.grants :: Recorded(j.grants[t], t, publishers, pubs)
  }

  ghost predicate AllRecordable(j: Journal, publishers: set<Alias>, pubs: map<Alias, Publisher>) {
    publishers <= pubs.Keys && forall t | t in j.grants :: GrantRecordable(j.grants[t], t, publishers, pubs)
  }

  /** The undo half, computed from the documents as they are. */
  function UndoOf(j: Journal, source: Document, target: Document): Undo
    requires j.after.Some?
  {
    Undo(Updated(source, j.after.value.registryBefore, None),
         if target.identity.Some? then j.candidate.(identity := target.identity) else j.candidate)
  }

  /** What a complete publication leaves, outside rows it does not own. */
  ghost predicate Migrated(j: Journal, w: World, publishers: set<Alias>) {
    && j.phase.Published? && j.after.Some?
    && w.source == j.after.value.source && w.target == j.after.value.target
    && forall a, t | a in publishers && t in j.grants ::
         a in w.pubs && w.pubs[a].Row(t) == Some(j.grants[t].next)
  }

  /** What a complete rollback leaves. */
  ghost predicate Undone(j: Journal, w: World, base: World, publishers: set<Alias>) {
    && j.phase.RolledBack? && w.source == j.sourceBefore && KeepsCandidate(j, w.target)
    && forall a, t | a in publishers && t in j.grants ::
         a in w.pubs && a in base.pubs && w.pubs[a].Row(t) == base.pubs[a].Row(t)
  }

  /** One publication attempt at the publishers: grants that reached their end, and the probe it may have left. */
  ghost predicate StraysKept(j: Journal, w: World, w': World, tokens: map<Alias, Token>, stamp: string) {
    && w'.due == w.due && w'.pubs.Keys == w.pubs.Keys
    && forall a | a in w.pubs :: PublisherKept(j, a, w'.pubs[a], w.pubs[a], tokens, stamp)
  }

  ghost predicate PublisherKept(j: Journal, a: Alias, pub: Publisher, was: Publisher, tokens: map<Alias, Token>, stamp: string) {
    && SamePublisher(pub, was)
    && forall t ::
         || RowMoved(j, a, t, pub.Row(t), was.Row(t), false)
         || (t !in j.grants && was.Row(t).None? && IsProbe(pub.Row(t), stamp) && a in tokens && t == tokens[a])
  }

  /** The clock passes one expiry stamp, here and at every publisher. */
  function Elapsed(w: World, stamp: string): World {
    w.(due := w.due + {stamp}, pubs := map a | a in w.pubs :: w.pubs[a].(due := w.pubs[a].due + {stamp}))
  }

  /** No grant of the migration expires at `stamp`. */
  ghost predicate Foreign(j: Journal, stamp: string) {
    stamp != "" && forall t | t in j.grants :: j.grants[t].prior.expires != stamp
  }

  /** The grants a migration takes over, from the source namespace. */
  predicate Selected(devices: set<Name>, moving: bool, pub: Publisher, t: Token) {
    && t in pub.rows && t !in pub.revoked && !pub.Expired(pub.rows[t])
    && (pub.rows[t].client in devices || moving)
  }

  function FirstGrant(first: Alias, devices: set<Name>, prior: Envelope, payload: string): MigrationGrant {
    MigrationGrant(prior, if prior.client in devices then prior.(payload := payload) else prior,
                   map[first := Some(prior)])
  }

  function Rendered(rendered: map<Token, string>, t: Token): string {
    if t in rendered then rendered[t] else ""
  }

  function FirstGrants(first: Alias, devices: set<Name>, moving: bool, pub: Publisher, rendered: map<Token, string>)
    : map<Token, MigrationGrant>
  {
    map t | t in pub.rows && Selected(devices, moving, pub, t) ::
      FirstGrant(first, devices, pub.rows[t], Rendered(rendered, t))
  }

  /** The first journal of a migration. */
  ghost predicate FirstJournal(first: Alias, publishers: set<Alias>, j: Journal, w: World) {
    && j.phase.Preparing? && j.sourceBefore == w.source && j.targetBefore == w.target
    && j.after.None? && j.undo.None?
    && first in w.pubs
    && (forall t :: t in j.grants <==> Selected(j.devices, |publishers| > 1, w.pubs[first], t))
    && (forall t | t in j.grants ::
          && j.grants[t].prior == w.pubs[first].rows[t] && j.grants[t].before == map[first := Some(w.pubs[first].rows[t])]
          && j.grants[t].next.client == j.grants[t].prior.client && j.grants[t].next.expires == j.grants[t].prior.expires
          && (j.grants[t].prior.client !in j.devices ==> j.grants[t].next == j.grants[t].prior))
  }
}
