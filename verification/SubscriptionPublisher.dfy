/**
 The compare-and-swap contract of one subscription publisher, as the
 subscription-host role installs it.  Device lifecycle and device migration both
 publish through it.
 */
module SubscriptionPublisher {
  import opened Wrappers
  import opened Sums

  type Token = string

  /** A grant document.  `expires == ""` never expires. */
  datatype Envelope = Envelope(client: string, expires: string, payload: string)

  /** One private namespace.  `due` holds the expiry stamps the clock has passed. */
  datatype Publisher = Publisher(rows: map<Token, Envelope>, revoked: set<Token>, due: set<string>, bootstrap: nat)
  {
    predicate Expired(document: Envelope) {
      document.expires != "" && document.expires in due
    }

    function Row(token: Token): Option<Envelope> {
      if token in rows then Some(rows[token]) else None
    }

    function With(token: Token, document: Option<Envelope>): Publisher {
      match document
      case Some(d) => this.(rows := rows[token := d])
      case None => this.(rows := rows - {token})
    }
  }

  // ---------------------------------------------------------------- limits of the helper

  const MAX_DOCUMENTS: nat := 256
  const MAX_BYTES: nat := 2 * 1024 * 1024

  /** The bytes of a stored document: its compact JSON text. */
  function Size(document: Envelope): nat {
    62 + |document.client| + |document.expires| + |document.payload|
  }

  function SizeAt(rows: map<Token, Envelope>, token: Token): nat {
    if token in rows then Size(rows[token]) else 0
  }

  ghost function Bytes(rows: map<Token, Envelope>): nat {
    Sum(rows.Keys, token => SizeAt(rows, token))
  }

  /** A namespace that fits one snapshot.  Publication itself never asks this. */
  ghost predicate RowsFit(rows: map<Token, Envelope>) {
    |rows| <= MAX_DOCUMENTS && Bytes(rows) <= MAX_BYTES
  }

  /** The deny list is a file of two comment lines and one line for each hash. */
  const DENY_HEADER: nat := 128

  predicate DenyListFits(revoked: set<Token>) {
    DENY_HEADER + 65 * |revoked| <= MAX_BYTES
  }

  ghost predicate Snapshotable(publisher: Publisher) {
    RowsFit(publisher.rows) && DenyListFits(publisher.revoked)
  }

  /** Summing up the documents of a snapshot, one by one, until a limit is passed. */
  method MeasureSnapshot(publisher: Publisher) returns (fits: bool)
    ensures fits <==> Snapshotable(publisher)
  {
    var rows := publisher.rows;
    var todo, total := rows.Keys, 0;
    ghost var f := token => SizeAt(rows, token);
    while todo != {}
      invariant todo <= rows.Keys && total + Sum(todo, f) == Bytes(rows)
    {
      var token :| token in todo;
      SumWithout(todo, token, f);
      total := total + Size(rows[token]);
      todo := todo - {token};
    }
    fits := |rows| <= MAX_DOCUMENTS && total <= MAX_BYTES && DenyListFits(publisher.revoked);
  }

  /** Snapshots of a whole fleet of publishers. */
  method MeasureSnapshots(pubs: map<string, Publisher>) returns (taken: bool)
    ensures taken <==> forall p | p in pubs :: Snapshotable(pubs[p])
  {
    hide Snapshotable;
    var todo := pubs.Keys;
    while todo != {}
      invariant todo <= pubs.Keys && forall p | p in pubs && p !in todo :: Snapshotable(pubs[p])
    {
      var p :| p in todo;
      var fits := MeasureSnapshot(pubs[p]);
      if !fits {
        return false;
      }
      todo := todo - {p};
    }
    taken := true;
  }

  // ---------------------------------------------------------------- route probes

  const ROUTE_CHECK := "migration-route-check"

  /** The bytes of a probe: a fixed client, a stamp of twenty characters and an encoded nonce. */
  const PROBE_SIZE: nat := 227

  /** A document that proves the public route serves one namespace. */
  predicate IsRouteProbe(document: Envelope) {
    document.client == ROUTE_CHECK && document.expires != "" && Size(document) == PROBE_SIZE
  }

  /** Fewer and smaller documents fit wherever more and larger ones do. */
  lemma {:induction false} FitsBelow(a: map<Token, Envelope>, b: map<Token, Envelope>)
    requires forall t | t in a :: t in b && Size(a[t]) <= Size(b[t])
    ensures |a| <= |b| && Bytes(a) <= Bytes(b)
    ensures RowsFit(b) ==> RowsFit(a)
  {
    assert a.Keys <= b.Keys;
    KeysBelow(a.Keys, b.Keys);
    SumBelow(a.Keys, b.Keys, token => SizeAt(a, token), token => SizeAt(b, token));
  }

  lemma {:induction false} KeysBelow<T>(s: set<T>, t: set<T>)
    requires s <= t
    ensures |s| <= |t|
    decreases |s|
  {
    if x :| x in s {
      KeysBelow(s - {x}, t - {x});
    }
  }

  /** One more document. */
  lemma {:induction false} OneMore(rows: map<Token, Envelope>, token: Token, document: Envelope)
    requires token !in rows
    ensures |rows[token := document]| == |rows| + 1
    ensures Bytes(rows[token := document]) == Bytes(rows) + Size(document)
  {
    var after := rows[token := document];
    assert after.Keys == rows.Keys + {token};
    SumWith(rows.Keys, token, t => SizeAt(after, t));
    SumBelow(rows.Keys, rows.Keys, t => SizeAt(after, t), t => SizeAt(rows, t));
    SumBelow(rows.Keys, rows.Keys, t => SizeAt(rows, t), t => SizeAt(after, t));
  }

  // ---------------------------------------------------------------- compare and swap

  predicate ExpiredAny(publisher: Publisher, document: Option<Envelope>) {
    document.Some? && publisher.Expired(document.value)
  }

  /** The conditions under which the helper looks at the current document at all. */
  predicate Admissible(publisher: Publisher, token: Token, expected: Option<Envelope>, desired: Option<Envelope>) {
    var current := publisher.Row(token);
    && DenyListFits(publisher.revoked)
    && (desired.Some? || expected.Some?)
    && !(token in publisher.revoked && desired.Some?)
    && !ExpiredAny(publisher, current)
    && !ExpiredAny(publisher, desired)
    && (current.Some? && desired.Some? ==>
          current.value.client == desired.value.client && current.value.expires == desired.value.expires)
  }

  /** `--migration-publish`: replace, create or delete one document, or refuse. */
  function CompareAndSwap(publisher: Publisher, token: Token, expected: Option<Envelope>, desired: Option<Envelope>)
    : (r: Option<Publisher>)
    // An accepted request leaves exactly the desired document, and nothing else moved.
    ensures r.Some? ==> r.value.Row(token) == desired
    ensures r.Some? ==> forall t | t != token :: r.value.Row(t) == publisher.Row(t)
    ensures r.Some? ==> r.value.revoked == publisher.revoked && r.value.due == publisher.due
                        && r.value.bootstrap == publisher.bootstrap
    // Competing content is never overwritten, and repeating an applied request is accepted.
    ensures Admissible(publisher, token, expected, desired) ==>
              (r.Some? <==> publisher.Row(token) == desired || publisher.Row(token) == expected)
    ensures publisher.Row(token) == desired && r.Some? ==> r.value == publisher
  {
    if !Admissible(publisher, token, expected, desired) then None
    else if publisher.Row(token) == desired then Some(publisher)
    else if publisher.Row(token) != expected then None
    else Some(publisher.With(token, desired))
  }

  /** Exactly when a request is accepted, read off the rows, the deny list and the elapsed stamps. */
  lemma {:induction false} AcceptedExactly(publisher: Publisher, token: Token, expected: Option<Envelope>, desired: Option<Envelope>)
    ensures CompareAndSwap(publisher, token, expected, desired).Some? <==>
            && 128 + 65 * |publisher.revoked| <= 2097152
            && (if token in publisher.rows then desired == Some(publisher.rows[token]) || expected == Some(publisher.rows[token])
                else desired.None? || expected.None?)
            && (desired.None? ==> expected.Some?)
            && (desired.Some? ==>
                  && token !in publisher.revoked
                  && (desired.value.expires == "" || desired.value.expires !in publisher.due))
            && (token in publisher.rows ==>
                  && (publisher.rows[token].expires == "" || publisher.rows[token].expires !in publisher.due)
                  && (desired.Some? ==>
                        && desired.value.client == publisher.rows[token].client
                        && desired.value.expires == publisher.rows[token].expires))
  {
  }

  // ---------------------------------------------------------------- a full namespace

  /** So many documents of other devices. */
  function Crowd(n: nat): map<Token, Envelope> {
    if n == 0 then map[] else Crowd(n - 1)[seq(n - 1, i => 't') := Envelope("other", "", "x")]
  }

  lemma {:induction false} CrowdRows(n: nat)
    ensures forall t | t in Crowd(n) :: |t| < n && Crowd(n)[t] == Envelope("other", "", "x") && forall c | c in t :: c == 't'
  {
    if n > 0 {
      CrowdRows(n - 1);
    }
  }

  lemma {:induction false} CrowdNext(n: nat)
    ensures seq(n, i => 't') !in Crowd(n)
    ensures Crowd(n + 1) == Crowd(n)[seq(n, i => 't') := Envelope("other", "", "x")]
  {
    CrowdRows(n);
    assert |seq(n, i => 't')| == n;
  }

  lemma {:induction false} CrowdCount(n: nat)
    ensures |Crowd(n)| == n && Bytes(Crowd(n)) == 68 * n
  {
    if n == 0 {
      NoBytes();
    } else {
      hide Bytes, Crowd;
      CrowdCount(n - 1);
      CrowdNext(n - 1);
      OneMore(Crowd(n - 1), seq(n - 1, i => 't'), Envelope("other", "", "x"));
    }
  }

  lemma {:induction false} NoBytes()
    ensures Bytes(map[]) == 0
  {
  }

  /** A publisher of exactly as many documents as a snapshot may have. */
  function FullPublisher(): Publisher {
    Publisher(Crowd(MAX_DOCUMENTS), {}, {}, 0)
  }

  lemma {:induction false} FullPublisherFits()
    ensures Snapshotable(FullPublisher()) && |FullPublisher().rows| == MAX_DOCUMENTS
  {
    hide Crowd;
    CrowdCount(MAX_DOCUMENTS);
  }

  lemma {:induction false} OutsideCrowd(n: nat, token: Token, i: nat)
    requires i < |token| && token[i] != 't'
    ensures token !in Crowd(n)
  {
    hide Crowd;
    CrowdRows(n);
    assert token[i] in token;
  }

  /** The helper takes one document more, and no snapshot can be taken any longer. */
  lemma {:induction false} OneTooMany(token: Token, i: nat, document: Envelope)
    requires i < |token| && token[i] != 't' && document.expires == ""
    ensures token !in FullPublisher().rows
    ensures CompareAndSwap(FullPublisher(), token, None, Some(document)).Some?
    ensures !Snapshotable(CompareAndSwap(FullPublisher(), token, None, Some(document)).value)
  {
    hide Crowd;
    FullPublisherFits();
    OutsideCrowd(MAX_DOCUMENTS, token, i);
    OneMore(FullPublisher().rows, token, document);
  }
}
