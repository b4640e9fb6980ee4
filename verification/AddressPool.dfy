/**
 Peer addresses of one AmneziaWG node: claims, the sorted sweep for the least free address,
 and how often an address is held.
 */
module AddressPool {
  import opened Wrappers

  /** The addresses from `start` to `end`, both included. */
  datatype Claim = Claim(start: nat, end: nat)

  predicate Covers(claim: Claim, n: nat) {
    claim.start <= n <= claim.end
  }

  predicate Covered(claims: seq<Claim>, n: nat) {
    exists i :: 0 <= i < |claims| && Covers(claims[i], n)
  }

  predicate Before(a: Claim, b: Claim) {
    a.start < b.start || (a.start == b.start && a.end <= b.end)
  }

  ghost predicate InOrder(claims: seq<Claim>) {
    forall i, j | 0 <= i < j < |claims| :: claims[i].start <= claims[j].start
  }

  // ---------------------------------------------------------------- sorting

  function Insert(claim: Claim, claims: seq<Claim>): seq<Claim> {
    if claims == [] || Before(claim, claims[0]) then [claim] + claims
    else [claims[0]] + Insert(claim, claims[1..])
  }

  function Sorted(claims: seq<Claim>): seq<Claim> {
    if claims == [] then [] else Insert(claims[0], Sorted(claims[1..]))
  }

  lemma {:induction false} InsertKeeps(claim: Claim, claims: seq<Claim>)
    ensures forall c :: c in Insert(claim, claims) <==> c == claim || c in claims
    ensures InOrder(claims) ==> InOrder(Insert(claim, claims))
  {
    if claims == [] || Before(claim, claims[0]) {
      InsertFirst(claim, claims);
    } else {
      hide InOrder;
      InsertKeeps(claim, claims[1..]);
      InsertLater(claims[0], claims[1..], Insert(claim, claims[1..]), claim);
      assert claims == [claims[0]] + claims[1..];
    }
  }

  lemma {:induction false} InsertFirst(claim: Claim, claims: seq<Claim>)
    requires claims == [] || claim.start <= claims[0].start
    ensures InOrder(claims) ==> InOrder([claim] + claims)
  {
  }

  lemma {:induction false} InsertLater(head: Claim, rest: seq<Claim>, inserted: seq<Claim>, claim: Claim)
    requires head.start <= claim.start && (InOrder(rest) ==> InOrder(inserted))
    requires forall c | c in inserted :: c == claim || c in rest
    ensures InOrder([head] + rest) ==> InOrder([head] + inserted)
  {
    if InOrder([head] + rest) {
      forall i | 0 <= i < |rest| ensures head.start <= rest[i].start {
        assert ([head] + rest)[0] == head && ([head] + rest)[i + 1] == rest[i];
      }
      forall i, j | 0 <= i < j < |rest| ensures rest[i].start <= rest[j].start {
        assert ([head] + rest)[i + 1] == rest[i] && ([head] + rest)[j + 1] == rest[j];
      }
      forall i | 0 <= i < |inserted| ensures head.start <= inserted[i].start {
        assert inserted[i] in inserted;
      }
    }
  }

  lemma {:induction false} SortedKeeps(claims: seq<Claim>)
    ensures forall c :: c in Sorted(claims) <==> c in claims
    ensures InOrder(Sorted(claims))
  {
    if claims != [] {
      hide Insert, InOrder;
      SortedKeeps(claims[1..]);
      InsertKeeps(claims[0], Sorted(claims[1..]));
      assert claims == [claims[0]] + claims[1..];
    }
  }

  lemma {:induction false} SortedCovers(claims: seq<Claim>, n: nat)
    ensures Covered(Sorted(claims), n) <==> Covered(claims, n)
  {
    hide Sorted, InOrder;
    SortedKeeps(claims);
    var sorted := Sorted(claims);
    if Covered(claims, n) {
      var i :| 0 <= i < |claims| && Covers(claims[i], n);
      assert claims[i] in sorted;
    }
    if Covered(sorted, n) {
      var i :| 0 <= i < |sorted| && Covers(sorted[i], n);
      assert sorted[i] in claims;
    }
  }

  // ---------------------------------------------------------------- the sweep

  /** `n` is the first address from `first` on that no claim covers. */
  ghost predicate LeastFree(claims: seq<Claim>, first: nat, n: nat) {
    first <= n && !Covered(claims, n) && forall m: nat | first <= m < n :: Covered(claims, m)
  }

  lemma {:induction false} CoveredByMore(claims: seq<Claim>, i: nat, n: nat)
    requires i < |claims|
    ensures Covered(claims[..i + 1], n) <==> Covered(claims[..i], n) || Covers(claims[i], n)
  {
    if Covered(claims[..i], n) {
      var k :| 0 <= k < i && Covers(claims[..i][k], n);
      assert claims[..i + 1][k] == claims[..i][k];
    }
    if Covers(claims[i], n) {
      assert claims[..i + 1][i] == claims[i];
    }
    if Covered(claims[..i + 1], n) {
      var k :| 0 <= k <= i && Covers(claims[..i + 1][k], n);
      assert k < i ==> claims[..i][k] == claims[..i + 1][k];
    }
  }

  /** One claim further, over claims in order of their starts, the sweep still has the least free address. */
  lemma {:induction false} SweepStep(claims: seq<Claim>, i: nat, first: nat, candidate: nat)
    requires i < |claims| && InOrder(claims) && LeastFree(claims[..i], first, candidate)
    ensures LeastFree(claims[..i + 1], first, if Covers(claims[i], candidate) then claims[i].end + 1 else candidate)
  {
    var next := if Covers(claims[i], candidate) then claims[i].end + 1 else candidate;
    forall m: nat
      ensures Covered(claims[..i + 1], m) <==> Covered(claims[..i], m) || Covers(claims[i], m)
    {
      CoveredByMore(claims, i, m);
    }
    forall k | 0 <= k < i
      ensures next != candidate ==> !Covers(claims[..i][k], next)
    {
      assert !Covers(claims[..i][k], candidate);
      assert claims[..i][k].start <= claims[i].start;
    }
  }

  /** Where the sweep over claims ends, starting at `first`. */
  function Swept(claims: seq<Claim>, first: nat): nat {
    if claims == [] then first
    else
      var candidate := Swept(claims[..|claims| - 1], first);
      var last := claims[|claims| - 1];
      if Covers(last, candidate) then last.end + 1 else candidate
  }

  /** A free address of a pool whose hosts run from `first` to `last`, or None. */
  function FreeAddress(claims: seq<Claim>, first: nat, last: int): Option<nat> {
    var candidate := Swept(Sorted(claims), first);
    if candidate > last then None else Some(candidate)
  }

  method Sweep(claims: seq<Claim>, first: nat, last: int) returns (address: Option<nat>)
    ensures address == FreeAddress(claims, first, last)
  {
    hide Sorted, Covers;
    var sorted := Sorted(claims);
    var candidate: nat := first;
    for i := 0 to |sorted|
      invariant candidate == Swept(sorted[..i], first)
    {
      assert sorted[..i + 1][..i] == sorted[..i];
      if Covers(sorted[i], candidate) {
        candidate := sorted[i].end + 1;
      }
    }
    assert sorted[..|sorted|] == sorted;
    address := if candidate > last then None else Some(candidate);
  }

  lemma {:induction false} SweptLeast(claims: seq<Claim>, first: nat)
    requires InOrder(claims)
    ensures LeastFree(claims, first, Swept(claims, first))
  {
    hide LeastFree, Covers;
    if claims == [] {
      NothingCovered(first);
    } else {
      var i := |claims| - 1;
      SweptLeast(claims[..i], first);
      SweepStep(claims, i, first, Swept(claims[..i], first));
      assert claims[..i + 1] == claims;
    }
  }

  lemma {:induction false} NothingCovered(first: nat)
    ensures LeastFree([], first, first)
  {
  }

  /** The sweep finds the least free address of the pool, and nothing iff every one of them is claimed. */
  lemma {:induction false} LeastFreeAddress(claims: seq<Claim>, first: nat, last: int)
    ensures FreeAddress(claims, first, last).Some? ==>
              var n := FreeAddress(claims, first, last).value;
              n <= last && LeastFree(claims, first, n)
    ensures FreeAddress(claims, first, last).None? <==> forall n: nat | first <= n <= last :: Covered(claims, n)
  {
    hide Covered, Sorted, Swept, InOrder;
    SortedKeeps(claims);
    SweptLeast(Sorted(claims), first);
    forall m: nat ensures Covered(Sorted(claims), m) <==> Covered(claims, m) {
      SortedCovers(claims, m);
    }
  }
}
