/**
 The proxy's dataset cache in front of a file that others replace at any moment.  Within
 one call the file is looked at up to three times; whole runs of calls are related to the
 life of the file.
 */
module DatasetCache {
  import opened Wrappers

  datatype Signature = Signature(device: int, inode: int, size: int, modified: int, changed: int)

  /** The file at one instant. */
  datatype Version = Missing | Present(signature: Signature, content: seq<byte>)

  /** Every state the file goes through, in order. */
  type Life = seq<Version>

  datatype Cache<T> = Cache(signature: Option<Signature>, cached: Option<T>)

  /** The instants at which one call looks at the file, and whether its read succeeds. */
  datatype Call = Call(first: nat, second: nat, third: nat, readable: bool)

  function SignatureAt(life: Life, t: nat): Option<Signature>
    requires t < |life|
  {
    match life[t]
    case Missing => None
    case Present(signature, _) => Some(signature)
  }

  function ParsedAt<T>(load: seq<byte> -> Option<T>, life: Life, t: nat): Option<T>
    requires t < |life|
  {
    match life[t]
    case Missing => None
    case Present(_, content) => load(content)
  }

  predicate Within(life: Life, call: Call) {
    call.first <= call.second <= call.third < |life|
  }

  /** One call: the cache afterwards, and the networks unless it refuses. */
  function Networks<T>(load: seq<byte> -> Option<T>, life: Life, cache: Cache<T>, call: Call)
    : (r: (Cache<T>, Option<T>))
    requires Within(life, call)
    ensures r.1.None? ==> r.0 == cache
    ensures r.1.Some? ==> r.0.signature == SignatureAt(life, call.first) && r.0.cached == r.1
  {
    var current := SignatureAt(life, call.first);
    if current.None? then (cache, None)
    else if cache.signature != current then
      var networks := if call.readable then ParsedAt(load, life, call.second) else None;
      if networks.None? || SignatureAt(life, call.third) != current then (cache, None)
      else (Cache(current, networks), networks)
    else if SignatureAt(life, call.second) != current then (cache, None)
    else (cache, cache.cached)
  }

  /** The answer is a refusal, or what the file held at an instant during the call. */
  ghost predicate Coherent<T>(load: seq<byte> -> Option<T>, life: Life, call: Call, networks: Option<T>) {
    networks.Some? ==> exists t: nat :: call.first <= t <= call.third && t < |life| && ParsedAt(load, life, t) == networks
  }

  /** Calls follow one another; the lock keeps them apart. */
  ghost predicate Ordered(life: Life, calls: seq<Call>, now: nat)
    decreases |calls|
  {
    calls == [] ||
    (now <= calls[0].first && Within(life, calls[0]) && Ordered(life, calls[1..], calls[0].third))
  }

  /** Every answer of the run is coherent. */
  ghost predicate CoherentRun<T>(load: seq<byte> -> Option<T>, life: Life, cache: Cache<T>, calls: seq<Call>, now: nat)
    requires Ordered(life, calls, now)
    decreases |calls|
  {
    calls == [] ||
    var (after, networks) := Networks(load, life, cache, calls[0]);
    Coherent(load, life, calls[0], networks)
    && CoherentRun(load, life, after, calls[1..], calls[0].third)
  }

  /**
   While a signature is in use, and until its last use, everything the file parses to is
   what it parses to under that signature.
   */
  ghost predicate Stable<T>(load: seq<byte> -> Option<T>, life: Life) {
    forall i: nat, j: nat, k: nat :: i <= j <= k < |life| ==> Settled(load, life, i, j, k)
  }

  ghost predicate Settled<T>(load: seq<byte> -> Option<T>, life: Life, i: nat, j: nat, k: nat)
    requires i <= j <= k < |life|
  {
    SignatureAt(life, i).Some? && SignatureAt(life, i) == SignatureAt(life, k) && ParsedAt(load, life, j).Some?
    ==> ParsedAt(load, life, k) == ParsedAt(load, life, j)
  }

  /** The cache holds what the file parsed to between two sightings of the cached signature. */
  ghost predicate Backed<T>(load: seq<byte> -> Option<T>, life: Life, cache: Cache<T>, now: nat) {
    cache.signature.Some? ==>
      exists i: nat, j: nat, k: nat :: BackedBy(load, life, cache, now, i, j, k)
  }

  ghost predicate BackedBy<T>(load: seq<byte> -> Option<T>, life: Life, cache: Cache<T>, now: nat, i: nat, j: nat, k: nat) {
    && i <= j <= k <= now && k < |life|
    && SignatureAt(life, i) == cache.signature == SignatureAt(life, k)
    && cache.cached.Some? && ParsedAt(load, life, j) == cache.cached
  }

  /** One call over a file with a stable life answers coherently and keeps the cache backed. */
  lemma {:induction false} CallCoherent<T>(load: seq<byte> -> Option<T>, life: Life, cache: Cache<T>, call: Call, now: nat)
    requires Stable(load, life) && Backed(load, life, cache, now) && Within(life, call) && now <= call.first
    ensures Coherent(load, life, call, Networks(load, life, cache, call).1)
    ensures Backed(load, life, Networks(load, life, cache, call).0, call.third)
  {
    hide Stable;
    var (after, networks) := Networks(load, life, cache, call);
    if networks.Some? && after != cache {
      assert BackedBy(load, life, after, call.third, call.first, call.second, call.third);
    } else if cache.signature.Some? {
      var i: nat, j: nat, k: nat :| BackedBy(load, life, cache, now, i, j, k);
      assert BackedBy(load, life, cache, call.third, i, j, k);
      if networks.Some? {
        StableAt(load, life, i, j, call.first);
        assert ParsedAt(load, life, call.first) == networks;
      }
    }
  }

  lemma {:induction false} StableAt<T>(load: seq<byte> -> Option<T>, life: Life, i: nat, j: nat, k: nat)
    requires Stable(load, life) && i <= j <= k < |life|
    ensures Settled(load, life, i, j, k)
  {
  }

  /** Over a stable life every run of calls, with any failed reloads in between, is coherent. */
  lemma {:induction false} RunCoherent<T>(load: seq<byte> -> Option<T>, life: Life, cache: Cache<T>, calls: seq<Call>, now: nat)
    requires Stable(load, life) && Backed(load, life, cache, now) && Ordered(life, calls, now)
    ensures CoherentRun(load, life, cache, calls, now)
    decreases |calls|
  {
    hide Stable, Backed, Coherent, Networks;
    if calls != [] {
      CallCoherent(load, life, cache, calls[0], now);
      RunCoherent(load, life, Networks(load, life, cache, calls[0]).0, calls[1..], calls[0].third);
    }
  }

  /** Two calls that see the same signature around and after instant `j` expose what was read at `j`. */
  lemma {:induction false} ExposedBy<T>(load: seq<byte> -> Option<T>, life: Life, i: nat, j: nat, k: nat) returns (calls: seq<Call>)
    requires i <= j <= k < |life|
    ensures Ordered(life, calls, 0)
    ensures CoherentRun(load, life, Cache(None, None), calls, 0) ==> Settled(load, life, i, j, k)
  {
    var reload, again := Call(i, j, k, true), Call(k, k, k, true);
    calls := [reload, again];
    assert calls[1..] == [again] && calls[1..][1..] == [];
    assert Ordered(life, [again], k);
    if CoherentRun(load, life, Cache(None, None), calls, 0) {
      var after := Networks(load, life, Cache(None, None), reload).0;
      assert CoherentRun(load, life, after, [again], k);
      assert Coherent(load, life, again, Networks(load, life, after, again).1);
    }
  }

  /** Starting empty, no timing of any calls makes the cache answer incoherently. */
  ghost predicate AlwaysCoherent<T>(load: seq<byte> -> Option<T>, life: Life) {
    forall calls | Ordered(life, calls, 0) :: CoherentRun(load, life, Cache(None, None), calls, 0)
  }

  lemma {:induction false} CoherentExactlyWhenStable<T>(load: seq<byte> -> Option<T>, life: Life)
    ensures AlwaysCoherent(load, life) <==> Stable(load, life)
  {
    hide CoherentRun, Ordered, Settled;
    if Stable(load, life) {
      forall calls | Ordered(life, calls, 0)
        ensures CoherentRun(load, life, Cache(None, None), calls, 0)
      {
        RunCoherent(load, life, Cache(None, None), calls, 0);
      }
    }
    if AlwaysCoherent(load, life) {
      forall i: nat, j: nat, k: nat | i <= j <= k < |life|
        ensures Settled(load, life, i, j, k)
      {
        var calls := ExposedBy(load, life, i, j, k);
      }
    }
  }

  /** A signature names one content, and is never seen again once it was replaced. */
  ghost predicate NeverReturns(life: Life) {
    forall i: nat, j: nat, k: nat ::
      i <= j <= k < |life| && SignatureAt(life, i).Some? && SignatureAt(life, i) == SignatureAt(life, k) ==> life[j] == life[k]
  }

  lemma {:induction false} NeverReturnsIsStable<T>(load: seq<byte> -> Option<T>, life: Life)
    requires NeverReturns(life)
    ensures Stable(load, life)
  {
    forall i: nat, j: nat, k: nat | i <= j <= k < |life|
      ensures Settled(load, life, i, j, k)
    {
      assert SignatureAt(life, i).Some? && SignatureAt(life, i) == SignatureAt(life, k) ==> life[j] == life[k];
    }
  }

  /**
   That a signature names one content is not enough.  Looking follows symbolic links: when the path
   is a link that is pointed at another file and back between the two looks of a reload, the very
   signature returns, the change time of neither file having moved, and the next call answers with
   the foreign content although the file shows nothing but its own.
   */
  lemma {:induction false} ReplacedAndPutBack<T>(load: seq<byte> -> Option<T>, here: Version, there: Version)
      returns (calls: seq<Call>)
    requires here.Present? && there.Present? && here.signature != there.signature
    requires load(there.content).Some? && load(there.content) != load(here.content)
    ensures Ordered([here, there, here], calls, 0) && |calls| == 2
    ensures calls[1] == Call(2, 2, 2, true)
    ensures var after := Networks(load, [here, there, here], Cache(None, None), calls[0]).0;
            Networks(load, [here, there, here], after, calls[1]).1 == load(there.content)
    ensures !CoherentRun(load, [here, there, here], Cache(None, None), calls, 0)
  {
    var life := [here, there, here];
    var reload, again := Call(0, 1, 2, true), Call(2, 2, 2, true);
    calls := [reload, again];
    assert calls[1..] == [again] && calls[1..][1..] == [];
    assert Ordered(life, [again], 2);
    var after := Networks(load, life, Cache(None, None), reload).0;
    assert after == Cache(Some(here.signature), load(there.content));
    assert !Coherent(load, life, again, Networks(load, life, after, again).1);
    assert !CoherentRun(load, life, after, [again], 2);
  }

  // ---------------------------------------------------------------- when a call answers

  predicate Shows(version: Version, signature: Signature) {
    version.Present? && version.signature == signature
  }

  /**
   Exactly when a call answers, and what.  The first look finds the file; if its signature is the
   cached one, a second look has to agree and the cached networks are the answer; otherwise the
   read has to parse and the look after it to agree, and what was read is answered and cached.
   */
  lemma {:induction false} AnswersExactly<T>(load: seq<byte> -> Option<T>, life: Life, cache: Cache<T>, call: Call)
    requires Within(life, call)
    ensures var (after, networks) := Networks(load, life, cache, call);
            match life[call.first]
            case Missing => networks.None?
            case Present(signature, _) =>
              if cache.signature == Some(signature) then
                && (networks.Some? <==> Shows(life[call.second], signature) && cache.cached.Some?)
                && (networks.Some? ==> networks == cache.cached && after == cache)
              else
                && (networks.Some? <==>
                      && call.readable && life[call.second].Present? && load(life[call.second].content).Some?
                      && Shows(life[call.third], signature))
                && (networks.Some? ==> networks == load(life[call.second].content) && after == Cache(Some(signature), networks))
  {
  }

  /** A readable file that stays what it is during a call is answered with its own content, whatever is cached of other signatures. */
  lemma {:induction false} QuietFileAnswers<T>(load: seq<byte> -> Option<T>, life: Life, cache: Cache<T>, call: Call, now: nat)
    requires Within(life, call) && now <= call.first && call.readable && life[call.first].Present?
    requires life[call.second] == life[call.first] && life[call.third] == life[call.first]
    requires Stable(load, life) && Backed(load, life, cache, now) && load(life[call.first].content).Some?
    ensures Networks(load, life, cache, call).1 == load(life[call.first].content)
    ensures Networks(load, life, cache, call).0 == Cache(Some(life[call.first].signature), load(life[call.first].content))
  {
    AnswersExactly(load, life, cache, call);
    hide Networks, Stable;
    if cache.signature == Some(life[call.first].signature) {
      var i: nat, j: nat, k: nat :| BackedBy(load, life, cache, now, i, j, k);
      StableAt(load, life, i, j, call.first);
    }
  }

  // ---------------------------------------------------------------- the store

  class DatasetStore<T(==)> {
    const load: seq<byte> -> Option<T>
    const life: Life
    var now: nat
    var signature: Option<Signature>
    var cached: Option<T>

    ghost predicate Valid()
      reads this
    {
      now < |life|
    }

    /** Holds initially and after every call, for a file with a stable life. */
    ghost predicate Sound()
      reads this
    {
      Backed(load, life, Current(), now)
    }

    ghost function Current(): Cache<T>
      reads this
    {
      Cache(signature, cached)
    }

    constructor (load: seq<byte> -> Option<T>, life: Life)
      requires |life| > 0
      ensures Valid() && Sound() && this.load == load && this.life == life && Current() == Cache(None, None)
    {
      this.load, this.life, now, signature, cached := load, life, 0, None, None;
    }

    /** Time passes; the file may be replaced any number of times. */
    method Wait()
      requires Valid()
      modifies this`now
      ensures Valid() && old(now) <= now
    {
      var later: nat := *;
      if now < later < |life| {
        now := later;
      }
    }

    /** Look at the file's signature. */
    method Stat() returns (seen: Option<Signature>)
      requires Valid()
      modifies this`now
      ensures Valid() && old(now) <= now && seen == SignatureAt(life, now)
    {
      Wait();
      seen := SignatureAt(life, now);
    }

    method Read() returns (networks: Option<T>, readable: bool)
      requires Valid()
      modifies this`now
      ensures Valid() && old(now) <= now
      ensures networks == if readable then ParsedAt(load, life, now) else None
    {
      Wait();
      readable := *;
      networks := if readable then ParsedAt(load, life, now) else None;
    }

    /**
     One call does what `Networks` says of some instants since the previous one.  Hence it
     answers coherently for a stable file, and a refusal leaves the cache as it was.
     */
    method CurrentNetworks() returns (networks: Option<T>, ghost call: Call)
      requires Valid()
      modifies this
      ensures Valid() && old(now) <= call.first && Within(life, call) && call.third == now
      ensures (Current(), networks) == Networks(load, life, old(Current()), call)
      ensures networks.None? ==> Current() == old(Current())
      ensures Stable(load, life) && old(Sound()) ==> Sound() && Coherent(load, life, call, networks)
    {
      hide Stable, Backed, Coherent;
      ghost var before, start := Current(), now;
      var current := Stat();
      call := Call(now, now, now, true);
      networks := None;
      if current.Some? && current != signature {
        var loaded, readable := Read();
        call := call.(second := now, third := now, readable := readable);
        if loaded.Some? {
          var confirmed := Stat();
          call := call.(third := now);
          if confirmed == current {
            cached, signature, networks := loaded, confirmed, loaded;
          }
        }
      } else if current.Some? {
        var again := Stat();
        call := call.(second := now, third := now);
        if again == current {
          networks := cached;
        }
      }
      if Stable(load, life) && Backed(load, life, before, start) {
        CallCoherent(load, life, before, call, start);
      }
    }
  }
}
