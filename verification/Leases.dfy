/**
 The in-memory lease store. Every operation is two critical sections, a prune and a locked update, and the sections of
 concurrent operations interleave freely; what is proved here holds for every interleaving of such sections.
 */
module Leases {

  datatype Lease = Lease(id: string, expiresAt: int)

  type Claims = map<string, Lease>

  /** One critical section. A claim draws its id, and an expiry is the clock reading plus the time to live. */
  datatype Section =
    | Prune(now: int)
    | Claim(key: string, id: string, expiresAt: int)
    | Renew(id: string, expiresAt: int)
    | Release(id: string)

  ghost predicate Held(c: Claims, id: string) {
    exists key :: key in c && c[key].id == id
  }

  function Pruned(c: Claims, now: int): Claims {
    map key | key in c && c[key].expiresAt > now :: c[key]
  }

  ghost predicate Renewed(c: Claims, key: string, id: string, expiresAt: int, d: Claims) {
    key in c && c[key].id == id && d == c[key := Lease(id, expiresAt)]
  }

  ghost predicate Released(c: Claims, key: string, id: string, d: Claims) {
    key in c && c[key].id == id && d == c - {key}
  }

  /** The section `s` may turn the claims `c` into `d`. */
  ghost predicate Step(c: Claims, s: Section, d: Claims) {
    match s
    case Prune(now) => d == Pruned(c, now)
    case Claim(key, id, expiresAt) => d == if key in c then c else c[key := Lease(id, expiresAt)]
    case Renew(id, expiresAt) => if Held(c, id) then exists key :: Renewed(c, key, id, expiresAt, d) else d == c
    case Release(id) => if Held(c, id) then exists key :: Released(c, key, id, d) else d == c
  }

  class CoordinationStore {
    var claims: Claims

    constructor ()
      ensures claims == map[]
    {
      claims := map[];
    }

    method PruneExpired(now: int)
      modifies this
      ensures Step(old(claims), Prune(now), claims)
    {
      claims := map key | key in claims && claims[key].expiresAt > now :: claims[key];
    }

    /** The locked part of a claim: an entry for the key refuses it, expired or not. */
    method ClaimTrigger(key: string, id: string, now: int, ttl: nat) returns (granted: bool)
      modifies this
      ensures Step(old(claims), Claim(key, id, now + ttl), claims)
      ensures granted <==> key !in old(claims)
    {
      if key in claims { return false; }
      claims := claims[key := Lease(id, now + ttl)];
      return true;
    }

    /** The locked part of a renewal: the map may be searched in any order. */
    method RenewClaim(id: string, now: int, ttl: nat) returns (renewed: bool)
      modifies this
      ensures Step(old(claims), Renew(id, now + ttl), claims)
      ensures renewed <==> Held(old(claims), id)
    {
      var found := set key | key in claims && claims[key].id == id;
      assert forall key :: key in claims && claims[key].id == id ==> key in found;
      if found == {} { return false; }
      var key :| key in found;
      claims := claims[key := Lease(id, now + ttl)];
      assert Renewed(old(claims), key, id, now + ttl, claims);
      return true;
    }

    /** The locked part of a release. */
    method ReleaseClaim(id: string)
      modifies this
      ensures Step(old(claims), Release(id), claims)
    {
      var found := set key | key in claims && claims[key].id == id;
      assert forall key :: key in claims && claims[key].id == id ==> key in found;
      if found == {} { return; }
      var key :| key in found;
      claims := claims - {key};
      assert Released(old(claims), key, id, claims);
    }
  }

  /******* Interleavings *******/

  /** The sections of any number of operations, in the order they got the lock; section `i` found `states[i]`. */
  ghost predicate Trace(steps: seq<Section>, states: seq<Claims>) {
    && |states| == |steps| + 1 && states[0] == map[]
    && (forall i :: 0 <= i < |steps| ==> Step(states[i], steps[i], states[i + 1]))
    && FreshIds(steps)
  }

  /** No two claims draw the same id. */
  ghost predicate FreshIds(steps: seq<Section>) {
    forall i, j :: 0 <= i < j < |steps| && steps[i].Claim? && steps[j].Claim? ==> steps[i].id != steps[j].id
  }

  lemma StepAt(steps: seq<Section>, states: seq<Claims>, i: nat)
    requires Trace(steps, states) && i < |steps|
    ensures Step(states[i], steps[i], states[i + 1])
  {
  }

  /** Every entry was put under its key by the claim that drew its id. */
  lemma {:induction false} EntryWasClaimed(steps: seq<Section>, states: seq<Claims>, j: nat, key: string)
    returns (i: nat)
    requires Trace(steps, states) && j <= |steps| && key in states[j]
    ensures i < j && steps[i].Claim? && steps[i].key == key && steps[i].id == states[j][key].id
    decreases j
  {
    StepAt(steps, states, j - 1);
    var c, s := states[j - 1], steps[j - 1];
    if s.Claim? && s.key == key && key !in c {
      i := j - 1;
    } else {
      assert key in c && c[key].id == states[j][key].id;
      i := EntryWasClaimed(steps, states, j - 1, key);
    }
  }

  /** An id is held, if at all, under the key it was drawn for. */
  lemma HeldUnderOwnKey(steps: seq<Section>, states: seq<Claims>, i: nat, j: nat, key: string)
    requires Trace(steps, states) && i < |steps| && j <= |steps| && steps[i].Claim?
    requires key in states[j] && states[j][key].id == steps[i].id
    ensures key == steps[i].key && i < j
  {
    var k := EntryWasClaimed(steps, states, j, key);
    assert k == i;
  }

  ghost predicate OnlyUnder(c: Claims, key: string, id: string) {
    forall k :: k in c && c[k].id == id ==> k == key
  }

  lemma HeldOnlyThere(steps: seq<Section>, states: seq<Claims>, i: nat, j: nat)
    requires Trace(steps, states) && i < |steps| && j <= |steps| && steps[i].Claim?
    ensures OnlyUnder(states[j], steps[i].key, steps[i].id)
  {
    var c := states[j];
    forall k | k in c && c[k].id == steps[i].id ensures k == steps[i].key {
      HeldUnderOwnKey(steps, states, i, j, k);
    }
  }

  /** When the claim that section `i` made runs out, as its owner knows it before section `j`. */
  function ExpiryBefore(steps: seq<Section>, i: nat, j: nat): int
    requires i < j <= |steps| && steps[i].Claim?
    decreases j
  {
    if j == i + 1 then steps[i].expiresAt
    else if steps[j - 1].Renew? && steps[j - 1].id == steps[i].id then steps[j - 1].expiresAt
    else ExpiryBefore(steps, i, j - 1)
  }

  /** From section `i` to section `j` the claim was neither released nor met by a prune after its expiry. */
  ghost predicate Undisturbed(steps: seq<Section>, i: nat, j: nat)
    requires i < j <= |steps| && steps[i].Claim?
  {
    forall m :: i < m < j ==>
      && steps[m] != Release(steps[i].id)
      && (steps[m].Prune? ==> steps[m].now < ExpiryBefore(steps, i, m))
  }

  /**
   Exclusion: a granted claim that is not released and outlives every prune keeps its key, with the expiry its owner
   last asked for, so no other claim on the key is granted, however the sections interleave.
   */
  lemma {:induction false} LeaseExcludes(steps: seq<Section>, states: seq<Claims>, i: nat, j: nat)
    requires Trace(steps, states) && i < j <= |steps|
    requires steps[i].Claim? && steps[i].key !in states[i] && Undisturbed(steps, i, j)
    ensures steps[i].key in states[j]
    ensures states[j][steps[i].key] == Lease(steps[i].id, ExpiryBefore(steps, i, j))
    ensures j < |steps| && steps[j].Claim? && steps[j].key == steps[i].key ==> states[j + 1] == states[j]
    decreases j
  {
    hide Step, FreshIds;
    StepAt(steps, states, j - 1);
    if i + 1 < j {
      LeaseExcludes(steps, states, i, j - 1);
      HeldOnlyThere(steps, states, i, j - 1);
      StepKeeps(states[j - 1], steps[j - 1], states[j], steps[i].key);
    } else {
      JustClaimed(states[i], steps[i], states[j]);
    }
    if j < |steps| {
      StepAt(steps, states, j);
      Refused(states[j], steps[j], states[j + 1]);
    }
  }

  lemma JustClaimed(c: Claims, s: Section, d: Claims)
    requires Step(c, s, d) && s.Claim? && s.key !in c
    ensures d == c[s.key := Lease(s.id, s.expiresAt)]
  {
  }

  lemma Refused(c: Claims, s: Section, d: Claims)
    requires Step(c, s, d)
    ensures s.Claim? && s.key in c ==> d == c
  {
  }

  /** What one section does to an entry whose id is held under no other key. */
  lemma StepKeeps(c: Claims, s: Section, d: Claims, key: string)
    requires Step(c, s, d) && key in c
    requires OnlyUnder(c, key, c[key].id)
    requires s != Release(c[key].id)
    requires s.Prune? ==> s.now < c[key].expiresAt
    ensures key in d && d[key].id == c[key].id
    ensures d[key].expiresAt == if s.Renew? && s.id == c[key].id then s.expiresAt else c[key].expiresAt
  {
    if s.Renew? && Held(c, s.id) {
      var k :| Renewed(c, k, s.id, s.expiresAt, d);
    }
    if s.Release? && Held(c, s.id) {
      var k :| Released(c, k, s.id, d);
    }
  }

  /** An id that lost its key never gets it, or any other, back. */
  lemma {:induction false} LostForGood(steps: seq<Section>, states: seq<Claims>, i: nat, j: nat, k: nat)
    requires Trace(steps, states) && i < j <= k <= |steps| && steps[i].Claim? && !Held(states[j], steps[i].id)
    ensures !Held(states[k], steps[i].id)
    decreases k
  {
    if j < k {
      LostForGood(steps, states, i, j, k - 1);
      StepAt(steps, states, k - 1);
      NotRegained(states[k - 1], steps[k - 1], states[k], steps[i].id);
    }
  }

  lemma NotRegained(c: Claims, s: Section, d: Claims, id: string)
    requires Step(c, s, d) && !Held(c, id) && (s.Claim? ==> s.id != id)
    ensures !Held(d, id)
  {
    if key :| key in d && d[key].id == id {
      assert key in c ==> c[key].id != id;
    }
  }

  /** Nothing else ends a lease: its id is held exactly as long as it is undisturbed. */
  lemma {:induction false} HeldIffUndisturbed(steps: seq<Section>, states: seq<Claims>, i: nat, j: nat)
    requires Trace(steps, states) && i < j <= |steps| && steps[i].Claim? && steps[i].key !in states[i]
    ensures Held(states[j], steps[i].id) <==> Undisturbed(steps, i, j)
    decreases j
  {
    hide Step, FreshIds;
    if Undisturbed(steps, i, j) {
      LeaseExcludes(steps, states, i, j);
    } else {
      HeldIffUndisturbed(steps, states, i, j - 1);
      if Undisturbed(steps, i, j - 1) {
        LeaseExcludes(steps, states, i, j - 1);
        HeldOnlyThere(steps, states, i, j - 1);
        StepAt(steps, states, j - 1);
        StepEnds(states[j - 1], steps[j - 1], states[j], steps[i].key);
      } else {
        LostForGood(steps, states, i, j - 1, j);
      }
    }
  }

  lemma StepEnds(c: Claims, s: Section, d: Claims, key: string)
    requires Step(c, s, d) && key in c && OnlyUnder(c, key, c[key].id)
    requires s == Release(c[key].id) || (s.Prune? && s.now >= c[key].expiresAt)
    ensures !Held(d, c[key].id)
  {
    if s.Release? {
      assert Held(c, s.id);
      var k :| Released(c, k, s.id, d);
    }
  }

  /** A stale id, whose key went to a successor or to nobody, alters nothing: neither renewing nor releasing it. */
  lemma StaleIdHarmless(steps: seq<Section>, states: seq<Claims>, i: nat, j: nat, k: nat)
    requires Trace(steps, states) && i < j <= k < |steps| && steps[i].Claim?
    requires steps[i].key !in states[j] || states[j][steps[i].key].id != steps[i].id
    requires steps[k].Release? || steps[k].Renew?
    requires steps[k].id == steps[i].id
    ensures states[k + 1] == states[k]
  {
    if Held(states[j], steps[i].id) {
      var key :| key in states[j] && states[j][key].id == steps[i].id;
      HeldUnderOwnKey(steps, states, i, j, key);
      assert false;
    }
    LostForGood(steps, states, i, j, k);
    StepAt(steps, states, k);
  }
}
