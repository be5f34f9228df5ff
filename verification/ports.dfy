/** The ephemeral-port pool the request helper claims ports from (the
    `harbor` allocator): ports in `[min, max]` handed out under a claim
    identifier and handed back on release. The allocator's own algorithm is
    not part of this model; it is modelled as "the lowest port in range
    that is neither claimed nor in use elsewhere". */
module PortPool {
  import opened Wrappers

  /** A claim identifier (the request helper uses a fresh uuid per claim). */
  type Pid = nat

  datatype Pool = Pool(min: nat, max: nat, claims: map<Pid, nat>)

  function ClaimedPorts(pool: Pool): set<nat> {
    pool.claims.Values
  }

  /** Every claimed port is in range, and no port is claimed twice. */
  ghost predicate Valid(pool: Pool) {
    && (forall pid :: pid in pool.claims ==> pool.min <= pool.claims[pid] <= pool.max)
    && (forall a, b :: a in pool.claims && b in pool.claims && a != b ==> pool.claims[a] != pool.claims[b])
  }

  /** The lowest port in `[lo, max]` outside `taken`, if any. */
  function LowestFree(lo: nat, max: nat, taken: set<nat>): (r: Option<nat>)
    ensures r.Some? ==> lo <= r.value <= max && r.value !in taken
    ensures r.Some? ==> forall q :: lo <= q < r.value ==> q in taken
    ensures r.None? ==> forall q :: lo <= q <= max ==> q in taken
    decreases max + 1 - lo
  {
    if lo > max then None
    else if lo !in taken then Some(lo)
    else LowestFree(lo + 1, max, taken)
  }

  const NoFreePort := "no free port in range"

  /** `harbor.claim(pid, cb)`: a port neither claimed in the pool nor in
      `busy` (held by something outside the pool) is recorded under `pid`;
      when every port in range is taken, the claim fails. */
  function Claim(pool: Pool, pid: Pid, busy: set<nat>): (r: Result<(Pool, nat)>)
    ensures r.Ok? ==>
      var (pool', port) := r.value;
      && pool.min <= port <= pool.max
      && port !in ClaimedPorts(pool) && port !in busy
      && pool' == pool.(claims := pool.claims[pid := port])
    ensures r.Err? ==>
      r.error == NoFreePort && forall q :: pool.min <= q <= pool.max ==> q in ClaimedPorts(pool) + busy
  {
    match LowestFree(pool.min, pool.max, ClaimedPorts(pool) + busy)
    case Some(port) => Ok((pool.(claims := pool.claims[pid := port]), port))
    case None => Err(NoFreePort)
  }

  /** `harbor.release(pid)`: the port claimed under `pid`, if any, becomes free. */
  function Release(pool: Pool, pid: Pid): (r: Pool)
    ensures r.min == pool.min && r.max == pool.max
    ensures pid !in r.claims
    ensures forall p :: p != pid ==> (p in r.claims <==> p in pool.claims)
    ensures forall p :: p in r.claims ==> r.claims[p] == pool.claims[p]
  {
    pool.(claims := pool.claims - {pid})
  }

  /** A claim under a new identifier keeps the pool valid. */
  lemma ClaimPreservesValid(pool: Pool, pid: Pid, busy: set<nat>)
    requires Valid(pool) && pid !in pool.claims
    ensures Claim(pool, pid, busy).Ok? ==> Valid(Claim(pool, pid, busy).value.0)
  {
  }

  lemma ReleasePreservesValid(pool: Pool, pid: Pid)
    requires Valid(pool)
    ensures Valid(Release(pool, pid))
  {
  }

  /** Releasing what was just claimed under a new identifier restores the pool exactly. */
  lemma ReleaseUndoesClaim(pool: Pool, pid: Pid, busy: set<nat>)
    requires pid !in pool.claims
    requires Claim(pool, pid, busy).Ok?
    ensures Release(Claim(pool, pid, busy).value.0, pid) == pool
  {
  }
}
