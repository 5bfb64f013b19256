/** The cache of femur and tibia angles computed by the inverse-kinematics solver, keyed by
    the effective coxa angle (the coxa sweep angle plus a per-leg offset). */
module AngleCache {
  import opened Legs

  /** Femur and tibia angles, in degrees, that keep body height and foot position. */
  datatype FemurTibia = FemurTibia(femur: real, tibia: real)

  /** Result of a lookup: the stored pair, or the "error" sentinel of a miss. */
  datatype CacheResult = Found(angles: FemurTibia) | Error

  type Cache = map<real, FemurTibia>

  const AmountOffset: int := 20

  /** Coxa offset used inside the kinematics: only legs 2 and 5 have tibias in line with the
      femur pivot; the others are fudged by 20 degrees one way or the other. */
  function CoxaAngleOffset(leg: Leg): (r: int)
    ensures r == 0 <==> leg == 2 || leg == 5
    ensures r == 0 || r == AmountOffset || r == -AmountOffset
  {
    match leg
    case 1 => -AmountOffset
    case 2 => 0
    case 3 => AmountOffset
    case 4 => AmountOffset
    case 5 => 0
    case _ => -AmountOffset
  }

  /** Opposite legs (1 and 6, 2 and 5, 3 and 4) have the same offset. */
  lemma OffsetsMirror(leg: Leg)
    ensures CoxaAngleOffset(leg) == CoxaAngleOffset(7 - leg)
  {
  }

  /** The cache key for a leg at a coxa angle: the coxa angle itself only for the middle
      legs, shifted by the leg's offset for the others. */
  function CacheKey(leg: Leg, coxaAngle: real): (key: real)
    ensures key == coxaAngle <==> leg == 2 || leg == 5
  {
    coxaAngle + CoxaAngleOffset(leg) as real
  }

  /** Cache lookup: a hit gives the stored pair, a miss the error sentinel. */
  function Get(cache: Cache, key: real): (r: CacheResult)
    ensures r.Found? <==> key in cache
    ensures r.Found? ==> r.angles == cache[key]
  {
    if key !in cache then Error else Found(cache[key])
  }

  /** Cache store: the key maps to the new pair, whatever it held before; no other key changes. */
  function Put(cache: Cache, key: real, angles: FemurTibia): (c: Cache)
    ensures c.Keys == cache.Keys + {key}
    ensures c[key] == angles
    ensures forall k :: k in cache && k != key ==> c[k] == cache[k]
  {
    cache[key := angles]
  }

  /** A lookup after a store finds what was stored, and lookups of other keys are unaffected. */
  lemma GetAfterPut(cache: Cache, key: real, angles: FemurTibia, other: real)
    ensures Get(Put(cache, key, angles), key) == Found(angles)
    ensures other != key ==> Get(Put(cache, key, angles), other) == Get(cache, other)
  {
  }

  /** Every entry is the solver's answer for its key. */
  ghost predicate Coherent(cache: Cache, solve: real -> FemurTibia)
  {
    forall k :: k in cache ==> cache[k] == solve(k)
  }

  /** Storing the solver's answer keeps the cache coherent, and a coherent cache answers every
      hit with what the solver would have computed: the cache is invisible to its callers. */
  lemma CoherentCacheIsTransparent(cache: Cache, solve: real -> FemurTibia, key: real)
    requires Coherent(cache, solve)
    ensures Coherent(Put(cache, key, solve(key)), solve)
    ensures Get(cache, key).Found? ==> Get(cache, key).angles == solve(key)
  {
  }
}
