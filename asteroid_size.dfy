/** The three asteroid sizes, their radii and the successor chain LARGE -> MEDIUM -> SMALL. */
module AsteroidSizes {
  import opened Wrappers

  datatype AsteroidSize = Small | Medium | Large

  /** The collision radius of an asteroid of size `s`. */
  function Radius(s: AsteroidSize): (r: int)
    ensures r > 0
    ensures s == Small ==> r == 10
    ensures s == Medium ==> r == 20
    ensures s == Large ==> r == 40
  {
    match s
    case Small => 10
    case Medium => 20
    case Large => 40
  }

  /**
   * The size of the asteroids a destroyed asteroid of size `s` breaks into; `None` where the
   * source returns `null`. Every successor is half as wide as its parent.
   */
  function SuccessorSize(s: AsteroidSize): (r: Option<AsteroidSize>)
    ensures r.None? <==> s == Small
    ensures r.Some? ==> Radius(r.value) < Radius(s)
    ensures r.Some? ==> 2 * Radius(r.value) == Radius(s)
  {
    match s
    case Large => Some(Medium)
    case Medium => Some(Small)
    case Small => None
  }

  /** The successor table exactly as the source's if-chain gives it. */
  lemma SuccessorTable()
    ensures SuccessorSize(Large) == Some(Medium)
    ensures SuccessorSize(Medium) == Some(Small)
    ensures SuccessorSize(Small) == None
  {
  }

  /** The number of successor generations an asteroid of size `s` can still produce. */
  function Generations(s: AsteroidSize): (n: nat)
    decreases Radius(s)
    ensures n <= 2
    ensures n == 0 <==> s == Small
    ensures n == 2 <==> s == Large
  {
    match SuccessorSize(s)
    case None => 0
    case Some(t) => 1 + Generations(t)
  }

  /** Applies the successor step `k` times, starting from `s`. */
  function Descend(s: AsteroidSize, k: nat): Option<AsteroidSize>
    decreases k
  {
    if k == 0 then Some(s)
    else match SuccessorSize(s)
      case None => None
      case Some(t) => Descend(t, k - 1)
  }

  /** The chain terminates: after its generations every size has reached SMALL, and one step more reaches none. */
  lemma {:induction false} ChainTerminates(s: AsteroidSize)
    ensures Descend(s, Generations(s)) == Some(Small)
    ensures Descend(s, Generations(s) + 1) == None
    ensures Generations(s) + 1 <= 3
    decreases Radius(s)
  {
    match SuccessorSize(s)
    case None =>
    case Some(t) =>
      ChainTerminates(t);
  }
}
