/**
 * `getBrowser` and the module-level `browserPromise`: one browser launch,
 * remembered and handed to every later caller, and never reset.
 */
module Pool {
  import opened Wrappers

  /** What the launch promise settles to: a browser (named by a number), or the reason the launch failed. */
  datatype BrowserPromise = Resolved(browser: nat) | Rejected(reason: string)

  /** The promise `getBrowser` hands back when `stored` is remembered and a launch would produce `launch`. */
  function Acquire(stored: Option<BrowserPromise>, launch: BrowserPromise): BrowserPromise {
    if stored.Some? then stored.value else launch
  }

  /**
   * Successive `getBrowser` calls starting from `stored`, where `launches[i]` is
   * what a launch during call `i` would produce: every call gets the promise
   * the first one got.
   */
  function Replay(stored: Option<BrowserPromise>, launches: seq<BrowserPromise>): (handed: seq<BrowserPromise>)
    ensures |handed| == |launches|
    ensures forall i :: 0 <= i < |handed| ==> handed[i] == Acquire(stored, launches[0])
    decreases |launches|
  {
    if launches == [] then []
    else
      var p := Acquire(stored, launches[0]);
      [p] + Replay(Some(p), launches[1..])
  }

  /** How many of those calls launch a browser. */
  function LaunchesIn(stored: Option<BrowserPromise>, launches: seq<BrowserPromise>): (n: nat)
    ensures n <= 1
    ensures n == 1 <==> stored.None? && launches != []
    decreases |launches|
  {
    if launches == [] then 0
    else (if stored.None? then 1 else 0) + LaunchesIn(Some(Acquire(stored, launches[0])), launches[1..])
  }

  /** The holder of `browserPromise`. */
  class BrowserPool {
    var browserPromise: Option<BrowserPromise>
    /** How many times `puppeteer.launch` has been called. */
    ghost var launchCount: nat

    /** A launch has happened exactly when a promise is stored, so there is at most one. */
    ghost predicate Valid()
      reads this
    {
      launchCount == if browserPromise.Some? then 1 else 0
    }

    /** `let browserPromise = null`: nothing launched yet. */
    constructor ()
      ensures Valid() && browserPromise == None && launchCount == 0
    {
      browserPromise := None;
      launchCount := 0;
    }

    /**
     * `getBrowser`: launches only when nothing is stored, stores the launch
     * promise (a rejected one included) and hands back what is stored.
     */
    method GetBrowser(launch: BrowserPromise) returns (p: BrowserPromise)
      requires Valid()
      modifies this
      ensures Valid() && launchCount <= 1
      ensures p == Acquire(old(browserPromise), launch) && browserPromise == Some(p)
      ensures old(browserPromise).Some? ==> browserPromise == old(browserPromise) && launchCount == old(launchCount)
      ensures old(browserPromise).None? ==> launchCount == old(launchCount) + 1
    {
      if browserPromise.None? {
        browserPromise := Some(launch);
        launchCount := launchCount + 1;
      }
      p := browserPromise.value;
    }
  }

  /**
   * A run of `getBrowser` calls on one pool, where `launches[i]` is what a
   * launch during call `i` would produce: the promises handed out and the
   * launches made are those `Replay` and `LaunchesIn` describe.
   */
  method CallRepeatedly(pool: BrowserPool, launches: seq<BrowserPromise>) returns (handed: seq<BrowserPromise>)
    requires pool.Valid()
    modifies pool
    ensures pool.Valid()
    ensures handed == Replay(old(pool.browserPromise), launches)
    ensures pool.launchCount == old(pool.launchCount) + LaunchesIn(old(pool.browserPromise), launches)
  {
    ghost var stored := pool.browserPromise;
    handed := [];
    var i := 0;
    while i < |launches|
      invariant 0 <= i <= |launches|
      invariant pool.Valid()
      invariant handed == Replay(stored, launches[..i])
      invariant pool.browserPromise == if i == 0 then stored else Some(Acquire(stored, launches[0]))
      invariant pool.launchCount == old(pool.launchCount) + LaunchesIn(stored, launches[..i])
    {
      var p := pool.GetBrowser(launches[i]);
      handed := handed + [p];
      i := i + 1;
      assert launches[..i][0] == launches[0];
      assert handed == Replay(stored, launches[..i]);
    }
    assert launches[..i] == launches;
  }

  /**
   * Two requests in a fresh process: the first launches, the second gets the
   * same promise and launches nothing, whatever a second launch would have produced.
   */
  method SharedAcrossRequests(first: BrowserPromise, second: BrowserPromise) returns (p: BrowserPromise, q: BrowserPromise)
    ensures p == first && q == first
  {
    var pool := new BrowserPool();
    p := pool.GetBrowser(first);
    q := pool.GetBrowser(second);
    assert pool.launchCount == 1;
  }
}
