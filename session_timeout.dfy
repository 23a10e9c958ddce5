/**
 * The inactivity timeout monitor. React state `lastActivity`, `warningVisible` and
 * `timeLeft` become fields; the one-second interval callback is `Tick(now)` and the
 * activity listeners' `resetTimer` is `Activity(now)`, with `now` the value of
 * `Date.now()` in milliseconds. Neither does anything while the wallet is not loaded,
 * since the effect then registers no listener and no interval.
 */
module SessionTimeout {
  import opened UseWallet

  const SessionTimeoutMs: int := 5 * 60 * 1000
  const WarningBandMs: int := 60000

  datatype Clock = Clock(lastActivity: int, warningVisible: bool, timeLeft: int)

  /** `Math.max(0, SESSION_TIMEOUT - elapsed)` */
  function Remaining(lastActivity: int, now: int): (r: int)
    ensures r >= 0
    ensures now - lastActivity >= SessionTimeoutMs ==> r == 0
    ensures now - lastActivity < SessionTimeoutMs ==> r == SessionTimeoutMs - (now - lastActivity)
  {
    var remaining := SessionTimeoutMs - (now - lastActivity);
    if remaining > 0 then remaining else 0
  }

  datatype TickOutcome = TickOutcome(clock: Clock, clearsWallet: bool)

  /** One run of the interval callback, given whether the wallet is loaded. */
  function TickStep(c: Clock, loaded: bool, now: int): TickOutcome
  {
    if !loaded then TickOutcome(c, false)
    else
      var remaining := Remaining(c.lastActivity, now);
      var warn := c.warningVisible || (remaining < WarningBandMs && remaining > 0);
      TickOutcome(Clock(c.lastActivity, warn, remaining / 1000), now - c.lastActivity >= SessionTimeoutMs)
  }

  /** `resetTimer`, reachable only through the listeners and the banner of a loaded wallet. */
  function ActivityStep(c: Clock, loaded: bool, now: int): Clock
  {
    if loaded then c.(lastActivity := now, warningVisible := false) else c
  }

  class Monitor {
    const wallet: Wallet
    var lastActivity: int
    var warningVisible: bool
    var timeLeft: int

    /** Mounting the component at time `mountedAt`. */
    constructor (wallet: Wallet, mountedAt: int)
      ensures this.wallet == wallet
      ensures View() == Clock(mountedAt, false, 300)
    {
      this.wallet := wallet;
      lastActivity := mountedAt;
      warningVisible := false;
      timeLeft := SessionTimeoutMs / 1000;
    }

    function View(): Clock
      reads this
    {
      Clock(lastActivity, warningVisible, timeLeft)
    }

    method Activity(now: int)
      modifies this
      ensures View() == ActivityStep(old(View()), wallet.IsLoaded(), now)
    {
      if wallet.IsLoaded() {
        lastActivity := now;
        warningVisible := false;
      }
    }

    method Tick(now: int)
      modifies this, wallet
      ensures var o := TickStep(old(View()), old(wallet.IsLoaded()), now);
              View() == o.clock &&
              wallet.state == if o.clearsWallet then InitialState else old(wallet.state)
    {
      if !wallet.IsLoaded() {
        return;
      }
      var elapsed := now - lastActivity;
      var remaining := if SessionTimeoutMs - elapsed > 0 then SessionTimeoutMs - elapsed else 0;
      timeLeft := remaining / 1000;
      if remaining < WarningBandMs && remaining > 0 {
        warningVisible := true;
      }
      if elapsed >= SessionTimeoutMs {
        wallet.Clear();
      }
    }

    /** The component renders its banner only for a loaded wallet with the warning raised. */
    function BannerVisible(): (shown: bool)
      reads this, wallet
      ensures shown ==> wallet.IsLoaded()
      ensures !warningVisible ==> !shown
    {
      wallet.IsLoaded() && warningVisible
    }
  }

  // ---- properties of the monitor ----

  /** After a tick of a loaded wallet, `timeLeft` is the whole seconds remaining, between 0 and 300. */
  lemma TickTimeLeft(c: Clock, now: int)
    requires now >= c.lastActivity
    ensures var t := TickStep(c, true, now).clock.timeLeft;
            var r := Remaining(c.lastActivity, now);
            0 <= t <= 300 && t * 1000 <= r < t * 1000 + 1000
  {
  }

  /** A tick raises the warning only strictly inside the last minute, and never lowers it. */
  lemma TickWarning(c: Clock, loaded: bool, now: int)
    ensures var o := TickStep(c, loaded, now);
            var r := Remaining(c.lastActivity, now);
            o.clock.warningVisible <==> c.warningVisible || (loaded && 0 < r < WarningBandMs)
    ensures TickStep(c, loaded, now).clock.lastActivity == c.lastActivity
  {
  }

  /** A tick clears the wallet exactly when it is loaded and five minutes have elapsed. */
  lemma TickClearsExactlyOnExpiry(c: Clock, loaded: bool, now: int)
    ensures TickStep(c, loaded, now).clearsWallet <==> loaded && now - c.lastActivity >= 300000
  {
  }

  /** An expiring tick cannot newly raise the warning: nothing remains. */
  lemma ExpiringTickRaisesNoWarning(c: Clock, now: int)
    requires TickStep(c, true, now).clearsWallet
    ensures TickStep(c, true, now).clock.warningVisible == c.warningVisible
    ensures TickStep(c, true, now).clock.timeLeft == 0
  {
  }

  /** Activity restarts the window and hides the warning. */
  lemma ActivityRestarts(c: Clock, now: int)
    ensures ActivityStep(c, true, now) == c.(lastActivity := now, warningVisible := false)
    ensures !TickStep(ActivityStep(c, true, now), true, now).clearsWallet
  {
  }

  /** While no wallet is loaded, ticks and activity change nothing. */
  lemma InertWhileUnloaded(c: Clock, now: int)
    ensures TickStep(c, false, now) == TickOutcome(c, false)
    ensures ActivityStep(c, false, now) == c
  {
  }

  /** An expiry clears the wallet once: afterwards the session is unloaded and later ticks are no-ops. */
  lemma ExpiryClearsOnce(c: Clock, now: int, later: int)
    requires TickStep(c, true, now).clearsWallet
    ensures var after := TickStep(c, true, now).clock;
            !SessionLoaded(InitialState) &&
            TickStep(after, SessionLoaded(InitialState), later) == TickOutcome(after, false)
  {
  }

  /**
   * Loading a wallet does not restart the window: one loaded five minutes or more after
   * the last recorded activity (or after mounting) is cleared by the first tick unless
   * an activity event comes first.
   */
  lemma FirstTickAfterLateLoadClears(mountedAt: int, now: int)
    requires now - mountedAt >= SessionTimeoutMs
    ensures TickStep(Clock(mountedAt, false, 300), true, now).clearsWallet
  {
  }

  /** Idle between 240 and 300 seconds (exclusive of both) raises the warning. */
  lemma WarningBandExample(c: Clock)
    ensures TickStep(c, true, c.lastActivity + 240001).clock.warningVisible
    ensures TickStep(c, true, c.lastActivity + 270000).clock.timeLeft == 30
    ensures !TickStep(c.(warningVisible := false), true, c.lastActivity + 240000).clock.warningVisible
    ensures !TickStep(c.(warningVisible := false), true, c.lastActivity + 300000).clock.warningVisible
  {
  }
}
