/** The inactivity logout: every user activity, and every route change,
 *  clears the pending logout timer and arms a fresh three-minute one, but
 *  only for a signed-in user away from the login page. When a timer fires the
 *  token is removed and the app goes to the login page.
 *
 *  Timers are abstract: arming one records a handle and its delay, clearing
 *  it removes it, and the fire is an event of its own. The stored token is
 *  read at each reset, so it is a parameter of the methods that read it. */
module AutoLogout {
  import opened Common

  /** `TIMEOUT_DURATION`: three minutes in milliseconds. */
  const TimeoutMs: nat := 3 * 60 * 1000

  /** The activity events a listener is attached for. */
  const ActivityEvents: seq<string> := ["mousemove", "keydown", "mousedown", "touchstart", "scroll", "click"]

  /** A scheduled `setTimeout(performLogout, delayMs)` with its handle. */
  datatype Timer = Timer(handle: nat, delayMs: nat)

  /** What `performLogout` does outside the component. */
  datatype Effect = RemoveToken | Navigate(path: string)

  /** The arming condition of `resetTimer`: a (non-empty) token, and a path
   *  other than the login page. */
  predicate ShouldArm(stored: Option<string>, path: string) {
    stored.Some? && stored.value != "" && path != "/"
  }

  /** The pending timers are exactly the ones the ref may still name. */
  predicate TimersTracked(pending: set<Timer>, ref: Option<nat>) {
    forall t :: t in pending ==> ref == Some(t.handle) && t.delayMs == TimeoutMs
  }

  /** Because every pending timer is the one the ref names, at most one logout
   *  timer is ever pending. */
  lemma AtMostOnePending(pending: set<Timer>, ref: Option<nat>)
    requires TimersTracked(pending, ref)
    ensures |pending| <= 1
    ensures ref.None? ==> pending == {}
    ensures ref.Some? ==> pending <= {Timer(ref.value, TimeoutMs)}
  {
    if ref.None? {
      assert forall t :: t !in pending;
      assert pending == {};
    } else {
      var only := Timer(ref.value, TimeoutMs);
      assert forall t :: t in pending ==> t == only;
      if only in pending {
        assert pending == {only};
      } else {
        assert pending == {};
      }
    }
  }

  class AutoLogoutHandler {
    var path: string
    /** `timerRef.current`: the handle of the last timer armed, if any. */
    var timerRef: Option<nat>
    /** The timers scheduled and neither cleared nor fired. */
    var pending: set<Timer>
    var nextHandle: nat
    var listening: bool
    var effects: seq<Effect>

    predicate Valid()
      reads this
    {
      && 0 < nextHandle
      && (timerRef.Some? ==> 0 < timerRef.value < nextHandle)
      && TimersTracked(pending, timerRef)
    }

    /** `resetTimer`: clear the timer the ref names, then arm a fresh one when
     *  a token is stored and the path is not the login page. */
    method ResetTimer(stored: Option<string>)
      requires Valid()
      modifies this
      ensures Valid()
      ensures ShouldArm(stored, path) ==>
        timerRef == Some(old(nextHandle)) && pending == {Timer(old(nextHandle), TimeoutMs)}
      ensures !ShouldArm(stored, path) ==> timerRef == old(timerRef) && pending == {}
      ensures forall t :: t in pending ==> t.delayMs == 180000
      ensures old(timerRef).Some? ==> forall t :: t in pending ==> t.handle != old(timerRef).value
      ensures path == old(path) && listening == old(listening) && effects == old(effects)
    {
      AtMostOnePending(pending, timerRef);
      if timerRef.Some? {
        pending := pending - {Timer(timerRef.value, TimeoutMs)};
      }
      assert pending == {};
      if stored.Some? && stored.value != "" && path != "/" {
        var handle := nextHandle;
        nextHandle := nextHandle + 1;
        pending := pending + {Timer(handle, TimeoutMs)};
        timerRef := Some(handle);
      }
    }

    /** Mounting attaches the listeners and runs `resetTimer` once. */
    constructor (initialPath: string, stored: Option<string>)
      ensures Valid() && listening && path == initialPath && effects == []
      ensures ShouldArm(stored, initialPath) ==> pending == {Timer(1, TimeoutMs)} && timerRef == Some(1)
      ensures !ShouldArm(stored, initialPath) ==> pending == {}
    {
      path := initialPath;
      timerRef := None;
      pending := {};
      nextHandle := 1;
      listening := true;
      effects := [];
      new;
      ResetTimer(stored);
    }

    /** A listened-to activity event runs `resetTimer`. */
    method Activity(event: string, stored: Option<string>)
      requires Valid() && listening && event in ActivityEvents
      modifies this
      ensures Valid()
      ensures ShouldArm(stored, path) ==> |pending| == 1 && timerRef == Some(old(nextHandle))
      ensures !ShouldArm(stored, path) ==> pending == {}
      ensures path == old(path) && listening && effects == old(effects)
    {
      ResetTimer(stored);
    }

    /** A pending timer fires: `performLogout` removes the token and navigates
     *  to the login page. No timer is left pending. */
    method TimerFires(t: Timer)
      requires Valid() && t in pending
      modifies this
      ensures Valid()
      ensures pending == {}
      ensures effects == old(effects) + [RemoveToken, Navigate("/")]
      ensures t.delayMs == 180000
      ensures path == old(path) && timerRef == old(timerRef) && listening == old(listening)
    {
      AtMostOnePending(pending, timerRef);
      pending := pending - {t};
      assert pending == {};
      effects := effects + [RemoveToken, Navigate("/")];
    }

    /** A new `location.pathname` re-creates `resetTimer`, so the effect's
     *  cleanup clears the timer and the effect runs `resetTimer` again on the
     *  new path. Arriving on the login page, or without a token, leaves no
     *  timer pending. */
    method RouteChanged(newPath: string, stored: Option<string>)
      requires Valid()
      modifies this
      ensures Valid()
      ensures path == newPath
      ensures ShouldArm(stored, newPath) ==> pending == {Timer(old(nextHandle), TimeoutMs)}
      ensures !ShouldArm(stored, newPath) ==> pending == {}
      ensures listening == old(listening) && effects == old(effects)
    {
      if timerRef.Some? {
        pending := pending - {Timer(timerRef.value, TimeoutMs)};
      }
      path := newPath;
      ResetTimer(stored);
    }

    /** Unmounting clears the pending timer and detaches the listeners. */
    method Teardown()
      requires Valid()
      modifies this
      ensures Valid()
      ensures pending == {} && !listening
      ensures path == old(path) && timerRef == old(timerRef) && effects == old(effects)
    {
      AtMostOnePending(pending, timerRef);
      if timerRef.Some? {
        pending := pending - {Timer(timerRef.value, TimeoutMs)};
      }
      assert pending == {};
      listening := false;
    }
  }
}
