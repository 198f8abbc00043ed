/**
 * `src/hooks/useAuthPopup.ts`: the login-popup hook's state `{authPopup,
 * isLoading}` and the timers its effect keeps for the current popup.
 *
 * Timers are not run: the hook's effect, which React re-runs whenever
 * `authPopup` changes, is modelled as happening at that change (its clean-up
 * clears the old popup's interval and timeout, its body starts a new pair for
 * a non-null popup). The one-second poll and the two-minute timeout are the
 * events `PollTick` and `TimeoutFires`, which only a pending timer can
 * deliver. The window `window.open` returns is an input.
 */
module AuthPopup {
  import opened Wrappers
  import opened Env
  import AuthUtils

  const AuthInProgressKey := "authInProgress"

  /** A pending `setInterval` (closed-window poll) or `setTimeout` (give up), for one popup. */
  datatype Timer = ClosedPoll(watch: Popup) | AuthTimeout(watch: Popup)

  /**
   * The timers the effect keeps for a given `authPopup` value: at most one
   * interval and one timeout, both watching that popup. Every hook method
   * keeps `timers == TimersFor(authPopup)` (`Valid`), so no timer outlives
   * the popup it was started for.
   */
  function TimersFor(p: Popup?): (r: seq<Timer>)
    ensures |r| <= 2
    ensures p == null <==> r == []
    ensures forall t :: t in r ==> t.watch == p
    ensures p != null ==> ClosedPoll(p) in r && AuthTimeout(p) in r
  {
    if p == null then [] else [ClosedPoll(p), AuthTimeout(p)]
  }


  class AuthPopupHook {
    const env: Browser
    var authPopup: Popup?
    var isLoading: bool
    var timers: seq<Timer>
    /** Handle of the `message` listener registered by the hook's second effect. */
    var listener: Option<nat>

    ghost predicate Valid()
      reads this
    {
      timers == TimersFor(authPopup)
    }

    constructor (env: Browser)
      ensures this.env == env && authPopup == null && !isLoading && timers == [] && listener.None?
      ensures Valid()
    {
      this.env := env;
      authPopup, isLoading, timers, listener := null, false, [], None;
    }

    /** The listener effect's set-up, run when the component mounts. */
    method Mount()
      requires env.Valid() && listener.None?
      modifies this, env
      ensures env.Valid()
      ensures listener.Some? && listener.value !in old(env.listeners)
      ensures env.listeners == old(env.listeners) + [listener.value]
      ensures authPopup == old(authPopup) && isLoading == old(isLoading) && timers == old(timers)
      ensures env.Snapshot() == old(env.Snapshot()).(listeners := env.listeners, nextListener := env.nextListener)
    {
      var h := env.AddListener();
      listener := Some(h);
    }

    /** Both effects' clean-up, run when the component unmounts. */
    method Unmount()
      requires env.Valid()
      modifies this, env
      ensures env.Valid()
      ensures timers == [] && listener.None?
      ensures old(listener).Some? ==> env.listeners == Without(old(env.listeners), old(listener).value)
      ensures old(listener).None? ==> env.listeners == old(env.listeners)
      ensures authPopup == old(authPopup) && isLoading == old(isLoading)
      ensures env.Snapshot() == old(env.Snapshot()).(listeners := env.listeners)
    {
      timers := [];
      if listener.Some? {
        env.RemoveListener(listener.value);
      }
      listener := None;
    }

    /** `setAuthPopup(p)` together with the effect re-run it causes when the value changes. */
    method SetAuthPopup(p: Popup?)
      modifies this
      ensures authPopup == p && isLoading == old(isLoading) && listener == old(listener)
      ensures p != old(authPopup) ==> timers == TimersFor(p)
      ensures p == old(authPopup) ==> timers == old(timers)
      ensures old(Valid()) ==> Valid()
    {
      if p != authPopup {
        authPopup := p;
        timers := TimersFor(p);
      }
    }

    /**
     * `launchAuthPopup(authUrl)`, where `win` is what `window.open` returns.
     * A still-open previous popup is closed first.
     */
    method LaunchAuthPopup(win: Popup?) returns (launched: bool)
      requires Valid()
      modifies this, env, authPopup
      ensures Valid()
      ensures old(authPopup) != null ==> old(authPopup).closed
      ensures launched <==> win != null && win != old(authPopup) && !old(win.closed)
      ensures launched ==> authPopup == win && !authPopup.closed && isLoading
      ensures launched ==> env.toasts == old(env.toasts)
      ensures !launched ==> authPopup == old(authPopup) && !isLoading
      ensures !launched ==> env.toasts == old(env.toasts) + [ErrorToast("error.popupBlocked")]
      ensures listener == old(listener)
      ensures env.Snapshot() == old(env.Snapshot()).(toasts := env.toasts)
    {
      if authPopup != null && !authPopup.closed {
        authPopup.Close();
      }
      isLoading := true;
      var popup := AuthUtils.OpenAuthPopup(win);
      if popup == null {
        env.ShowToast(ErrorToast("error.popupBlocked"));
        isLoading := false;
        launched := false;
        return;
      }
      SetAuthPopup(popup);
      launched := true;
    }

    /** One tick of the interval: when the user has closed the popup, stop waiting. */
    method PollTick()
      requires Valid() && authPopup != null && ClosedPoll(authPopup) in timers
      modifies this
      ensures Valid()
      ensures old(authPopup.closed) ==> authPopup == null && !isLoading && timers == []
      ensures !old(authPopup.closed) ==> authPopup == old(authPopup) && isLoading == old(isLoading) && timers == old(timers)
      ensures listener == old(listener)
    {
      if authPopup.closed {
        timers := [AuthTimeout(authPopup)];
        isLoading := false;
        SetAuthPopup(null);
      }
    }

    /** The two-minute timeout: close the popup, stop loading, report the timeout. */
    method TimeoutFires()
      requires Valid() && authPopup != null && AuthTimeout(authPopup) in timers
      modifies this, env, authPopup
      ensures Valid()
      ensures old(authPopup).closed
      ensures authPopup == null && !isLoading && timers == []
      ensures env.toasts == old(env.toasts) + [ErrorToast("error.authTimeout")]
      ensures listener == old(listener)
      ensures env.Snapshot() == old(env.Snapshot()).(toasts := env.toasts)
    {
      timers := [AuthTimeout(authPopup)];
      if !authPopup.closed {
        authPopup.Close();
      }
      isLoading := false;
      env.ShowToast(ErrorToast("error.authTimeout"));
      SetAuthPopup(null);
    }

    /** A `message` event: the `onSuccess` call it makes, if any. No hook state changes. */
    function OnMessage(data: AuthUtils.MessageData): (success: Option<string>)
      reads this
      ensures success.Some? <==> listener.Some? && data.Payload? && Truthy(data.userId)
      ensures success.Some? ==> success == data.userId
    {
      if listener.Some? then AuthUtils.AuthMessageUserId(data) else None
    }

    /** `redirectToAuth(authUrl)`: the mobile path, a full-page navigation. */
    method RedirectToAuth(authUrl: string)
      requires Valid()
      modifies this, env
      ensures Valid()
      ensures isLoading && env.session == old(env.session)[AuthInProgressKey := "true"] && env.href == authUrl
      ensures authPopup == old(authPopup) && timers == old(timers) && listener == old(listener)
      ensures env.Snapshot() == old(env.Snapshot()).(session := env.session, href := env.href)
    {
      isLoading := true;
      env.SetSession(AuthInProgressKey, "true");
      env.Assign(authUrl);
    }

    /** The exposed `setIsLoading`. */
    method SetIsLoading(b: bool)
      requires Valid()
      modifies this
      ensures Valid()
      ensures isLoading == b && authPopup == old(authPopup) && timers == old(timers) && listener == old(listener)
    {
      isLoading := b;
    }
  }
}
