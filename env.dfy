/**
 * The browser as the front end sees it: `localStorage` and `sessionStorage`
 * as string maps, `window.location.href`, the React Router location, the
 * toast and `alert` notifications shown so far, and the window's registry of
 * `message` listeners. Popup windows are objects whose only observable state
 * is whether they are closed.
 */
module Env {
  import opened Wrappers

  /** A notification shown with `toast.error(t(key))`; the translation key is recorded. */
  datatype Toast = ErrorToast(key: string) | InfoToast(key: string)

  /** A window opened with `window.open`. */
  class Popup {
    var closed: bool

    constructor ()
      ensures !closed
    {
      closed := false;
    }

    method Close()
      modifies this
      ensures closed
    {
      closed := true;
    }
  }

  /** `xs` with every `x` removed. */
  function Without(xs: seq<nat>, x: nat): (r: seq<nat>)
    ensures x !in r
    ensures forall y :: y in xs && y != x ==> y in r
    ensures forall y :: y in r ==> y in xs
  {
    if |xs| == 0 then []
    else if xs[0] == x then Without(xs[1..], x)
    else [xs[0]] + Without(xs[1..], x)
  }

  /** Removing something never added leaves the list as it was. */
  lemma {:induction false} WithoutAbsent(xs: seq<nat>, x: nat)
    requires x !in xs
    ensures Without(xs, x) == xs
  {
    if |xs| > 0 {
      WithoutAbsent(xs[1..], x);
    }
  }

  /** Adding a fresh entry and removing it again restores the list. */
  lemma {:induction false} WithoutAdded(xs: seq<nat>, x: nat)
    requires x !in xs
    ensures Without(xs + [x], x) == xs
  {
    if |xs| == 0 {
      assert [x][1..] == [];
    } else {
      assert (xs + [x])[1..] == xs[1..] + [x];
      WithoutAdded(xs[1..], x);
    }
  }

  /** Everything a `Browser` holds, as one value, so a method can say which parts it leaves alone. */
  datatype BrowserState = BrowserState(
    local: map<string, string>, session: map<string, string>, href: string, route: string,
    toasts: seq<Toast>, alerts: seq<string>, listeners: seq<nat>, nextListener: nat)

  class Browser {
    var local: map<string, string>
    var session: map<string, string>
    var href: string
    var route: string
    var toasts: seq<Toast>
    var alerts: seq<string>
    /** Registered `message` listeners, by handle, in registration order. */
    var listeners: seq<nat>
    var nextListener: nat

    function Snapshot(): BrowserState
      reads this
    {
      BrowserState(local, session, href, route, toasts, alerts, listeners, nextListener)
    }

    ghost predicate Valid()
      reads this
    {
      forall l :: l in listeners ==> l < nextListener
    }

    constructor (local: map<string, string>, session: map<string, string>, href: string)
      ensures Valid()
      ensures this.local == local && this.session == session && this.href == href
      ensures route == "/" && toasts == [] && alerts == [] && listeners == []
    {
      this.local, this.session, this.href := local, session, href;
      route, toasts, alerts := "/", [], [];
      listeners, nextListener := [], 0;
    }

    /** `localStorage.getItem(key)`. */
    function GetLocal(key: string): (r: Option<string>)
      reads this
      ensures r.Some? <==> key in local
      ensures r.Some? ==> r.value == local[key]
    {
      if key in local then Some(local[key]) else None
    }

    function GetSession(key: string): (r: Option<string>)
      reads this
      ensures r.Some? <==> key in session
      ensures r.Some? ==> r.value == session[key]
    {
      if key in session then Some(session[key]) else None
    }

    method SetLocal(key: string, value: string)
      modifies this
      ensures local == old(local)[key := value]
      ensures session == old(session) && href == old(href) && route == old(route)
      ensures toasts == old(toasts) && alerts == old(alerts)
      ensures listeners == old(listeners) && nextListener == old(nextListener)
    {
      local := local[key := value];
    }

    method RemoveLocal(key: string)
      modifies this
      ensures local == old(local) - {key}
      ensures session == old(session) && href == old(href) && route == old(route)
      ensures toasts == old(toasts) && alerts == old(alerts)
      ensures listeners == old(listeners) && nextListener == old(nextListener)
    {
      local := local - {key};
    }

    method SetSession(key: string, value: string)
      modifies this
      ensures session == old(session)[key := value]
      ensures local == old(local) && href == old(href) && route == old(route)
      ensures toasts == old(toasts) && alerts == old(alerts)
      ensures listeners == old(listeners) && nextListener == old(nextListener)
    {
      session := session[key := value];
    }

    method RemoveSession(key: string)
      modifies this
      ensures session == old(session) - {key}
      ensures local == old(local) && href == old(href) && route == old(route)
      ensures toasts == old(toasts) && alerts == old(alerts)
      ensures listeners == old(listeners) && nextListener == old(nextListener)
    {
      session := session - {key};
    }

    /** React Router's `navigate(path)`. */
    method Navigate(path: string)
      modifies this
      ensures route == path
      ensures local == old(local) && session == old(session) && href == old(href)
      ensures toasts == old(toasts) && alerts == old(alerts)
      ensures listeners == old(listeners) && nextListener == old(nextListener)
    {
      route := path;
    }

    /** `window.location.href = url`: a full-page navigation. */
    method Assign(url: string)
      modifies this
      ensures href == url
      ensures local == old(local) && session == old(session) && route == old(route)
      ensures toasts == old(toasts) && alerts == old(alerts)
      ensures listeners == old(listeners) && nextListener == old(nextListener)
    {
      href := url;
    }

    method ShowToast(t: Toast)
      modifies this
      ensures toasts == old(toasts) + [t]
      ensures local == old(local) && session == old(session) && href == old(href)
      ensures route == old(route) && alerts == old(alerts)
      ensures listeners == old(listeners) && nextListener == old(nextListener)
    {
      toasts := toasts + [t];
    }

    method Alert(message: string)
      modifies this
      ensures alerts == old(alerts) + [message]
      ensures local == old(local) && session == old(session) && href == old(href)
      ensures route == old(route) && toasts == old(toasts)
      ensures listeners == old(listeners) && nextListener == old(nextListener)
    {
      alerts := alerts + [message];
    }

    /** `window.addEventListener('message', handler)` with a handler not yet registered. */
    method AddListener() returns (handle: nat)
      requires Valid()
      modifies this
      ensures Valid()
      ensures handle !in old(listeners) && listeners == old(listeners) + [handle]
      ensures local == old(local) && session == old(session) && href == old(href)
      ensures route == old(route) && toasts == old(toasts) && alerts == old(alerts)
    {
      handle := nextListener;
      listeners := listeners + [handle];
      nextListener := nextListener + 1;
    }

    /** `window.removeEventListener('message', handler)`. */
    method RemoveListener(handle: nat)
      requires Valid()
      modifies this
      ensures Valid()
      ensures listeners == Without(old(listeners), handle) && nextListener == old(nextListener)
      ensures local == old(local) && session == old(session) && href == old(href)
      ensures route == old(route) && toasts == old(toasts) && alerts == old(alerts)
    {
      listeners := Without(listeners, handle);
    }
  }
}
