/**
 * The open-finance consent lifecycle of Phase 10 (`bank-main/js/phase10.js`): each
 * third-party app is pending, active, denied, revoked or expired; authorising issues a token
 * that lives fifteen seconds, denial and revocation drop the token, and a per-app watcher
 * expires the token once its time has passed.
 *
 * Statuses are kept as the strings the script stores, so that an unknown status (one read
 * back from storage) can be classified as the script does.
 */
module Consent {
  import opened JsText

  const TokenLifeMs: int := 15000

  const Pending: string := "pending"
  const Active: string := "active"
  const Denied: string := "denied"
  const Revoked: string := "revoked"
  const ExpiredStatus: string := "expired"

  datatype App = App(id: string, name: string, scopes: seq<string>, status: string, tokenExpiry: Option<int>)

  const InitialApps: seq<App> := [
    App("wealth_app", "Khmer Wealth Manager", ["Read Balance", "Transaction History"], Pending, None),
    App("tax_tool", "EasyTax Cambodia", ["Read Income", "Export Statements"], Pending, None)
  ]

  /** `apps.find(a => a.id === appId)`, as the index of the first match. */
  function FindApp(apps: seq<App>, id: string): (r: Option<nat>)
    ensures r.Some? ==> r.value < |apps| && apps[r.value].id == id &&
                        forall j :: 0 <= j < r.value ==> apps[j].id != id
    ensures r.None? ==> forall j :: 0 <= j < |apps| ==> apps[j].id != id
  {
    if apps == [] then None
    else if apps[0].id == id then Some(0)
    else match FindApp(apps[1..], id)
      case None => None
      case Some(k) => Some(k + 1)
  }

  /** Sets the status and expiry of the first app with the id; an unknown id changes nothing. */
  function SetStatus(apps: seq<App>, id: string, status: string, expiry: Option<int>): (r: seq<App>)
    ensures |r| == |apps|
  {
    match FindApp(apps, id)
    case None => apps
    case Some(k) => apps[k := apps[k].(status := status, tokenExpiry := expiry)]
  }

  /** `authorizeApp(appId)` at time `now`. */
  function Authorize(apps: seq<App>, id: string, now: int): seq<App> {
    SetStatus(apps, id, Active, Some(now + TokenLifeMs))
  }

  /** `denyApp(appId)` */
  function Deny(apps: seq<App>, id: string): seq<App> {
    SetStatus(apps, id, Denied, None)
  }

  /** `revokeApp(appId)` */
  function Revoke(apps: seq<App>, id: string): seq<App> {
    SetStatus(apps, id, Revoked, None)
  }

  datatype WatcherOutcome = StopWatching | TokenExpired | KeepWatching

  /** One tick of the watcher started for the app at index `k`. */
  function WatcherTick(apps: seq<App>, k: nat, now: int): (seq<App>, WatcherOutcome)
    requires k < |apps|
  {
    var app := apps[k];
    if app.tokenExpiry.None? || app.tokenExpiry.value == 0 then (apps, StopWatching)
    else if now > app.tokenExpiry.value then
      (apps[k := app.(status := ExpiredStatus, tokenExpiry := None)], TokenExpired)
    else (apps, KeepWatching)
  }

  // ---------------------------------------------------------------------------------------
  // Presentation maps

  datatype Action = AuthorizeAction | DenyAction | RevokeAction

  /** The buttons `renderActionButtons` offers for a status. */
  function OfferedActions(status: string): (r: seq<Action>)
    ensures status == Pending ==> r == [AuthorizeAction, DenyAction]
    ensures status == Active ==> r == [RevokeAction]
    ensures status == Denied || status == ExpiredStatus ==> r == [AuthorizeAction]
    ensures status !in {Pending, Active, Denied, ExpiredStatus} ==> r == []
  {
    if status == Pending then [AuthorizeAction, DenyAction]
    else if status == Active then [RevokeAction]
    else if status == Denied then [AuthorizeAction]
    else if status == ExpiredStatus then [AuthorizeAction]
    else []
  }

  /**
   * `getStatusClass(status)`: the badge colour; an unknown status has none. The lookup
   * object's inherited keys (`constructor`, `toString`, `__proto__`, ...) are not modelled:
   * only a tampered stored app list could carry them as a status.
   */
  function StatusClass(status: string): (r: string)
    ensures r == "" <==> status !in {Pending, Active, Denied, Revoked, ExpiredStatus}
    ensures r == "status-green" <==> status == Active
    ensures r == "status-red" <==> status == Denied || status == Revoked
  {
    if status == Pending then "status-yellow"
    else if status == Active then "status-green"
    else if status == Denied then "status-red"
    else if status == Revoked then "status-red"
    else if status == ExpiredStatus then "status-yellow"
    else ""
  }

  /** The effect of pressing a button on the app with the id. */
  function Press(apps: seq<App>, id: string, a: Action, now: int): seq<App> {
    match a
    case AuthorizeAction => Authorize(apps, id, now)
    case DenyAction => Deny(apps, id)
    case RevokeAction => Revoke(apps, id)
  }

  // ---------------------------------------------------------------------------------------
  // Properties

  /** An action on an id no app has changes nothing. */
  lemma UnknownIdChangesNothing(apps: seq<App>, id: string, now: int)
    requires forall j :: 0 <= j < |apps| ==> apps[j].id != id
    ensures Authorize(apps, id, now) == apps && Deny(apps, id) == apps && Revoke(apps, id) == apps
  {
  }

  /**
   * Each action rewrites the first app with the id and no other: authorising makes it active
   * with a token expiring fifteen seconds from now, denying and revoking drop the token.
   */
  lemma ActionsTouchOnlyTheirApp(apps: seq<App>, id: string, now: int, k: nat)
    requires k < |apps| && apps[k].id == id && forall j :: 0 <= j < k ==> apps[j].id != id
    ensures Authorize(apps, id, now) == apps[k := apps[k].(status := Active, tokenExpiry := Some(now + TokenLifeMs))]
    ensures Deny(apps, id) == apps[k := apps[k].(status := Denied, tokenExpiry := None)]
    ensures Revoke(apps, id) == apps[k := apps[k].(status := Revoked, tokenExpiry := None)]
  {
  }

  /** A watcher tick expires the token exactly when one is set and its time has passed. */
  lemma WatcherExpiresOnlyPastTokens(apps: seq<App>, k: nat, now: int)
    requires k < |apps|
    ensures var (apps', o) := WatcherTick(apps, k, now);
            var e := apps[k].tokenExpiry;
            && (o == TokenExpired <==> e.Some? && e.value != 0 && now > e.value)
            && (o == TokenExpired ==> apps' == apps[k := apps[k].(status := ExpiredStatus, tokenExpiry := None)])
            && (o != TokenExpired ==> apps' == apps)
  {
  }

  /** The lifecycle invariant: an app holds a token exactly when it is active. */
  ghost predicate TokenIffActive(apps: seq<App>) {
    forall j :: 0 <= j < |apps| ==> (apps[j].tokenExpiry.Some? <==> apps[j].status == Active)
  }

  lemma InitialAppsConsistent()
    ensures TokenIffActive(InitialApps)
  {
  }

  lemma TransitionsKeepTokenIffActive(apps: seq<App>, id: string, now: int, k: nat)
    requires TokenIffActive(apps)
    ensures TokenIffActive(Authorize(apps, id, now))
    ensures TokenIffActive(Deny(apps, id))
    ensures TokenIffActive(Revoke(apps, id))
    ensures k < |apps| ==> TokenIffActive(WatcherTick(apps, k, now).0)
  {
  }

  /** Revoked offers no button, and every offered button leads to active, denied or revoked. */
  lemma RevokedIsTerminal(apps: seq<App>, id: string, k: nat, now: int)
    requires k < |apps| && apps[k].id == id && forall j :: 0 <= j < k ==> apps[j].id != id
    ensures apps[k].status == Revoked ==> OfferedActions(apps[k].status) == []
    ensures forall a :: a in OfferedActions(apps[k].status) ==>
              Press(apps, id, a, now)[k].status in {Active, Denied, Revoked}
  {
    ActionsTouchOnlyTheirApp(apps, id, now, k);
  }

  // ---------------------------------------------------------------------------------------
  // The manager over `phase10Data.apps`

  class ConsentManager {
    var apps: seq<App>

    ghost predicate Valid()
      reads this
    {
      TokenIffActive(apps)
    }

    constructor ()
      ensures Valid() && apps == InitialApps
    {
      apps := InitialApps;
    }

    method AuthorizeApp(id: string, now: int)
      requires Valid()
      modifies this
      ensures Valid() && apps == Authorize(old(apps), id, now)
    {
      TransitionsKeepTokenIffActive(apps, id, now, 0);
      var k := FindApp(apps, id);
      if k.None? {
        return;
      }
      var app := apps[k.value];
      apps := apps[k.value := app.(status := Active, tokenExpiry := Some(now + TokenLifeMs))];
    }

    method DenyApp(id: string)
      requires Valid()
      modifies this
      ensures Valid() && apps == Deny(old(apps), id)
    {
      TransitionsKeepTokenIffActive(apps, id, 0, 0);
      var k := FindApp(apps, id);
      if k.None? {
        return;
      }
      apps := apps[k.value := apps[k.value].(status := Denied, tokenExpiry := None)];
    }

    method RevokeApp(id: string)
      requires Valid()
      modifies this
      ensures Valid() && apps == Revoke(old(apps), id)
    {
      TransitionsKeepTokenIffActive(apps, id, 0, 0);
      var k := FindApp(apps, id);
      if k.None? {
        return;
      }
      apps := apps[k.value := apps[k.value].(status := Revoked, tokenExpiry := None)];
    }

    /** One tick of the watcher of the app at index `k`. */
    method TokenWatcherTick(k: nat, now: int) returns (outcome: WatcherOutcome)
      requires Valid() && k < |apps|
      modifies this
      ensures Valid() && (apps, outcome) == WatcherTick(old(apps), k, now)
    {
      TransitionsKeepTokenIffActive(apps, "", now, k);
      var app := apps[k];
      if app.tokenExpiry.None? || app.tokenExpiry.value == 0 {
        return StopWatching;
      }
      if now > app.tokenExpiry.value {
        apps := apps[k := app.(status := ExpiredStatus, tokenExpiry := None)];
        return TokenExpired;
      }
      return KeepWatching;
    }
  }
}
