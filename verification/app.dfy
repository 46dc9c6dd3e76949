/** The `App` component's state: the navigation cells, the content snapshot,
    the user state and its durable copy in the key-value store. Every handler
    runs to completion before the next one starts. */
module AppState {
  import opened Trends
  import opened FavoriteList
  import opened RedditFeed

  const KEY_ONBOARDED := "onboarded_v1"
  const KEY_FAVORITES := "favorites_v1"
  const KEY_NOTIF_ENABLED := "notif_enabled_v1"

  datatype Tab = Home | Search | Favorites | Settings

  /** The screen stacked above the tabs, if any (`null` in the source is `NoOverlay`). */
  datatype Overlay = NoOverlay | Detail | Onboarding | About

  /** What the body area renders. `Blank` is the Detail overlay without a
      selected trend, which renders nothing. */
  datatype View = OnboardingView | DetailView(trend: Trend) | AboutView | TabView(tab: Tab) | Blank

  /** The body for a navigation state: the overlay when there is one,
      otherwise the current tab's screen. */
  function BodyView(stack: Overlay, selected: Option<Trend>, tab: Tab): (v: View)
    ensures v.TabView? <==> stack == NoOverlay
    ensures v.TabView? ==> v.tab == tab
    ensures v.DetailView? <==> stack == Detail && selected.Some?
    ensures v.DetailView? ==> selected == Some(v.trend)
    ensures v == Blank <==> stack == Detail && selected.None?
    ensures v == OnboardingView <==> stack == Onboarding
    ensures v == AboutView <==> stack == About
  {
    match stack
    case Onboarding => OnboardingView
    case Detail => if selected.Some? then DetailView(selected.value) else Blank
    case About => AboutView
    case NoOverlay => TabView(tab)
  }

  /** The tab bar is rendered only without an overlay. */
  predicate TabBarShown(stack: Overlay) {
    stack == NoOverlay
  }

  /** A stored value: a plain string, or the JSON array of favorite ids. */
  datatype Stored = Str(s: string) | IdList(ids: seq<string>)

  /** Each key holds the kind of value the app writes under it. */
  predicate WellFormedStorage(st: map<string, Stored>) {
    (KEY_FAVORITES in st ==> st[KEY_FAVORITES].IdList?) &&
    (KEY_ONBOARDED in st ==> st[KEY_ONBOARDED].Str?) &&
    (KEY_NOTIF_ENABLED in st ==> st[KEY_NOTIF_ENABLED].Str?)
  }

  /** `getItem(key)` for a string key; a missing key reads as "" (both are falsy). */
  function ReadText(st: map<string, Stored>, key: string): (s: string)
    ensures key !in st ==> s == ""
  {
    if key in st && st[key].Str? then st[key].s else ""
  }

  /** The favorites list a fresh start reconstructs: the stored array, or `[]`. */
  function ReadIds(st: map<string, Stored>): (ids: seq<string>)
    ensures KEY_FAVORITES !in st ==> ids == []
  {
    if KEY_FAVORITES in st && st[KEY_FAVORITES].IdList? then st[KEY_FAVORITES].ids else []
  }

  /** `if (live.length > 0) setTrends(live)`. */
  function NextSnapshot(current: seq<Trend>, live: seq<Trend>): (next: seq<Trend>)
    ensures live == [] ==> next == current
    ensures live != [] ==> next == live
    ensures current != [] ==> next != []
  {
    if |live| > 0 then live else current
  }

  /** A failed fetch, or one whose children carry no data, leaves the snapshot as it was. */
  lemma FailedFetchKeepsSnapshot(current: seq<Trend>, outcome: FetchOutcome)
    requires outcome.Failed? || forall k :: 0 <= k < |outcome.children| ==> outcome.children[k].None?
    ensures NextSnapshot(current, FetchTrends(outcome)) == current
  {
    FetchNonEmptyIff(outcome);
  }

  class App {
    var tab: Tab
    var stack: Overlay
    var selectedTrend: Option<Trend>
    var onboarded: bool
    var favorites: seq<string>
    var notifEnabled: bool
    var trends: seq<Trend>
    var loadingTrends: bool
    /** The durable key-value store. */
    var storage: map<string, Stored>
    /** Notifications of this app scheduled with the platform. */
    var scheduledDigests: nat

    /** The snapshot is never empty, the store holds well-formed values, and the
        detail overlay always has a trend to show. */
    ghost predicate Valid()
      reads this
    {
      WellFormedStorage(storage) && trends != [] && (stack == Detail ==> selectedTrend.Some?)
    }

    /** The in-memory user state is what a fresh start would read back from the store. */
    ghost predicate Synced()
      reads this
    {
      onboarded == (ReadText(storage, KEY_ONBOARDED) != "") &&
      favorites == ReadIds(storage) &&
      notifEnabled == (ReadText(storage, KEY_NOTIF_ENABLED) == "1")
    }

    /** What the body currently renders. */
    function Screen(): (v: View)
      reads this
      ensures Valid() ==> v != Blank
      ensures TabBarShown(stack) <==> v.TabView?
    {
      BodyView(stack, selectedTrend, tab)
    }

    /** The initial values of the state cells, over a store left by earlier runs. */
    constructor (persisted: map<string, Stored>, scheduled: nat)
      requires WellFormedStorage(persisted)
      ensures Valid()
      ensures tab == Home && stack == NoOverlay && selectedTrend == None
      ensures onboarded && favorites == [] && !notifEnabled
      ensures trends == FALLBACK_TRENDS && !loadingTrends
      ensures storage == persisted && scheduledDigests == scheduled
    {
      tab := Home;
      stack := NoOverlay;
      selectedTrend := None;
      onboarded := true;
      favorites := [];
      notifEnabled := false;
      trends := FALLBACK_TRENDS;
      loadingTrends := false;
      storage := persisted;
      scheduledDigests := scheduled;
      FallbackWellFormed();
    }

    /** The mount effect: read the three keys, then fetch live trends with the
        same steps as `refreshTrends`. */
    method Load(outcome: FetchOutcome)
      requires Valid()
      modifies this`onboarded, this`stack, this`favorites, this`notifEnabled, this`trends, this`loadingTrends
      ensures Valid()
      ensures onboarded == (old(onboarded) && ReadText(storage, KEY_ONBOARDED) != "")
      ensures stack == if ReadText(storage, KEY_ONBOARDED) == "" then Onboarding else old(stack)
      ensures favorites == if KEY_FAVORITES in storage then ReadIds(storage) else old(favorites)
      ensures notifEnabled ==
        if ReadText(storage, KEY_NOTIF_ENABLED) != "" then ReadText(storage, KEY_NOTIF_ENABLED) == "1"
        else old(notifEnabled)
      ensures trends == NextSnapshot(old(trends), FetchTrends(outcome)) && !loadingTrends
      ensures old(onboarded && favorites == [] && !notifEnabled) ==> Synced()
    {
      RestoreUserState();
      RefreshTrends(outcome);
    }

    /** The first half of the mount effect: the three stored keys. A missing
        onboarding flag opens the onboarding overlay. */
    method RestoreUserState()
      requires Valid()
      modifies this`onboarded, this`stack, this`favorites, this`notifEnabled
      ensures Valid()
      ensures onboarded == (old(onboarded) && ReadText(storage, KEY_ONBOARDED) != "")
      ensures stack == if ReadText(storage, KEY_ONBOARDED) == "" then Onboarding else old(stack)
      ensures favorites == if KEY_FAVORITES in storage then ReadIds(storage) else old(favorites)
      ensures notifEnabled ==
        if ReadText(storage, KEY_NOTIF_ENABLED) != "" then ReadText(storage, KEY_NOTIF_ENABLED) == "1"
        else old(notifEnabled)
      ensures old(onboarded && favorites == [] && !notifEnabled) ==> Synced()
    {
      var o := ReadText(storage, KEY_ONBOARDED);
      var n := ReadText(storage, KEY_NOTIF_ENABLED);
      if o == "" {
        onboarded := false;
        stack := Onboarding;
      }
      if KEY_FAVORITES in storage {
        favorites := ReadIds(storage);
      }
      if n != "" {
        notifEnabled := n == "1";
      }
    }

    /** `setLoadingTrends(true)` before a fetch. */
    method BeginFetch()
      requires Valid()
      modifies this`loadingTrends
      ensures Valid() && loadingTrends
    {
      loadingTrends := true;
    }

    /** After a fetch: replace the snapshot only by a non-empty result, then clear the indicator. */
    method ApplyFetch(outcome: FetchOutcome)
      requires Valid()
      modifies this`trends, this`loadingTrends
      ensures Valid()
      ensures trends == NextSnapshot(old(trends), FetchTrends(outcome)) && !loadingTrends
    {
      var live := FetchTrends(outcome);
      if |live| > 0 {
        trends := live;
      }
      loadingTrends := false;
    }

    /** `refreshTrends`, the header's Refresh button. */
    method RefreshTrends(outcome: FetchOutcome)
      requires Valid()
      modifies this`trends, this`loadingTrends
      ensures Valid()
      ensures trends == NextSnapshot(old(trends), FetchTrends(outcome)) && !loadingTrends
      ensures FetchTrends(outcome) == [] ==> trends == old(trends)
    {
      BeginFetch();
      ApplyFetch(outcome);
    }

    /** `toggleNotifications(next)`. `permitted` is the platform's answer to the
        permission request: granted, or provisional on iOS. Enabling without
        permission changes nothing; otherwise the daily digest is scheduled
        (after cancelling everything) or cancelled, and the choice is stored. */
    method ToggleNotifications(next: bool, permitted: bool)
      requires Valid()
      modifies this`notifEnabled, this`storage, this`scheduledDigests
      ensures Valid()
      ensures next && !permitted ==>
        notifEnabled == old(notifEnabled) && storage == old(storage) &&
        scheduledDigests == old(scheduledDigests)
      ensures !(next && !permitted) ==>
        notifEnabled == next &&
        storage == old(storage)[KEY_NOTIF_ENABLED := Str(if next then "1" else "0")] &&
        scheduledDigests == (if next then 1 else 0)
      ensures old(Synced()) ==> Synced()
    {
      if next {
        if !permitted {
          return;
        }
        scheduledDigests := 1;
      } else {
        scheduledDigests := 0;
      }
      storage := storage[KEY_NOTIF_ENABLED := Str(if next then "1" else "0")];
      notifEnabled := next;
    }

    /** `toggleFav(id)`: update the list and store it. */
    method ToggleFav(id: string)
      requires Valid()
      modifies this`favorites, this`storage
      ensures Valid()
      ensures favorites == Toggled(old(favorites), id)
      ensures storage == old(storage)[KEY_FAVORITES := IdList(favorites)]
      ensures old(Synced()) ==> Synced()
    {
      favorites := Toggled(favorites, id);
      storage := storage[KEY_FAVORITES := IdList(favorites)];
    }

    /** `openDetail(t)`. */
    method OpenDetail(t: Trend)
      requires Valid()
      modifies this`selectedTrend, this`stack
      ensures Valid()
      ensures selectedTrend == Some(t) && stack == Detail
      ensures Screen() == DetailView(t) && !TabBarShown(stack)
    {
      selectedTrend := Some(t);
      stack := Detail;
    }

    /** Settings' "About & Sources" row. */
    method OpenAbout()
      requires Valid()
      modifies this`stack
      ensures Valid() && stack == About
      ensures Screen() == AboutView
    {
      stack := About;
    }

    /** The back button of the Detail and About screens. */
    method Back()
      requires Valid()
      requires stack == Detail || stack == About
      modifies this`stack
      ensures Valid() && stack == NoOverlay
      ensures Screen() == TabView(tab) && TabBarShown(stack)
    {
      stack := NoOverlay;
    }

    /** A press on a tab. The tab bar is only rendered without an overlay, so a
        press lands only then. */
    method PressTab(k: Tab)
      requires Valid()
      modifies this`tab
      ensures Valid()
      ensures tab == if stack == NoOverlay then k else old(tab)
    {
      if stack == NoOverlay {
        tab := k;
      }
    }

    /** `completeOnboarding(enableDaily)`: record the onboarding, close the
        overlay, and optionally turn the daily digest on. */
    method CompleteOnboarding(enableDaily: bool, permitted: bool)
      requires Valid()
      modifies this`storage, this`onboarded, this`stack, this`notifEnabled, this`scheduledDigests
      ensures Valid()
      ensures onboarded && stack == NoOverlay && Screen() == TabView(tab)
      ensures tab == old(tab) && favorites == old(favorites) && trends == old(trends)
      ensures selectedTrend == old(selectedTrend) && loadingTrends == old(loadingTrends)
      ensures enableDaily && permitted ==>
        notifEnabled && scheduledDigests == 1 &&
        storage == old(storage)[KEY_ONBOARDED := Str("1")][KEY_NOTIF_ENABLED := Str("1")]
      ensures !(enableDaily && permitted) ==>
        notifEnabled == old(notifEnabled) && scheduledDigests == old(scheduledDigests) &&
        storage == old(storage)[KEY_ONBOARDED := Str("1")]
      ensures old(Synced()) ==> Synced()
    {
      storage := storage[KEY_ONBOARDED := Str("1")];
      onboarded := true;
      stack := NoOverlay;
      if enableDaily {
        ToggleNotifications(true, permitted);
      }
    }
  }

  /** Mounting the app: the state cells' initial values followed by the load effect. */
  method Mount(persisted: map<string, Stored>, scheduled: nat, outcome: FetchOutcome) returns (app: App)
    requires WellFormedStorage(persisted)
    ensures fresh(app)
    ensures app.Valid() && app.Synced()
    ensures app.storage == persisted && app.scheduledDigests == scheduled
    ensures app.tab == Home && !app.loadingTrends
    ensures app.stack == if ReadText(persisted, KEY_ONBOARDED) == "" then Onboarding else NoOverlay
    ensures app.Screen() == if ReadText(persisted, KEY_ONBOARDED) == "" then OnboardingView else TabView(Home)
    ensures app.favorites == ReadIds(persisted)
    ensures app.notifEnabled == (ReadText(persisted, KEY_NOTIF_ENABLED) == "1")
    ensures app.trends == NextSnapshot(FALLBACK_TRENDS, FetchTrends(outcome))
  {
    app := new App(persisted, scheduled);
    app.Load(outcome);
  }

  // ---------------------------------------------------------------------------
  // Walkthroughs

  /** A fresh install, onboarding completed with the digest on and permission
      granted: both keys are stored and the tabs are shown on Home. */
  method FreshInstallWithDigest(outcome: FetchOutcome) returns (app: App)
    ensures app.storage == map[KEY_ONBOARDED := Str("1"), KEY_NOTIF_ENABLED := Str("1")]
    ensures app.onboarded && app.notifEnabled && app.scheduledDigests == 1
    ensures app.stack == NoOverlay && app.tab == Home
  {
    app := Mount(map[], 0, outcome);
    assert app.stack == Onboarding;
    app.CompleteOnboarding(true, true);
  }

  /** Enabling the digest without permission leaves it off in memory and in the store. */
  method DeniedDigestStaysOff(outcome: FetchOutcome) returns (app: App)
    ensures !app.notifEnabled && KEY_NOTIF_ENABLED !in app.storage && app.scheduledDigests == 0
  {
    app := Mount(map[KEY_ONBOARDED := Str("1")], 0, outcome);
    app.ToggleNotifications(true, false);
  }

  /** A trend favorited before a restart is the one trend on the Favorites tab
      after it, when both fetches fail. */
  method FavoriteSurvivesRestart() returns (app: App)
    ensures app.favorites == ["ratio"]
    ensures FavoriteTrends(app.trends, app.favorites) == [FALLBACK_TRENDS[2]]
  {
    var first := Mount(map[], 0, Failed);
    first.ToggleFav("ratio");
    app := Mount(first.storage, first.scheduledDigests, Failed);
    FallbackWellFormed();
    SingleFavoriteShowsItsTrend(FALLBACK_TRENDS, "ratio");
  }
}
