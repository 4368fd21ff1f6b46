/**
 * The notification-settings screen: a local copy of the organisation's
 * notification object and a "has changes" flag. Switches and time pickers edit
 * the copy, loading the saved object replaces it, and saving clears the flag
 * only when the write succeeds.
 */
module NotificationSettingsPage {
  import opened Common
  import opened Tables

  datatype PageState = PageState(settings: NotificationSettings, hasChanges: bool)

  /** The four switches the screen shows, in display order. */
  const NotificationItems: seq<string> := ["morningReminder", "preWorkAlert", "postWorkAlert", "adminSummary"]

  /** The screen before anything is loaded: the defaults, unchanged. */
  function Initial(defaults: NotificationSettings): (st: PageState)
    ensures st.settings == defaults && !st.hasChanges
  {
    PageState(defaults, false)
  }

  /** Users that are logged in but not organisation admins are sent back to the dashboard. */
  predicate Redirects(authLoading: bool, userRole: Option<AdminRole>) {
    !authLoading && userRole.Some? && userRole.value != OrgAdmin
  }

  /**
   * Only a signed-in user of another role is sent away: never while the
   * session is loading, never without a user, and never an organisation admin.
   */
  lemma RedirectsOnlyOtherRoles(authLoading: bool, userRole: Option<AdminRole>)
    ensures authLoading || userRole.None? ==> !Redirects(authLoading, userRole)
    ensures userRole == Some(OrgAdmin) ==> !Redirects(authLoading, userRole)
    ensures !authLoading && userRole.Some? && userRole.value != OrgAdmin ==> Redirects(authLoading, userRole)
  {
  }

  /** The effect run when the saved object arrives: it replaces the copy and clears the flag. */
  function Loaded(st: PageState, saved: Option<NotificationSettings>): (r: PageState)
    ensures saved.Some? ==> r == PageState(saved.value, false)
    ensures saved.None? ==> r == st
  {
    if saved.Some? then PageState(saved.value, false) else st
  }

  /** `handleToggle`: the switch under `key` flipped, its time kept, the flag set. */
  function HandleToggle(st: PageState, key: string): (r: PageState)
    requires key in st.settings
    ensures r.hasChanges
    ensures r.settings.Keys == st.settings.Keys
    ensures r.settings[key] == Toggle(!st.settings[key].enabled, st.settings[key].time)
    ensures forall k :: k in st.settings && k != key ==> r.settings[k] == st.settings[k]
  {
    var t := st.settings[key];
    PageState(st.settings[key := t.(enabled := !t.enabled)], true)
  }

  /** `handleTimeChange`: the time under `key` replaced, its switch kept, the flag set. */
  function HandleTimeChange(st: PageState, key: string, time: string): (r: PageState)
    requires key in st.settings
    ensures r.hasChanges
    ensures r.settings.Keys == st.settings.Keys
    ensures r.settings[key] == Toggle(st.settings[key].enabled, time)
    ensures forall k :: k in st.settings && k != key ==> r.settings[k] == st.settings[k]
  {
    var t := st.settings[key];
    PageState(st.settings[key := t.(time := time)], true)
  }

  /**
   * `handleSave`, once the write has finished: without an organisation nothing
   * happens; a successful write clears the flag; a failed one keeps it (and the copy).
   */
  function HandleSave(st: PageState, hasOrganization: bool, writeOk: bool): (r: PageState)
    ensures r.settings == st.settings
    ensures r.hasChanges == (st.hasChanges && !(hasOrganization && writeOk))
  {
    if !hasOrganization then st
    else if writeOk then st.(hasChanges := false)
    else st
  }

  /** The save button is enabled only with unsaved changes and no write in flight. */
  predicate SaveEnabled(st: PageState, pending: bool) {
    st.hasChanges && !pending
  }

  /**
   * The save button through an edit cycle: any edit enables it while no write
   * is in flight; loading saved settings or a successful save disables it; a
   * failed save leaves it as it was.
   */
  lemma SaveButtonFollowsChanges(st: PageState, key: string, time: string, saved: NotificationSettings, pending: bool)
    requires key in st.settings
    ensures SaveEnabled(HandleToggle(st, key), false) && SaveEnabled(HandleTimeChange(st, key, time), false)
    ensures !SaveEnabled(Loaded(st, Some(saved)), pending) && !SaveEnabled(HandleSave(st, true, true), pending)
    ensures SaveEnabled(HandleSave(st, true, false), pending) == SaveEnabled(st, pending)
  {
  }

  /** The keys whose switch is on. */
  function EnabledKeys(settings: NotificationSettings): (r: set<string>)
    ensures forall k :: k in r <==> k in settings && settings[k].enabled
  {
    set k | k in settings && settings[k].enabled
  }

  /** `Object.values(settings).filter(s => s.enabled).length`. */
  function EnabledCount(settings: NotificationSettings): (r: nat)
    ensures r <= |settings|
  {
    assert EnabledKeys(settings) <= settings.Keys;
    CardinalityOfSubset(EnabledKeys(settings), settings.Keys);
    |EnabledKeys(settings)|
  }

  lemma CardinalityOfSubset(a: set<string>, b: set<string>)
    requires a <= b
    ensures |a| <= |b|
  {
    if a != {} {
      var x :| x in a;
      CardinalityOfSubset(a - {x}, b - {x});
    }
  }

  /** Flipping one switch moves the count of enabled switches by exactly one, up or down. */
  lemma ToggleMovesCountByOne(st: PageState, key: string)
    requires key in st.settings
    ensures st.settings[key].enabled ==> EnabledCount(HandleToggle(st, key).settings) == EnabledCount(st.settings) - 1
    ensures !st.settings[key].enabled ==> EnabledCount(HandleToggle(st, key).settings) == EnabledCount(st.settings) + 1
  {
    var before := EnabledKeys(st.settings);
    var after := EnabledKeys(HandleToggle(st, key).settings);
    if st.settings[key].enabled {
      assert after == before - {key};
    } else {
      assert after == before + {key};
    }
  }

  /** Flipping the same switch twice gives back the settings it started from. */
  lemma ToggleTwiceRestores(st: PageState, key: string)
    requires key in st.settings
    ensures HandleToggle(HandleToggle(st, key), key).settings == st.settings
  {
    var r := HandleToggle(HandleToggle(st, key), key).settings;
    assert forall k :: k in st.settings ==> r[k] == st.settings[k];
  }

  /** The `i`-th half-hour slot from 06:00, as `HH:MM`. */
  function Slot(i: nat): (r: string)
    requires i < 32
    ensures |r| == 5 && r[2] == ':'
  {
    var h := 6 + i / 2;
    [Digit(h / 10), Digit(h % 10), ':', if i % 2 == 0 then '0' else '3', '0']
  }

  const TimeOptions: seq<string> := [
    "06:00", "06:30", "07:00", "07:30", "08:00", "08:30", "09:00", "09:30",
    "10:00", "10:30", "11:00", "11:30", "12:00", "12:30", "13:00", "13:30",
    "14:00", "14:30", "15:00", "15:30", "16:00", "16:30", "17:00", "17:30",
    "18:00", "18:30", "19:00", "19:30", "20:00", "20:30", "21:00", "21:30"]

  /** The time picker offers every half hour from 06:00 to 21:30, in order. */
  lemma TimeOptionsAreHalfHours()
    ensures |TimeOptions| == 32
    ensures forall i :: 0 <= i < 32 ==> TimeOptions[i] == Slot(i)
  {
    SlotsMorning();
    SlotsMidday();
    SlotsAfternoon();
    SlotsEvening();
  }

  lemma SlotsMorning()
    ensures forall i :: 0 <= i < 8 ==> TimeOptions[i] == Slot(i)
  {
    forall i | 0 <= i < 8 ensures TimeOptions[i] == Slot(i) {
      if i == 0 { } else if i == 1 { } else if i == 2 { } else if i == 3 { } else
      if i == 4 { } else if i == 5 { } else if i == 6 { } else { }
    }
  }

  lemma SlotsMidday()
    ensures forall i :: 8 <= i < 16 ==> TimeOptions[i] == Slot(i)
  {
    forall i | 8 <= i < 16 ensures TimeOptions[i] == Slot(i) {
      if i == 8 { } else if i == 9 { } else if i == 10 { } else if i == 11 { } else
      if i == 12 { } else if i == 13 { } else if i == 14 { } else { }
    }
  }

  lemma SlotsAfternoon()
    ensures forall i :: 16 <= i < 24 ==> TimeOptions[i] == Slot(i)
  {
    forall i | 16 <= i < 24 ensures TimeOptions[i] == Slot(i) {
      if i == 16 { } else if i == 17 { } else if i == 18 { } else if i == 19 { } else
      if i == 20 { } else if i == 21 { } else if i == 22 { } else { }
    }
  }

  lemma SlotsEvening()
    ensures forall i :: 24 <= i < 32 ==> TimeOptions[i] == Slot(i)
  {
    forall i | 24 <= i < 32 ensures TimeOptions[i] == Slot(i) {
      if i == 24 { } else if i == 25 { } else if i == 26 { } else if i == 27 { } else
      if i == 28 { } else if i == 29 { } else if i == 30 { } else { }
    }
  }
}
