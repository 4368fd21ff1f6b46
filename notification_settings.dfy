/**
 * The notification-settings service: an organisation's `notification` object
 * lives under the `notification` key of `organizations.settings`. `get` reads
 * it (falling back to the defaults), `update` rewrites only that key and keeps
 * every other key of the settings object. In demo mode both work on one
 * in-memory object instead.
 *
 * A select or update reports at most one error; the model receives it as an
 * `Option<DbError>` beside the table. `.single()` reports an error unless
 * exactly one row matches, so when the select's error is None the row is
 * `Single(orgs, id == orgId)`.
 */
module NotificationSettingsService {
  import opened Common
  import opened Tables
  import Supabase

  predicate UniqueOrgIds(orgs: seq<Organization>) {
    forall i, j :: 0 <= i < j < |orgs| ==> orgs[i].id != orgs[j].id
  }

  /** `(data?.settings ?? {})` of the selected row: an absent row reads as an empty settings object. */
  function StoredSettings(orgs: seq<Organization>, orgId: string): (r: OrgSettings)
    ensures (exists o :: o in orgs && o.id == orgId && |Filter(orgs, (x: Organization) => x.id == orgId)| == 1 && r == o.settings)
      || r == OrgSettings(None, map[])
  {
    var row := Single(orgs, (o: Organization) => o.id == orgId);
    if row.Some? then row.value.settings else OrgSettings(None, map[])
  }

  /**
   * `get` outside demo mode: the select's error is thrown; otherwise the stored
   * notification object, or the defaults when there is none.
   */
  function Get(orgs: seq<Organization>, orgId: string, readError: Option<DbError>, defaults: NotificationSettings): (r: Result<NotificationSettings>)
    ensures readError.Some? <==> r.Err?
    ensures readError.Some? ==> r.message == readError.value.message
    ensures readError.None? && StoredSettings(orgs, orgId).notification.Some? ==> r == Ok(StoredSettings(orgs, orgId).notification.value)
    ensures readError.None? && StoredSettings(orgs, orgId).notification.None? ==> r == Ok(defaults)
  {
    if readError.Some? then Supabase.HandleSupabaseError(readError.value)
    else
      var settings := StoredSettings(orgs, orgId);
      Ok(if settings.notification.Some? then settings.notification.value else defaults)
  }

  type DbError = Supabase.DbError

  /** `{ ...existingSettings, notification }`: the notification key replaced, every other key kept. */
  function WithNotification(existing: OrgSettings, notification: NotificationSettings): (r: OrgSettings)
    ensures r.notification == Some(notification) && r.others == existing.others
  {
    existing.(notification := Some(notification))
  }

  /**
   * `update` outside demo mode: the new table and the reply. A failed select
   * throws before anything is written; a failed update writes nothing; otherwise
   * every row with the organisation's id gets the merged settings and the given
   * notification object is returned.
   */
  function Update(orgs: seq<Organization>, orgId: string, notification: NotificationSettings,
                  fetchError: Option<DbError>, writeError: Option<DbError>): (r: (Result<NotificationSettings>, seq<Organization>))
    ensures fetchError.Some? ==> r.0 == Err(fetchError.value.message) && r.1 == orgs
    ensures fetchError.None? && writeError.Some? ==> r.0 == Err(writeError.value.message) && r.1 == orgs
    ensures fetchError.None? && writeError.None? ==> r.0 == Ok(notification)
    ensures |r.1| == |orgs|
    ensures forall i :: 0 <= i < |orgs| && orgs[i].id != orgId ==> r.1[i] == orgs[i]
    ensures forall i :: 0 <= i < |orgs| && r.1[i] != orgs[i] ==>
      r.1[i] == orgs[i].(settings := WithNotification(StoredSettings(orgs, orgId), notification))
  {
    if fetchError.Some? then (Supabase.HandleSupabaseError(fetchError.value), orgs)
    else
      var newSettings := WithNotification(StoredSettings(orgs, orgId), notification);
      if writeError.Some? then (Supabase.HandleSupabaseError(writeError.value), orgs)
      else
        (Ok(notification),
         UpdateWhere(orgs, (o: Organization) => o.id == orgId, (o: Organization) => o.(settings := newSettings)))
  }

  /** With unique ids, `.single()` on an id finds the row at that index. */
  lemma SingleAt(orgs: seq<Organization>, j: nat)
    requires UniqueOrgIds(orgs) && j < |orgs|
    ensures Single(orgs, (o: Organization) => o.id == orgs[j].id) == Some(orgs[j])
  {
    var p := (o: Organization) => o.id == orgs[j].id;
    assert forall i :: 0 <= i < |orgs| && i != j ==> !p(orgs[i]);
    FilterExactlyOne(orgs, p, j);
  }

  /**
   * An update that succeeds on a stored organisation never touches the other
   * keys of its settings: the organisation keeps its name and token, and its
   * settings keep every key other than `notification`.
   */
  lemma UpdateKeepsOtherSettings(orgs: seq<Organization>, j: nat, notification: NotificationSettings)
    requires UniqueOrgIds(orgs) && j < |orgs|
    ensures var after := Update(orgs, orgs[j].id, notification, None, None).1;
      after[j] == orgs[j].(settings := OrgSettings(Some(notification), orgs[j].settings.others))
  {
    SingleAt(orgs, j);
  }

  /** Reading back after a successful update returns the notification object just written. */
  lemma GetAfterUpdate(orgs: seq<Organization>, j: nat, notification: NotificationSettings, defaults: NotificationSettings)
    requires UniqueOrgIds(orgs) && j < |orgs|
    ensures var after := Update(orgs, orgs[j].id, notification, None, None).1;
      Get(after, orgs[j].id, None, defaults) == Ok(notification)
  {
    var id := orgs[j].id;
    var after := Update(orgs, id, notification, None, None).1;
    UpdateKeepsOtherSettings(orgs, j, notification);
    assert UniqueOrgIds(after) by {
      forall a, b | 0 <= a < b < |after| ensures after[a].id != after[b].id {
        assert after[a].id == orgs[a].id && after[b].id == orgs[b].id;
      }
    }
    SingleAt(after, j);
  }

  /** The in-memory settings of demo mode, starting from the defaults. */
  class DemoSettings {
    var settings: NotificationSettings

    constructor(defaults: NotificationSettings)
      ensures settings == defaults
    {
      settings := defaults;
    }

    /** `get` in demo mode: a copy of the stored object. */
    method Get() returns (r: NotificationSettings)
      ensures r == settings
    {
      r := settings;
    }

    /** `update` in demo mode: the object replaced by a copy of the argument, which is returned. */
    method Update(notification: NotificationSettings) returns (r: NotificationSettings)
      modifies this
      ensures settings == notification && r == notification
    {
      settings := notification;
      r := settings;
    }
  }

  /** In demo mode too, reading after an update gives back what was written. */
  method DemoGetAfterUpdate(store: DemoSettings, notification: NotificationSettings) returns (r: NotificationSettings)
    modifies store
    ensures r == notification
  {
    var _ := store.Update(notification);
    r := store.Get();
  }
}
