/** The per-user settings hook: its `settings` / `loading` slots, the fetch that tolerates
    a missing row, and the upsert whose payload merges the caller's updates. */
module UseUserSettings {

  import opened Outcomes
  import opened DatabaseTypes
  import opened AuthStore

  const SettingsTable: string := "user_settings"

  /** The error code the store reports when `.single()` finds no row. */
  const NoRowCode: string := "PGRST116"

  datatype StoreError = StoreError(code: string, message: string)

  /** What a `.single()` call produced: `{data, error}`, or a throw. */
  datatype SingleOutcome = Response(data: Option<SettingsRow>, error: Option<StoreError>) | Rejected(thrown: Thrown)

  /** What a failed call rethrows: the reported error object, or what the call threw. */
  datatype Failure = Reported(error: StoreError) | Threw(thrown: Thrown)

  /** `select('*').eq('user_id', id).single()` on `user_settings`. */
  datatype SettingsQuery = SettingsQuery(table: string, userIdEquals: string)

  /** How `updateSettings` settles: nothing done without a user, the stored row, or a
      rethrown failure. */
  datatype UpdateResult = NoUser | Saved(row: Option<SettingsRow>) | Rethrew(failure: Failure)

  /** Whether `fetchSettings` takes the response: it has no error, or only the no-row one. */
  predicate FetchAccepts(o: SingleOutcome)
    ensures o.Rejected? ==> !FetchAccepts(o)
    ensures o.Response? && o.error.None? ==> FetchAccepts(o)
    ensures o.Response? && o.error.Some? ==> (FetchAccepts(o) <==> o.error.value.code == NoRowCode)
  {
    o.Response? && (o.error.None? || o.error.value.code == NoRowCode)
  }

  /** The upsert payload `{user_id, ...updates, updated_at}`: later keys win, so the fresh
      stamp always wins, the caller's `user_id` (if any) overrides the signed-in one, and
      every other update is sent as given. */
  function UpsertPayload(userId: string, updates: map<string, Value>, now: string): (p: map<string, Value>)
    ensures p.Keys == updates.Keys + {"user_id", "updated_at"}
    ensures p["updated_at"] == Text(now)
    ensures p["user_id"] == if "user_id" in updates then updates["user_id"] else Text(userId)
    ensures forall k :: k in updates && k != "updated_at" ==> p[k] == updates[k]
  {
    map["user_id" := Text(userId)] + updates + map["updated_at" := Text(now)]
  }

  /** The state of one `useUserSettings()` instance; `user` is what it reads from the
      session store at its last render. */
  class SettingsHook {
    var user: Option<User>
    var settings: Option<SettingsRow>
    var loading: bool

    /** `useState(null)`, `useState(true)`. */
    constructor (user: Option<User>)
      ensures this.user == user && settings == None && loading
    {
      this.user := user;
      settings := None;
      loading := true;
    }

    /** The effect on `[user]`, run on mount and whenever the store's user changes: with a
        user it starts a fetch; without one it clears the settings and `loading`. */
    method UserEffect(newUser: Option<User>) returns (q: Option<SettingsQuery>)
      modifies this
      ensures user == newUser
      ensures newUser.None? ==> q == None && settings == None && !loading
      ensures newUser.Some? ==>
                q == Some(SettingsQuery(SettingsTable, newUser.value.id)) && loading && settings == old(settings)
    {
      user := newUser;
      if newUser.Some? {
        q := BeginFetch();
      } else {
        settings := None;
        loading := false;
        q := None;
      }
    }

    /** The start of `fetchSettings`: a no-op without a user; otherwise `loading` is set and
        the query for the user's row is issued. */
    method BeginFetch() returns (q: Option<SettingsQuery>)
      modifies this`loading
      ensures user.None? ==> q == None && loading == old(loading)
      ensures user.Some? ==> q == Some(SettingsQuery(SettingsTable, user.value.id)) && loading
    {
      if user.None? {
        return None;
      }
      loading := true;
      q := Some(SettingsQuery(SettingsTable, user.value.id));
    }

    /** The end of `fetchSettings`: an accepted response (including "no row", which yields
        `null`) replaces the settings; any other failure is swallowed and keeps them;
        `loading` ends false either way. */
    method CompleteFetch(outcome: SingleOutcome)
      modifies this`settings, this`loading
      ensures !loading
      ensures FetchAccepts(outcome) ==> settings == outcome.data
      ensures !FetchAccepts(outcome) ==> settings == old(settings)
    {
      if FetchAccepts(outcome) {
        settings := outcome.data;
      }
      loading := false;
    }

    /** `updateSettings`: a no-op without a user; otherwise the merged payload is sent, a
        clean response is stored and returned, and any error (the no-row code included)
        is rethrown with the settings kept. `loading` is never touched. */
    method UpdateSettings(updates: map<string, Value>, now: string, outcome: SingleOutcome)
      returns (payload: Option<map<string, Value>>, result: UpdateResult)
      modifies this`settings
      ensures user.None? ==> payload == None && result == NoUser && settings == old(settings)
      ensures user.Some? ==> payload == Some(UpsertPayload(user.value.id, updates, now))
      ensures user.Some? && outcome.Response? && outcome.error.None? ==>
                settings == outcome.data && result == Saved(outcome.data)
      ensures user.Some? && outcome.Response? && outcome.error.Some? ==>
                settings == old(settings) && result == Rethrew(Reported(outcome.error.value))
      ensures user.Some? && outcome.Rejected? ==>
                settings == old(settings) && result == Rethrew(Threw(outcome.thrown))
    {
      if user.None? {
        return None, NoUser;
      }
      payload := Some(UpsertPayload(user.value.id, updates, now));
      match outcome {
        case Response(data, None) =>
          settings := data;
          result := Saved(data);
        case Response(_, Some(e)) =>
          result := Rethrew(Reported(e));
        case Rejected(thrown) =>
          result := Rethrew(Threw(thrown));
      }
    }
  }
}
