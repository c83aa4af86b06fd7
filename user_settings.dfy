/** Per-user settings: one record per user, created once, read, and partially
    updated by copying every field of the update that is not None. */
module UserSettingsService {
  import opened Wrappers
  import opened Http

  /** A threshold the request schemas accept: an integer in (0, 100]. */
  type Threshold = x: int | 0 < x <= 100 witness 1

  /** A stored settings record. */
  datatype UserSettings = UserSettings(
    id: int,
    userId: int,
    fatigueThreshold: int,
    distractionThreshold: int)

  datatype UserSettingsCreate = UserSettingsCreate(
    userId: int,
    fatigueThreshold: Threshold,
    distractionThreshold: Threshold)

  /** A partial update: None leaves a field as it is. */
  datatype UserSettingsUpdate = UserSettingsUpdate(
    fatigueThreshold: Option<Threshold>,
    distractionThreshold: Option<Threshold>)

  /** The fields an update carries, in declaration order. */
  datatype Field = FatigueThreshold | DistractionThreshold

  const AlreadyExists: HttpError := HttpError(ConflictStatus, "Settings already exist for this user")
  const SettingsNotFound: HttpError := HttpError(NotFoundStatus, "User settings not found")

  /** Both thresholds lie in (0, 100]. */
  predicate ThresholdsInRange(s: UserSettings) {
    0 < s.fatigueThreshold <= 100 && 0 < s.distractionThreshold <= 100
  }

  /** The update's fields and values, as `model_dump().items()` lists them. */
  function Items(data: UserSettingsUpdate): seq<(Field, Option<Threshold>)> {
    [(FatigueThreshold, data.fatigueThreshold), (DistractionThreshold, data.distractionThreshold)]
  }

  /** `setattr(settings, field, value)`. */
  function SetField(s: UserSettings, field: Field, value: int): UserSettings {
    match field
    case FatigueThreshold => s.(fatigueThreshold := value)
    case DistractionThreshold => s.(distractionThreshold := value)
  }

  /** The settings after the update: each field given a value takes it, each field
      given None keeps its old value, and the ids never change. */
  function Merged(s: UserSettings, data: UserSettingsUpdate): (r: UserSettings)
    ensures r.id == s.id && r.userId == s.userId
    ensures data.fatigueThreshold.Some? ==> r.fatigueThreshold == data.fatigueThreshold.value
    ensures data.fatigueThreshold.None? ==> r.fatigueThreshold == s.fatigueThreshold
    ensures data.distractionThreshold.Some? ==> r.distractionThreshold == data.distractionThreshold.value
    ensures data.distractionThreshold.None? ==> r.distractionThreshold == s.distractionThreshold
  {
    s.(fatigueThreshold := if data.fatigueThreshold.Some? then data.fatigueThreshold.value else s.fatigueThreshold,
       distractionThreshold := if data.distractionThreshold.Some? then data.distractionThreshold.value else s.distractionThreshold)
  }

  /** Applies the first `n` items of the update to `s`. */
  function MergedPrefix(s: UserSettings, items: seq<(Field, Option<Threshold>)>, n: nat): UserSettings
    requires n <= |items|
  {
    if n == 0 then s
    else
      var prev := MergedPrefix(s, items, n - 1);
      if items[n - 1].1.Some? then SetField(prev, items[n - 1].0, items[n - 1].1.value) else prev
  }

  /** The merge loop: every item whose value is not None is written onto the record. */
  method ApplyUpdate(settings: UserSettings, data: UserSettingsUpdate) returns (r: UserSettings)
    ensures r == Merged(settings, data)
  {
    var items := Items(data);
    r := settings;
    for i := 0 to |items|
      invariant r == MergedPrefix(settings, items, i)
    {
      var (field, value) := items[i];
      if value.Some? {
        r := SetField(r, field, value.value);
      }
    }
  }

  /** An update with every field None changes nothing. */
  lemma EmptyUpdateIsIdentity(s: UserSettings)
    ensures Merged(s, UserSettingsUpdate(None, None)) == s
  {
  }

  /** Applying the same update twice is the same as applying it once. */
  lemma MergeIdempotent(s: UserSettings, data: UserSettingsUpdate)
    ensures Merged(Merged(s, data), data) == Merged(s, data)
  {
  }

  /** Two updates in a row are one update in which the later value of each field wins. */
  lemma MergeCompose(s: UserSettings, first: UserSettingsUpdate, second: UserSettingsUpdate)
    ensures Merged(Merged(s, first), second) ==
      Merged(s, UserSettingsUpdate(
        if second.fatigueThreshold.Some? then second.fatigueThreshold else first.fatigueThreshold,
        if second.distractionThreshold.Some? then second.distractionThreshold else first.distractionThreshold))
  {
  }

  /** Every threshold an update writes is in (0, 100], so the range is kept. */
  lemma MergeKeepsRange(s: UserSettings, data: UserSettingsUpdate)
    requires ThresholdsInRange(s)
    ensures ThresholdsInRange(Merged(s, data))
  {
  }

  function NewSettings(data: UserSettingsCreate, id: int): (r: UserSettings)
    ensures r.id == id && r.userId == data.userId
    ensures r.fatigueThreshold == data.fatigueThreshold && r.distractionThreshold == data.distractionThreshold
    ensures ThresholdsInRange(r)
  {
    UserSettings(id, data.userId, data.fatigueThreshold, data.distractionThreshold)
  }

  /** The settings table, keyed by user: at most one record per user. */
  class SettingsStore {
    var byUser: map<int, UserSettings>

    /** Each record sits under its own user and holds thresholds in range. */
    ghost predicate Valid()
      reads this
    {
      forall u :: u in byUser ==> byUser[u].userId == u && ThresholdsInRange(byUser[u])
    }

    constructor ()
      ensures Valid() && byUser == map[]
    {
      byUser := map[];
    }

    /** Stores settings for a user that has none; a second record is a conflict. */
    method CreateUserSettings(data: UserSettingsCreate, freshId: int) returns (r: Result<UserSettings, HttpError>)
      requires Valid()
      modifies this
      ensures Valid()
      ensures data.userId in old(byUser) ==> r == Err(AlreadyExists) && byUser == old(byUser)
      ensures data.userId !in old(byUser) ==>
        && r == Ok(NewSettings(data, freshId))
        && byUser == old(byUser)[data.userId := NewSettings(data, freshId)]
    {
      if data.userId in byUser {
        return Err(AlreadyExists);
      }
      var settings := NewSettings(data, freshId);
      byUser := byUser[data.userId := settings];
      return Ok(settings);
    }

    /** The user's settings, or not found. */
    method GetUserSettings(userId: int) returns (r: Result<UserSettings, HttpError>)
      requires Valid()
      ensures userId in byUser ==> r == Ok(byUser[userId]) && r.value.userId == userId
      ensures userId !in byUser ==> r == Err(SettingsNotFound)
    {
      if userId !in byUser {
        return Err(SettingsNotFound);
      }
      return Ok(byUser[userId]);
    }

    /** Merges the update into the user's settings; an unknown user is not found
        and nothing changes. */
    method UpdateUserSettings(userId: int, data: UserSettingsUpdate) returns (r: Result<UserSettings, HttpError>)
      requires Valid()
      modifies this
      ensures Valid()
      ensures userId !in old(byUser) ==> r == Err(SettingsNotFound) && byUser == old(byUser)
      ensures userId in old(byUser) ==>
        && r == Ok(Merged(old(byUser)[userId], data))
        && byUser == old(byUser)[userId := Merged(old(byUser)[userId], data)]
    {
      if userId !in byUser {
        return Err(SettingsNotFound);
      }
      MergeKeepsRange(byUser[userId], data);
      var settings := ApplyUpdate(byUser[userId], data);
      byUser := byUser[userId := settings];
      return Ok(settings);
    }
  }
}
