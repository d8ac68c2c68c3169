/**
 * The per-user cache of loaded formula settings: a map from user id to the
 * settings and the time they were stored, with a five-minute lifetime. The
 * clock (`Date.now()`, in milliseconds) is passed in as `now`.
 */
module FormulaSettingsCache {
  import opened Wrappers
  import opened SalesEngine

  /** Lifetime of an entry in milliseconds: 5 * 60 * 1000. */
  const CacheDuration: int := 5 * 60 * 1000

  /** What a lookup hands back. */
  datatype Settings = Settings(config: FormulaConfig, customFormulas: CustomFormulas)

  /** One stored entry. */
  datatype CachedSettings = CachedSettings(
    config: FormulaConfig,
    customFormulas: CustomFormulas,
    timestamp: int,
    userId: string
  )

  /** An entry is still usable at `now` unless it is strictly more than CacheDuration old. */
  predicate Fresh(entry: CachedSettings, now: int) {
    now - entry.timestamp <= CacheDuration
  }

  class SettingsCache {
    var entries: map<string, CachedSettings>

    /** The module-level map starts empty. */
    constructor ()
      ensures entries == map[]
    {
      entries := map[];
    }

    /** `isCacheValid`: there is an entry for the user and it has not expired. Reads, never writes. */
    predicate IsValid(userId: string, now: int)
      reads this
      ensures IsValid(userId, now) ==> userId in entries && forall t :: t <= now ==> Fresh(entries[userId], t)
    {
      userId in entries && Fresh(entries[userId], now)
    }

    /**
     * `getCachedSettings`: the stored settings when the entry is valid; none
     * when there is no entry; when the entry has expired it is deleted and none
     * is returned. Other users' entries are never touched.
     */
    method Get(userId: string, now: int) returns (r: Option<Settings>)
      modifies this
      ensures r.Some? <==> old(IsValid(userId, now))
      ensures r.Some? ==> r.value == Settings(old(entries)[userId].config, old(entries)[userId].customFormulas)
      ensures userId !in old(entries) ==> r == None && entries == old(entries)
      ensures entries == if userId in old(entries) && !Fresh(old(entries)[userId], now)
                         then old(entries) - {userId} else old(entries)
    {
      if userId !in entries {
        return None;
      }
      var cached := entries[userId];
      if now - cached.timestamp > CacheDuration {
        entries := entries - {userId};
        return None;
      }
      r := Some(Settings(cached.config, cached.customFormulas));
    }

    /** `setCachedSettings`: stores (or replaces) the user's entry stamped with `now`. */
    method Set(userId: string, config: FormulaConfig, customFormulas: CustomFormulas, now: int)
      modifies this
      ensures entries == old(entries)[userId := CachedSettings(config, customFormulas, now, userId)]
    {
      entries := entries[userId := CachedSettings(config, customFormulas, now, userId)];
    }

    /**
     * `clearCache`: with a user id (a non-empty string, which is truthy) removes
     * that user's entry only; with no id, or the empty string, empties the map.
     */
    method Clear(userId: Option<string>)
      modifies this
      ensures userId.Some? && userId.value != "" ==> entries == old(entries) - {userId.value}
      ensures userId.None? || userId.value == "" ==> entries == map[]
    {
      if userId.Some? && userId.value != "" {
        entries := entries - {userId.value};
      } else {
        entries := map[];
      }
    }
  }

  /**
   * Storing settings at time t and reading them back at any `now` up to
   * t + CacheDuration (the boundary included) returns exactly what was stored,
   * and leaves the entry in place.
   */
  method SetThenGet(cache: SettingsCache, userId: string, config: FormulaConfig,
                    customFormulas: CustomFormulas, t: int, now: int) returns (r: Option<Settings>)
    requires now <= t + CacheDuration
    modifies cache
    ensures r == Some(Settings(config, customFormulas))
    ensures cache.IsValid(userId, now)
    ensures cache.entries == old(cache.entries)[userId := CachedSettings(config, customFormulas, t, userId)]
  {
    cache.Set(userId, config, customFormulas, t);
    r := cache.Get(userId, now);
  }

  /** Reading after expiry returns nothing, removes only that user's entry, and a second read finds no entry. */
  method GetAfterExpiry(cache: SettingsCache, userId: string, now: int) returns (r1: Option<Settings>, r2: Option<Settings>)
    requires userId in cache.entries && now > cache.entries[userId].timestamp + CacheDuration
    modifies cache
    ensures r1 == None && r2 == None
    ensures cache.entries == old(cache.entries) - {userId}
  {
    r1 := cache.Get(userId, now);
    r2 := cache.Get(userId, now);
  }
}
