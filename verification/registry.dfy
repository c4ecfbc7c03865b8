/**
  `BaseTest`'s `ThreadLocal<AppiumDriver>` seen as an explicit map from
  worker to driver: `getDriver`, `setDriver` and `removeDriver` each act on
  the calling worker's slot only.
 */
module Registry {
  import opened JavaLang
  import opened Effects

  type Slots = map<Worker, DriverId>

  /** `getDriver()` on worker `w`: its driver, or `null` when the slot is empty. */
  function Get(s: Slots, w: Worker): (r: Option<DriverId>)
    ensures r.Some? <==> w in s
    ensures r.Some? ==> r.value == s[w]
  {
    if w in s then Some(s[w]) else None
  }

  /** `setDriver(d)` on worker `w`. */
  function Set(s: Slots, w: Worker, d: DriverId): (r: Slots)
    ensures Get(r, w) == Some(d)
    ensures r.Keys == s.Keys + {w}
  {
    s[w := d]
  }

  /** `removeDriver()` on worker `w`. */
  function Remove(s: Slots, w: Worker): (r: Slots)
    ensures Get(r, w).None?
    ensures r.Keys == s.Keys - {w}
  {
    s - {w}
  }

  /** Setting or removing worker `w`'s slot leaves every other worker's slot as it was. */
  lemma OtherSlotsUntouched(s: Slots, w: Worker, v: Worker, d: DriverId)
    requires v != w
    ensures Get(Set(s, w, d), v) == Get(s, v)
    ensures Get(Remove(s, w), v) == Get(s, v)
  {
  }

  /** Setting then removing on one worker restores that worker's slot to empty and leaves the others as they were. */
  lemma SetThenRemove(s: Slots, w: Worker, d: DriverId)
    ensures Remove(Set(s, w, d), w) == Remove(s, w)
  {
  }

  /** Operations of two different workers commute: neither can see or overwrite the other's slot. */
  lemma WorkersCommute(s: Slots, w: Worker, v: Worker, d: DriverId, e: DriverId)
    requires w != v
    ensures Set(Set(s, w, d), v, e) == Set(Set(s, v, e), w, d)
    ensures Remove(Set(s, w, d), v) == Set(Remove(s, v), w, d)
    ensures Get(Set(s, w, d), v) == Get(s, v)
  {
  }

  /** Removing an empty slot changes nothing. */
  lemma RemoveAbsent(s: Slots, w: Worker)
    requires Get(s, w).None?
    ensures Remove(s, w) == s
  {
  }

  /** Setting a slot overwrites whatever it held, so an earlier removal makes no difference. */
  lemma SetAfterRemove(s: Slots, w: Worker)
    ensures forall d :: Set(Remove(s, w), w, d) == Set(s, w, d)
    ensures Remove(Remove(s, w), w) == Remove(s, w)
  {
  }
}
