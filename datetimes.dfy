/**
 * Python `datetime` values, as far as `Request.is_expired` needs them.
 * A datetime is a wall-clock reading plus an optional tzinfo; a tzinfo whose
 * `utcoffset` is None leaves the datetime naive. Instants are integers (any
 * resolution), so no floating point is involved.
 */
module DateTimes {
  import opened Wrappers
  import opened Common

  /** A tzinfo object, reduced to what its `utcoffset(d)` answers for the datetime it sits on. */
  datatype TzInfo = TzInfo(utcOffset: Option<int>)

  datatype DateTime = DateTime(wall: int, tzinfo: Option<TzInfo>)

  /** `pytz.utc` */
  const Utc: TzInfo := TzInfo(Some(0))

  /** Python's definition of an aware datetime: `d.tzinfo` set and `d.tzinfo.utcoffset(d)` not None. */
  predicate IsAware(d: DateTime) {
    d.tzinfo.Some? && d.tzinfo.value.utcOffset.Some?
  }

  /** The UTC instant a datetime denotes; a naive datetime is read as UTC wall-clock time. */
  function UtcInstant(d: DateTime): int {
    if IsAware(d) then d.wall - d.tzinfo.value.utcOffset.value else d.wall
  }

  /** `datetime.utcnow()`: a naive datetime showing the UTC wall clock. */
  function UtcNow(clock: int): DateTime {
    DateTime(clock, None)
  }

  /** `d.replace(tzinfo=tz)`: same wall clock, new tzinfo. */
  function WithTzInfo(d: DateTime, tz: TzInfo): DateTime {
    d.(tzinfo := Some(tz))
  }

  /**
   * Python's `a < b` on datetimes: aware values are compared after subtracting
   * their offsets, naive values by wall clock, and a naive/aware mix raises TypeError.
   */
  function Less(a: DateTime, b: DateTime): Result<bool, Error> {
    if IsAware(a) && IsAware(b) then
      Ok(a.wall - a.tzinfo.value.utcOffset.value < b.wall - b.tzinfo.value.utcOffset.value)
    else if !IsAware(a) && !IsAware(b) then
      Ok(a.wall < b.wall)
    else
      Err(TypeError)
  }
}
