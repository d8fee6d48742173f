/**
 * `Device`: a smart-pot controller that registers itself, and whether it
 * counts as online (seen in the last five minutes) and in use.
 *
 * The clock (`System.currentTimeMillis()`) is the parameter `now`.
 */
module Devices {
  import opened Nullable
  import opened Numbers

  datatype Device = Device(
    deviceId: Option<string>,
    deviceName: Option<string>,
    isAvailable: bool,
    currentPlantId: Option<string>,
    /** Milliseconds since the epoch, as decimal text. */
    lastSeen: Option<string>,
    ipAddress: Option<string>,
    firmwareVersion: Option<string>)

  /** Five minutes in milliseconds: `5 * 60 * 1000`. */
  const FiveMinutes: int := 5 * 60 * 1000

  /**
   * `isOnline()`: false without a parseable `lastSeen`; otherwise whether the
   * `long` difference `now - lastSeen`, which wraps around on overflow, is
   * below five minutes.
   */
  function IsOnline(d: Device, now: Long): (online: bool)
    ensures d.lastSeen.None? ==> !online
    ensures d.lastSeen.Some? && ParseLong(d.lastSeen.value).None? ==> !online
    ensures online ==> d.lastSeen.Some? && ParseLong(d.lastSeen.value).Some?
  {
    if d.lastSeen.None? then false
    else
      match ParseLong(d.lastSeen.value)
      case None => false
      case Some(lastSeen) => WrapLong(now - lastSeen) < FiveMinutes
  }

  /**
   * When the difference fits in a `long` (always, for timestamps of the same
   * sign), the device is online exactly when it was seen less than five
   * minutes before `now`; a `lastSeen` in the future also counts as online.
   */
  lemma OnlineIffSeenRecently(d: Device, now: Long, lastSeen: Long)
    requires d.lastSeen.Some? && ParseLong(d.lastSeen.value) == Some(lastSeen)
    requires MinLong <= now - lastSeen <= MaxLong
    ensures IsOnline(d, now) <==> now - lastSeen < FiveMinutes
    ensures lastSeen >= now ==> IsOnline(d, now)
  {
  }

  /**
   * The wrap-around shows for the oldest `long` timestamp: a device last
   * seen at `Long.MIN_VALUE` counts as online at any positive time.
   */
  lemma OldestTimestampWrapsToOnline(d: Device, now: Long)
    requires d.lastSeen.Some? && ParseLong(d.lastSeen.value) == Some(MinLong) && now > 0
    ensures IsOnline(d, now)
  {
  }

  /**
   * The two-argument constructor: an available device with no plant, last
   * seen at construction time, and therefore online at that instant.
   */
  function NewDevice(deviceId: Option<string>, deviceName: Option<string>, now: Long): (d: Device)
    ensures d.deviceId == deviceId && d.deviceName == deviceName
    ensures d.isAvailable && d.currentPlantId.None?
    ensures d.lastSeen == Some(DecimalString(now)) && ParseLong(d.lastSeen.value) == Some(now)
    ensures IsOnline(d, now)
  {
    ParseLongOfDecimalString(now);
    Device(deviceId, deviceName, true, None, Some(DecimalString(now)), None, None)
  }

  /** `getStatusText()`: "Offline" whenever not online, whatever the availability. */
  function StatusText(d: Device, now: Long): (text: string)
    ensures text == "Offline" || text == "En uso" || text == "Disponible"
    ensures text == "Offline" <==> !IsOnline(d, now)
    ensures text == "En uso" <==> IsOnline(d, now) && !d.isAvailable
    ensures text == "Disponible" <==> IsOnline(d, now) && d.isAvailable
  {
    if !IsOnline(d, now) then "Offline"
    else if !d.isAvailable then "En uso"
    else "Disponible"
  }

  /** A device that has never reported has status "Offline" however available it is. */
  lemma NeverSeenIsOffline(d: Device, now: Long)
    requires d.lastSeen.None?
    ensures StatusText(d, now) == "Offline"
    ensures StatusText(d.(isAvailable := !d.isAvailable), now) == "Offline"
  {
  }
}
