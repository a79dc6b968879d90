/**
 * Threshold alarms of a channel (device/src/channel/alarm.rs). An `Alarm` is a `Copy` value; its
 * `&mut self` update `process_alarm` is modelled as a function returning the updated alarm.
 * Values and setpoints are reals: NaN comparisons are not modelled.
 */
module Alarms {

  datatype AlarmType = High | Low

  datatype Alarm = Alarm(alarmType: AlarmType, active: bool, enabled: bool, setpoint: real)
  {
    /** `process_alarm(value)`: recompute `active` from the new value. */
    function ProcessAlarm(value: real): (a: Alarm)
      ensures alarmType == Low ==> (a.active <==> value < setpoint)
      ensures alarmType == High ==> (a.active <==> value > setpoint)
      ensures a.alarmType == alarmType && a.enabled == enabled && a.setpoint == setpoint
    {
      match alarmType
      case Low => this.(active := value < setpoint)
      case High => this.(active := value > setpoint)
    }
  }

  /** `Default for Alarm`. */
  function DefaultAlarm(): (a: Alarm)
    ensures a.alarmType == High && !a.active && !a.enabled && a.setpoint == 0.0
  {
    Alarm(High, false, false, 0.0)
  }

  /** `Display for AlarmType`. */
  function AlarmTypeName(t: AlarmType): (s: string)
    ensures s == (if t == Low then "Low" else "High")
  {
    match t
    case Low => "Low"
    case High => "High"
  }

  lemma AlarmTypeNameInjective(t: AlarmType, t': AlarmType)
    requires AlarmTypeName(t) == AlarmTypeName(t')
    ensures t == t'
  {
  }

  /** A value exactly at the setpoint never raises an alarm, whatever its direction. */
  lemma AtSetpointInactive(a: Alarm)
    ensures !a.ProcessAlarm(a.setpoint).active
  {
  }

  /**
   * The new `active` depends only on direction, setpoint and value, never on the old
   * `active` or `enabled` flags; hence evaluating twice equals evaluating once.
   */
  lemma ProcessAlarmIgnoresFlags(a: Alarm, b: Alarm, value: real)
    requires a.alarmType == b.alarmType && a.setpoint == b.setpoint
    ensures a.ProcessAlarm(value).active == b.ProcessAlarm(value).active
  {
  }

  lemma ProcessAlarmIdempotent(a: Alarm, value: real)
    ensures a.ProcessAlarm(value).ProcessAlarm(value) == a.ProcessAlarm(value)
  {
  }

  /** Setpoint 50.0: 49.9 raises a low alarm and not a high one; 50.1 raises the high one. */
  lemma SetpointFiftyExample(active: bool, enabled: bool)
    ensures Alarm(Low, active, enabled, 50.0).ProcessAlarm(49.9).active
    ensures !Alarm(High, active, enabled, 50.0).ProcessAlarm(49.9).active
    ensures Alarm(High, active, enabled, 50.0).ProcessAlarm(50.1).active
    ensures !Alarm(Low, active, enabled, 50.0).ProcessAlarm(50.1).active
  {
  }
}
