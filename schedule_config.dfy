/** The agent's working-day configuration (`AgentScheduleConfig`): times of day are minutes
    after midnight, durations are minutes. */
module ScheduleConfig {
  import opened Clock

  datatype Config = Config(
    workStart: int,
    workEnd: int,
    appointmentDuration: int,
    scheduleBuffer: int,
    timezone: string)

  /** Work hours are times of day (`datetime.time` values) and the two durations are not
      negative. */
  predicate Valid(c: Config) {
    && 0 <= c.workStart < MinutesPerDay
    && 0 <= c.workEnd < MinutesPerDay
    && c.appointmentDuration >= 0
    && c.scheduleBuffer >= 0
  }

  /** The field defaults: a 09:00 to 18:00 day, one-hour appointments, a 30-minute buffer,
      in America/Chicago. */
  function Default(): (c: Config)
    ensures Valid(c)
    ensures c.workStart == 9 * MinutesPerHour && c.workEnd == 18 * MinutesPerHour
    ensures c.appointmentDuration == MinutesPerHour && c.scheduleBuffer == 30
    ensures c.timezone == "America/Chicago"
    ensures c.workStart + c.appointmentDuration <= c.workEnd
  {
    Config(540, 1080, 60, 30, "America/Chicago")
  }
}
