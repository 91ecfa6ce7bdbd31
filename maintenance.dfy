/** A maintenance record and the three properties derived from it: its
    duration in days, whether it is completed and its status. Dates are
    day numbers and today's day number is a parameter. */
module MaintenanceRecords {
  import opened Common

  datatype MaintenanceRecord = MaintenanceRecord(
    locomotiveId: int,
    maintenanceType: string,
    startDate: int,
    endDate: Option<int>)

  datatype Status = Completed | Overdue | InProgress

  /** A record is completed once it has an end date. */
  predicate IsCompleted(record: MaintenanceRecord)
  {
    record.endDate.Some?
  }

  /** Days from the start to the end date, or to today while the record is open. */
  function DurationDays(record: MaintenanceRecord, today: int): (days: int)
    ensures IsCompleted(record) ==> record.startDate + days == record.endDate.value
    ensures !IsCompleted(record) ==> record.startDate + days == today
  {
    match record.endDate
    case Some(end) => end - record.startDate
    case None => today - record.startDate
  }

  /** Completed when there is an end date; an open record is overdue once
      it has run more than 30 days, and in progress until then. */
  function StatusOf(record: MaintenanceRecord, today: int): (status: Status)
    ensures status == Completed <==> IsCompleted(record)
    ensures status == Overdue <==> !IsCompleted(record) && today - record.startDate > 30
    ensures status == InProgress <==> !IsCompleted(record) && today - record.startDate <= 30
  {
    if IsCompleted(record) then Completed
    else if DurationDays(record, today) > 30 then Overdue
    else InProgress
  }

  /** The duration of a completed record no longer depends on the day it is read. */
  lemma CompletedDurationFixed(record: MaintenanceRecord, today1: int, today2: int)
    requires IsCompleted(record)
    ensures DurationDays(record, today1) == DurationDays(record, today2)
    ensures StatusOf(record, today1) == StatusOf(record, today2) == Completed
  {
  }

  /** An open record that is overdue stays overdue on every later day, and
      one that is in progress was in progress on every earlier day. */
  lemma OverdueIsPermanent(record: MaintenanceRecord, today: int, later: int)
    requires today <= later
    ensures StatusOf(record, today) == Overdue ==> StatusOf(record, later) == Overdue
    ensures StatusOf(record, later) == InProgress ==> StatusOf(record, today) == InProgress
  {
  }
}
