// app/dunning/policy.py: which declines are retried, and when.
module RetryPolicy {
  import opened Prelude

  datatype FailureReason =
    | InsufficientFunds
    | ExpiredCard
    | DoNotHonor
    | CardDeclined
    | InvalidPaymentMethod
    | RequiresAction
    | GenericDecline
    | ProcessingError
    | Unknown

  // Cumulative day offsets from the first failure.
  const RETRY_SCHEDULES: map<FailureReason, seq<int>> := map[
    InsufficientFunds := [1, 3, 7],
    DoNotHonor := [1],
    GenericDecline := [3, 7],
    CardDeclined := [3, 7],
    ProcessingError := [1, 3, 7],
    Unknown := [3, 7],
    ExpiredCard := [],
    InvalidPaymentMethod := [],
    RequiresAction := []
  ]

  const DEFAULT_SCHEDULE: seq<int> := [3, 7]

  const PAYMENT_METHOD_REASONS: set<FailureReason> := {ExpiredCard, InvalidPaymentMethod}

  function GetRetrySchedule(reason: Option<FailureReason>): seq<int> {
    if reason.None? then DEFAULT_SCHEDULE
    else if reason.value in RETRY_SCHEDULES then RETRY_SCHEDULES[reason.value]
    else DEFAULT_SCHEDULE
  }

  function Schedule(anchor: FailureReason): seq<int> {
    GetRetrySchedule(Some(anchor))
  }

  function NextRetryGapDays(reason: Option<FailureReason>, retriesCompleted: int): Option<int> {
    var schedule := GetRetrySchedule(reason);
    if retriesCompleted < 0 || retriesCompleted >= |schedule| then None
    else
      var previous := if retriesCompleted > 0 then schedule[retriesCompleted - 1] else 0;
      var gap := schedule[retriesCompleted] - previous;
      Some(if gap > 0 then gap else 0)
  }

  predicate RequiresPaymentMethodUpdate(reason: Option<FailureReason>) {
    reason.Some? && reason.value in PAYMENT_METHOD_REASONS
  }

  predicate IsRetryable(reason: Option<FailureReason>) {
    |GetRetrySchedule(reason)| > 0
  }

  function GapSum(reason: Option<FailureReason>, k: nat): int {
    if k == 0 then 0
    else GapSum(reason, k - 1) + NextRetryGapDays(reason, k - 1).GetOr(0)
  }

  // The incremental gaps telescope to the cumulative offsets of the schedule, for
  // every reason, and stop exactly where the schedule does.
  lemma {:induction false} GapsTelescope(reason: Option<FailureReason>, k: nat)
    requires k < |GetRetrySchedule(reason)|
    ensures GapSum(reason, k + 1) == GetRetrySchedule(reason)[k]
    ensures NextRetryGapDays(reason, |GetRetrySchedule(reason)|).None?
  {
    ScheduleShape(reason);
    if k > 0 {
      GapsTelescope(reason, k - 1);
    } else {
      assert GapSum(reason, 0) == 0;
    }
  }

  // Offsets are positive and increasing, and the gaps never shrink.
  lemma ScheduleShape(reason: Option<FailureReason>)
    ensures var s := GetRetrySchedule(reason);
            && |s| <= 3
            && (forall i :: 0 <= i < |s| ==> s[i] >= 1)
            && (forall i :: 0 < i < |s| ==> s[i - 1] < s[i])
  {}

  lemma GapsNeverShrink(reason: Option<FailureReason>, i: nat, j: nat)
    requires i <= j < |GetRetrySchedule(reason)|
    ensures NextRetryGapDays(reason, i).Some? && NextRetryGapDays(reason, j).Some?
    ensures 1 <= NextRetryGapDays(reason, i).value <= NextRetryGapDays(reason, j).value
  {
    var s := GetRetrySchedule(reason);
    assert s == [1, 3, 7] || s == [1] || s == [3, 7] || s == [];
  }

  // Among the reasons that can open a dunning cycle, the ones that are never
  // retried are exactly the ones that need a new payment method.
  lemma NotRetryableIffHard(reason: FailureReason)
    requires reason != RequiresAction
    ensures !IsRetryable(Some(reason)) <==> RequiresPaymentMethodUpdate(Some(reason))
  {}
}
