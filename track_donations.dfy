/**
 * The rules of the donor's tracking page
 * (client/src/pages/donor/track-donations.tsx): the status and type filter,
 * the progress percentage of a status and the four-step delivery timeline.
 */
module TrackDonations {
  import opened Wrappers
  import opened Schema
  import opened Seqs

  /** The filter value that lets every status, or every type, through. */
  const All: string := "all"

  /** The statuses a donation normally goes through, in order. */
  const Lifecycle: seq<string> := ["pending", "accepted", "in_transit", "delivered"]

  /** The predicate of `filteredDonations`. */
  predicate Shown(statusFilter: string, typeFilter: string, d: Donation) {
    (statusFilter == All || d.status == statusFilter) && (typeFilter == All || d.kind == typeFilter)
  }

  /** `filteredDonations`: the donations that pass both filters, in the order the server sent them. */
  function FilteredDonations(ds: seq<Donation>, statusFilter: string, typeFilter: string): (r: seq<Donation>)
    ensures forall d :: d in r <==> d in ds && (statusFilter == All || d.status == statusFilter) && (typeFilter == All || d.kind == typeFilter)
    ensures |r| <= |ds|
  {
    Filter(ds, d => Shown(statusFilter, typeFilter, d))
  }

  /** The page opens with both filters on "all", which shows every donation. */
  lemma NoFilterShowsAll(ds: seq<Donation>)
    ensures FilteredDonations(ds, All, All) == ds
  {
    FilterKeepsAll(ds, d => Shown(All, All, d));
  }

  /**
   * `getProgress`: the completion percentage of a status. A cancelled or
   * unrecognised status shows no progress.
   */
  function Progress(status: string): (r: int)
    ensures 0 <= r <= 100
    ensures r == 0 <==> status !in Lifecycle
    ensures r == 100 <==> status == "delivered"
    ensures status in Lifecycle ==> r % 25 == 0
  {
    if status == "pending" then 25
    else if status == "accepted" then 50
    else if status == "in_transit" then 75
    else if status == "delivered" then 100
    else 0
  }

  /** Progress rises strictly along the lifecycle, by a quarter per status. */
  lemma ProgressAlongLifecycle(i: nat, j: nat)
    requires i < j < |Lifecycle|
    ensures Progress(Lifecycle[i]) < Progress(Lifecycle[j])
    ensures Progress(Lifecycle[i]) == 25 * (i + 1)
  {
  }

  datatype StepStatus = Completed | Waiting

  datatype TimelineStep = TimelineStep(title: string, description: string, status: StepStatus, timestamp: Option<Time>)

  /** `donation.ngoId ? … : …`: an NGO id of 0 counts as no NGO. */
  predicate HasNgo(d: Donation) {
    d.ngoId.Some? && d.ngoId.value != 0
  }

  /**
   * `getTimelineSteps`: creation, NGO acceptance, pickup, delivery. The
   * creation date is rendered by `formatDate`, standing for the browser's
   * locale formatting.
   */
  function TimelineSteps(d: Donation, formatDate: Time -> string): (r: seq<TimelineStep>)
    ensures |r| == 4
    ensures r[0].status == Completed && r[0].timestamp == Some(d.createdAt)
    ensures r[1].status == Completed <==> HasNgo(d)
    ensures r[2].status == Completed <==> d.status == "in_transit" || d.status == "delivered"
    ensures r[3].status == Completed <==> d.status == "delivered"
    ensures forall i :: 1 <= i < 4 ==> (r[i].timestamp.Some? ==> r[i].status == Completed && r[i].timestamp == Some(d.updatedAt))
    ensures d.status == "delivered" ==> r[2].timestamp.None?
  {
    [ TimelineStep("Donation Created", "Created on " + formatDate(d.createdAt), Completed, Some(d.createdAt)),
      TimelineStep("NGO Acceptance",
                   if HasNgo(d) then "Accepted by NGO" else "Waiting for NGO acceptance",
                   if HasNgo(d) then Completed else Waiting,
                   if HasNgo(d) then Some(d.updatedAt) else None),
      TimelineStep("Pickup/Processing",
                   if d.status == "in_transit" then "Pickup in progress" else "Awaiting pickup",
                   if d.status == "in_transit" || d.status == "delivered" then Completed else Waiting,
                   if d.status == "in_transit" then Some(d.updatedAt) else None),
      TimelineStep("Delivery Complete",
                   if d.status == "delivered" then "Successfully delivered" else "Pending delivery",
                   if d.status == "delivered" then Completed else Waiting,
                   if d.status == "delivered" then Some(d.updatedAt) else None) ]
  }

  function Done(step: TimelineStep): nat {
    if step.status == Completed then 1 else 0
  }

  /** How many steps of a timeline are completed. */
  function CompletedCount(steps: seq<TimelineStep>): nat {
    if steps == [] then 0 else Done(steps[0]) + CompletedCount(steps[1..])
  }

  lemma CompletedCountOfFour(steps: seq<TimelineStep>)
    requires |steps| == 4
    ensures CompletedCount(steps) == Done(steps[0]) + Done(steps[1]) + Done(steps[2]) + Done(steps[3])
  {
    var tail := steps[1..];
    assert tail[0] == steps[1] && tail[1..][0] == steps[2] && tail[1..][1..][0] == steps[3];
    assert tail[1..][1..][1..] == [];
    assert CompletedCount(tail[1..][1..]) == Done(steps[3]);
    assert CompletedCount(tail[1..]) == Done(steps[2]) + Done(steps[3]);
    assert CompletedCount(tail) == Done(steps[1]) + Done(steps[2]) + Done(steps[3]);
  }

  /**
   * Along the lifecycle, for a donation that has an NGO exactly when it is
   * past pending, the progress bar shows a quarter per completed step.
   */
  lemma CompletedStepsMatchProgress(d: Donation, formatDate: Time -> string)
    requires d.status in Lifecycle
    requires HasNgo(d) <==> d.status != "pending"
    ensures Progress(d.status) == 25 * CompletedCount(TimelineSteps(d, formatDate))
  {
    CompletedCountOfFour(TimelineSteps(d, formatDate));
  }
}
