/** The jobs page: the query it sends, the status badge, the selected row and the details query. */
module JobsPage {
  import opened Wrappers
  import opened StatusBadges

  datatype Job = Job(id: string, jobNo: string, status: string)

  const StatusColors: map<string, string> := map[
    "pending" := "bg-yellow-100 text-yellow-800",
    "in-transit" := "bg-blue-100 text-blue-800",
    "completed" := "bg-green-100 text-green-800",
    "cancelled" := "bg-red-100 text-red-800"
  ]

  const Gray: string := "bg-gray-100 text-gray-800"

  /** `getStatusBadge`: the four known statuses have their colours; any other is gray. */
  function StatusBadge(status: string): (cls: string)
    ensures status == "pending" ==> cls == "bg-yellow-100 text-yellow-800"
    ensures status == "in-transit" ==> cls == "bg-blue-100 text-blue-800"
    ensures status == "completed" ==> cls == "bg-green-100 text-green-800"
    ensures status == "cancelled" ==> cls == "bg-red-100 text-red-800"
    ensures cls == Gray <==> status !in StatusColors
  {
    Lookup(StatusColors, status, Gray)
  }

  /** As written, a status named like an inherited member yields that member instead of gray. */
  lemma InheritedStatusNotGray()
    ensures LookupAsWritten(StatusColors, "constructor", Gray) == InheritedMember("constructor")
    ensures StatusBadge("constructor") == Gray
  {
  }

  /** `enabled: !!selectedJob`: null and the empty id are both falsy. */
  function DetailsQueryEnabled(selectedJob: Option<string>): (enabled: bool)
    ensures enabled <==> selectedJob.Some? && selectedJob.value != ""
  {
    match selectedJob
    case None => false
    case Some(id) => id != ""
  }

  /** `selectedJob === job.id`. */
  function RowHighlighted(selectedJob: Option<string>, jobId: string): (highlighted: bool)
    ensures highlighted <==> selectedJob.Some? && selectedJob.value == jobId
    ensures selectedJob.None? ==> !highlighted
  {
    selectedJob == Some(jobId)
  }

  /** The number of highlighted rows. */
  function HighlightedCount(jobs: seq<Job>, selectedJob: Option<string>): nat
  {
    if jobs == [] then 0
    else (if RowHighlighted(selectedJob, jobs[0].id) then 1 else 0) + HighlightedCount(jobs[1..], selectedJob)
  }

  /** With distinct job ids at most one row is highlighted, and none when nothing is selected. */
  lemma {:induction false} AtMostOneHighlighted(jobs: seq<Job>, selectedJob: Option<string>)
    requires forall i, j :: 0 <= i < j < |jobs| ==> jobs[i].id != jobs[j].id
    ensures HighlightedCount(jobs, selectedJob) <= 1
    ensures selectedJob.None? ==> HighlightedCount(jobs, selectedJob) == 0
  {
    if jobs != [] {
      AtMostOneHighlighted(jobs[1..], selectedJob);
      if RowHighlighted(selectedJob, jobs[0].id) {
        NoneHighlighted(jobs[1..], selectedJob);
      }
    }
  }

  lemma {:induction false} NoneHighlighted(jobs: seq<Job>, selectedJob: Option<string>)
    requires forall i :: 0 <= i < |jobs| ==> !RowHighlighted(selectedJob, jobs[i].id)
    ensures HighlightedCount(jobs, selectedJob) == 0
  {
    if jobs != [] {
      NoneHighlighted(jobs[1..], selectedJob);
    }
  }

  datatype JobsView = Skeleton | NoJobs | JobTable(rows: seq<Job>)

  /** The job list card: a skeleton while loading, the empty message, or one row per job. */
  function ListView(isLoading: bool, jobs: seq<Job>): (v: JobsView)
    ensures v.Skeleton? <==> isLoading
    ensures v.NoJobs? <==> !isLoading && jobs == []
    ensures v.JobTable? ==> v.rows == jobs && jobs != []
  {
    if isLoading then Skeleton else if jobs == [] then NoJobs else JobTable(jobs)
  }

  /** `selectedJob && jobDetails`: the details card needs a selection and its loaded details. */
  function DetailsShown(selectedJob: Option<string>, detailsLoaded: bool): (shown: bool)
    ensures shown ==> DetailsQueryEnabled(selectedJob)
    ensures shown <==> selectedJob.Some? && selectedJob.value != "" && detailsLoaded
  {
    DetailsQueryEnabled(selectedJob) && detailsLoaded
  }
}
