/** The admin dashboard: who may see it, how it splits the appointment list,
    the counts it shows, and the accept and reject buttons. */
module Dashboard {
  import opened Wrappers
  import opened AuthStore

  /** The records with status `st`, in store order (`filter(apt => apt.status === st)`). */
  function WithStatus(apts: seq<Appointment>, st: Status): (r: seq<Appointment>)
    ensures |r| <= |apts|
    ensures forall i :: 0 <= i < |r| ==> r[i].status == st
  {
    if apts == [] then []
    else if apts[0].status == st then [apts[0]] + WithStatus(apts[1..], st)
    else WithStatus(apts[1..], st)
  }

  /** The records whose status is not `st`, in store order (`filter(apt => apt.status !== st)`). */
  function WithoutStatus(apts: seq<Appointment>, st: Status): (r: seq<Appointment>)
    ensures |r| <= |apts|
    ensures forall i :: 0 <= i < |r| ==> r[i].status != st
  {
    if apts == [] then []
    else if apts[0].status != st then [apts[0]] + WithoutStatus(apts[1..], st)
    else WithoutStatus(apts[1..], st)
  }

  /** `pendingAppointments`. */
  function PendingAppointments(apts: seq<Appointment>): seq<Appointment>
  {
    WithStatus(apts, Pending)
  }

  /** `processedAppointments`. */
  function ProcessedAppointments(apts: seq<Appointment>): seq<Appointment>
  {
    WithoutStatus(apts, Pending)
  }

  /** Each filter keeps exactly the records it selects, each as many times
      as the store holds it. */
  lemma {:induction false} FiltersSelect(apts: seq<Appointment>, st: Status)
    ensures forall a :: multiset(WithStatus(apts, st))[a] == if a.status == st then multiset(apts)[a] else 0
    ensures forall a :: multiset(WithoutStatus(apts, st))[a] == if a.status != st then multiset(apts)[a] else 0
  {
    if apts != [] {
      assert apts == [apts[0]] + apts[1..];
      FiltersSelect(apts[1..], st);
    }
  }

  /** Filtering keeps store order: the filter of a concatenation is the
      concatenation of the filters. */
  lemma {:induction false} WithStatusKeepsOrder(a: seq<Appointment>, b: seq<Appointment>, st: Status)
    ensures WithStatus(a + b, st) == WithStatus(a, st) + WithStatus(b, st)
  {
    if a == [] {
      assert a + b == b;
    } else {
      assert (a + b)[0] == a[0] && (a + b)[1..] == a[1..] + b;
      WithStatusKeepsOrder(a[1..], b, st);
    }
  }

  lemma {:induction false} WithoutStatusKeepsOrder(a: seq<Appointment>, b: seq<Appointment>, st: Status)
    ensures WithoutStatus(a + b, st) == WithoutStatus(a, st) + WithoutStatus(b, st)
  {
    if a == [] {
      assert a + b == b;
    } else {
      assert (a + b)[0] == a[0] && (a + b)[1..] == a[1..] + b;
      WithoutStatusKeepsOrder(a[1..], b, st);
    }
  }

  /** Pending and processed split the list: every record lands in exactly one
      of them, so their sizes add up to the total. */
  lemma {:induction false} PartitionCovers(apts: seq<Appointment>)
    ensures multiset(PendingAppointments(apts)) + multiset(ProcessedAppointments(apts)) == multiset(apts)
    ensures |PendingAppointments(apts)| + |ProcessedAppointments(apts)| == |apts|
  {
    var p, q := PendingAppointments(apts), ProcessedAppointments(apts);
    FiltersSelect(apts, Pending);
    assert multiset(p) + multiset(q) == multiset(apts);
    calc {
      |p| + |q|;
      |multiset(p)| + |multiset(q)|;
      |multiset(p) + multiset(q)|;
      |multiset(apts)|;
    }
  }

  /** A processed record is accepted or rejected, so those two counts add up
      to the processed count. */
  lemma {:induction false} ProcessedSplitsByDecision(apts: seq<Appointment>)
    ensures |WithStatus(apts, Accepted)| + |WithStatus(apts, Rejected)| == |ProcessedAppointments(apts)|
  {
    if apts != [] {
      ProcessedSplitsByDecision(apts[1..]);
    }
  }

  /** The dashboard guard: only a signed-in admin sees it. */
  predicate IsAdmin(user: Option<User>)
  {
    user.Some? && user.value.role == AdminRole
  }

  /** What the dashboard shows. */
  datatype Summary = Summary(
    pending: seq<Appointment>,
    processed: seq<Appointment>,
    pendingCount: nat,
    acceptedCount: nat,
    rejectedCount: nat)

  /** `Redirect`: nothing is rendered and the browser is sent to the home page. */
  datatype View = Redirect | Render(summary: Summary)

  function DashboardView(user: Option<User>, apts: seq<Appointment>): (v: View)
    ensures v.Redirect? <==> !IsAdmin(user)
    ensures v.Render? ==> v.summary.pending == PendingAppointments(apts) &&
                          v.summary.processed == ProcessedAppointments(apts)
    ensures v.Render? ==> v.summary.pendingCount == |v.summary.pending|
    ensures v.Render? ==> v.summary.acceptedCount == |WithStatus(apts, Accepted)| &&
                          v.summary.rejectedCount == |WithStatus(apts, Rejected)|
    ensures v.Render? ==> v.summary.acceptedCount + v.summary.rejectedCount == |v.summary.processed|
    ensures v.Render? ==> v.summary.pendingCount + v.summary.acceptedCount + v.summary.rejectedCount == |apts|
  {
    if !IsAdmin(user) then Redirect
    else
      PartitionCovers(apts);
      ProcessedSplitsByDecision(apts);
      var pending := PendingAppointments(apts);
      Render(Summary(pending, ProcessedAppointments(apts), |pending|,
                     |WithStatus(apts, Accepted)|, |WithStatus(apts, Rejected)|))
  }

  /** The state after the Accept button of record `id`: accept with no reason. */
  function AcceptClicked(s: AuthState, id: int): AuthState
  {
    StatusUpdated(s, id, Accepted, None)
  }

  /** The state after the Reject button of record `id`, given what the prompt
      returned (`None` when it was cancelled): the store is called only when
      the reason is non-empty. */
  function RejectClicked(s: AuthState, id: int, prompted: Option<string>): AuthState
  {
    if prompted.Some? && prompted.value != "" then StatusUpdated(s, id, Rejected, prompted) else s
  }

  /** Accepting from the dashboard marks every matching record accepted and
      clears any earlier rejection reason; every other record is unchanged. */
  lemma AcceptFromDashboard(s: AuthState, id: int)
    ensures var r := AcceptClicked(s, id);
      |r.appointments| == |s.appointments| && r.user == s.user &&
      (forall i :: 0 <= i < |s.appointments| && s.appointments[i].id == id ==>
        r.appointments[i].status == Accepted && r.appointments[i].rejectionReason.None?) &&
      (forall i :: 0 <= i < |s.appointments| && s.appointments[i].id != id ==>
        r.appointments[i] == s.appointments[i])
  {
  }

  /** A cancelled or empty prompt changes nothing; a non-empty reason marks
      every matching record rejected with that reason and leaves every other
      record unchanged. */
  lemma RejectFromDashboard(s: AuthState, id: int, prompted: Option<string>)
    ensures prompted.None? || prompted.value == "" ==> RejectClicked(s, id, prompted) == s
    ensures prompted.Some? && prompted.value != "" ==>
      var r := RejectClicked(s, id, prompted);
      |r.appointments| == |s.appointments| && r.user == s.user &&
      (forall i :: 0 <= i < |s.appointments| && s.appointments[i].id == id ==>
        r.appointments[i].status == Rejected && r.appointments[i].rejectionReason == prompted) &&
      (forall i :: 0 <= i < |s.appointments| && s.appointments[i].id != id ==>
        r.appointments[i] == s.appointments[i])
  {
  }

  /** The route guard in front of the dashboard also asks for the flag; on a
      consistent state that agrees with the page's own guard. */
  lemma RouteGuardAgrees(s: AuthState)
    requires Consistent(s)
    ensures (s.isAuthenticated && IsAdmin(s.user)) == IsAdmin(s.user)
  {
  }

  /** A status update never adds to the pending list. */
  lemma {:induction false} UpdateNeverAddsPending(apts: seq<Appointment>, id: int, status: Decision, reason: Option<string>)
    ensures |PendingAppointments(MarkAll(apts, id, status, reason))| <= |PendingAppointments(apts)|
  {
    if apts != [] {
      var r := MarkAll(apts, id, status, reason);
      assert r[1..] == MarkAll(apts[1..], id, status, reason);
      UpdateNeverAddsPending(apts[1..], id, status, reason);
    }
  }

  /** `handleStatusUpdate`: hands the action to the store unchanged. */
  method HandleStatusUpdate(store: Store, id: int, status: Decision, rejectionReason: Option<string>)
    modifies store
    ensures store.State() == StatusUpdated(old(store.State()), id, status, rejectionReason)
  {
    store.UpdateAppointmentStatus(id, status, rejectionReason);
  }

  /** The Accept button of record `id`. */
  method AcceptClick(store: Store, id: int)
    modifies store
    ensures store.State() == AcceptClicked(old(store.State()), id)
  {
    HandleStatusUpdate(store, id, Accepted, None);
  }

  /** The Reject button of record `id`; `prompted` is what the prompt returned. */
  method RejectClick(store: Store, id: int, prompted: Option<string>)
    modifies store
    ensures store.State() == RejectClicked(old(store.State()), id, prompted)
  {
    if prompted.Some? && prompted.value != "" {
      HandleStatusUpdate(store, id, Rejected, prompted);
    }
  }
}
