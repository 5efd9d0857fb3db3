/** The client-side session and appointment store: the signed-in user, the
    authentication flag and the ordered list of appointments, together with
    the six actions that replace them. Each action is first given as a pure
    function from the old state to the new one; the class `Store` at the end
    holds the three fields and updates them through those functions. */
module AuthStore {
  import opened Wrappers
  import Text

  /** A user's role: `'user'` or `'admin'`. */
  datatype Role = UserRole | AdminRole

  datatype User = User(email: string, name: Option<string>, phone: Option<string>, role: Role)

  datatype Status = Pending | Accepted | Rejected

  /** The statuses an update may set: `'accepted' | 'rejected'`. */
  type Decision = s: Status | s != Pending witness Accepted

  datatype Appointment = Appointment(
    id: int,
    service: string,
    date: string,
    time: string,
    status: Status,
    rejectionReason: Option<string>,
    userEmail: string)

  /** What a caller of `addAppointment` supplies: an appointment without its
      id, status and client email. */
  datatype AppointmentRequest = AppointmentRequest(
    service: string,
    date: string,
    time: string,
    rejectionReason: Option<string>)

  /** A `Partial<User>`: a field is `Some` exactly when its key is present. */
  datatype ProfilePatch = ProfilePatch(
    email: Option<string>,
    name: Option<string>,
    phone: Option<string>,
    role: Option<Role>)

  /** The data held by the store. */
  datatype AuthState = AuthState(isAuthenticated: bool, user: Option<User>, appointments: seq<Appointment>)

  /** The store's state before any action. */
  function Initial(): AuthState
  {
    AuthState(false, None, [])
  }

  /** The flag is set exactly when a user is present. Every action keeps this. */
  predicate Consistent(s: AuthState)
  {
    s.isAuthenticated <==> s.user.Some?
  }

  /** The demo's role rule: an email containing "admin" signs in as an admin. */
  function RoleFor(email: string): (r: Role)
    ensures r == AdminRole <==> exists i :: Text.OccursAt(email, "admin", i)
  {
    Text.IncludesIff(email, "admin");
    if Text.Includes(email, "admin") then AdminRole else UserRole
  }

  /** `login`: the password is never looked at. */
  function LoggedIn(s: AuthState, email: string, password: string): (r: AuthState)
    ensures r.isAuthenticated && r.user.Some?
    ensures r.user.value.email == email && r.user.value.name.None? && r.user.value.phone.None?
    ensures r.user.value.role == AdminRole <==> exists i :: Text.OccursAt(email, "admin", i)
    ensures r.appointments == s.appointments
  {
    s.(isAuthenticated := true, user := Some(User(email, None, None, RoleFor(email))))
  }

  /** `signup`: always an ordinary user, whatever the email says. */
  function SignedUp(s: AuthState, email: string, password: string): (r: AuthState)
    ensures r.isAuthenticated && r.user.Some?
    ensures r.user.value.email == email && r.user.value.name.None? && r.user.value.phone.None?
    ensures r.user.value.role == UserRole
    ensures r.appointments == s.appointments
  {
    s.(isAuthenticated := true, user := Some(User(email, None, None, UserRole)))
  }

  /** `logout`: back to the initial state, appointments included. */
  function LoggedOut(s: AuthState): (r: AuthState)
    ensures r == Initial()
  {
    AuthState(false, None, [])
  }

  /** One field of an object spread: the patch's value when its key is present. */
  function Override<T>(current: T, patch: Option<T>): T
  {
    patch.GetOr(current)
  }

  /** `{ ...u, ...p }` for a user and a partial user. */
  function ApplyPatch(u: User, p: ProfilePatch): (r: User)
    ensures r.email == (if p.email.Some? then p.email.value else u.email)
    ensures r.name == (if p.name.Some? then p.name else u.name)
    ensures r.phone == (if p.phone.Some? then p.phone else u.phone)
    ensures r.role == (if p.role.Some? then p.role.value else u.role)
  {
    User(
      Override(u.email, p.email),
      if p.name.Some? then p.name else u.name,
      if p.phone.Some? then p.phone else u.phone,
      Override(u.role, p.role))
  }

  /** `{ ...p, ...q }` for two partial users: the later key wins. */
  function MergePatches(p: ProfilePatch, q: ProfilePatch): ProfilePatch
  {
    ProfilePatch(
      if q.email.Some? then q.email else p.email,
      if q.name.Some? then q.name else p.name,
      if q.phone.Some? then q.phone else p.phone,
      if q.role.Some? then q.role else p.role)
  }

  /** `updateProfile`: patches the current user; with no user there is nothing to patch. */
  function ProfileUpdated(s: AuthState, p: ProfilePatch): (r: AuthState)
    ensures s.user.None? ==> r.user.None?
    ensures s.user.Some? ==> r.user == Some(ApplyPatch(s.user.value, p))
    ensures r.isAuthenticated == s.isAuthenticated && r.appointments == s.appointments
  {
    s.(user := if s.user.Some? then Some(ApplyPatch(s.user.value, p)) else None)
  }

  /** The email stamped on a new appointment: `state.user?.email || ''`. */
  function ClientEmail(user: Option<User>): string
  {
    if user.Some? && user.value.email != "" then user.value.email else ""
  }

  /** `addAppointment`: `id` stands for the clock reading the source uses. */
  function AppointmentAdded(s: AuthState, req: AppointmentRequest, id: int): (r: AuthState)
    ensures |r.appointments| == |s.appointments| + 1
    ensures r.appointments[..|s.appointments|] == s.appointments
    ensures var a := r.appointments[|s.appointments|];
      a.id == id && a.service == req.service && a.date == req.date && a.time == req.time &&
      a.status == Pending && a.rejectionReason == req.rejectionReason &&
      a.userEmail == (if s.user.Some? then s.user.value.email else "")
    ensures r.isAuthenticated == s.isAuthenticated && r.user == s.user
  {
    var a := Appointment(id, req.service, req.date, req.time, Pending, req.rejectionReason, ClientEmail(s.user));
    s.(appointments := s.appointments + [a])
  }

  /** The record `apt` after a status update for `id`. */
  function Marked(apt: Appointment, id: int, status: Decision, reason: Option<string>): Appointment
  {
    if apt.id == id then apt.(status := status, rejectionReason := reason) else apt
  }

  /** `appointments.map(...)` of `updateAppointmentStatus`. */
  function MarkAll(apts: seq<Appointment>, id: int, status: Decision, reason: Option<string>): (r: seq<Appointment>)
    ensures |r| == |apts|
    ensures forall i :: 0 <= i < |apts| && apts[i].id == id ==>
      r[i] == apts[i].(status := status, rejectionReason := reason)
    ensures forall i :: 0 <= i < |apts| && apts[i].id != id ==> r[i] == apts[i]
  {
    if apts == [] then [] else [Marked(apts[0], id, status, reason)] + MarkAll(apts[1..], id, status, reason)
  }

  /** `updateAppointmentStatus`: every record with the given id takes the new
      status and reason, whatever its previous status. */
  function StatusUpdated(s: AuthState, id: int, status: Decision, reason: Option<string>): (r: AuthState)
    ensures |r.appointments| == |s.appointments|
    ensures forall i :: 0 <= i < |s.appointments| ==>
      var (a, b) := (s.appointments[i], r.appointments[i]);
      b.id == a.id && b.service == a.service && b.date == a.date && b.time == a.time &&
      b.userEmail == a.userEmail
    ensures forall i :: 0 <= i < |s.appointments| && s.appointments[i].id == id ==>
      r.appointments[i].status == status && r.appointments[i].status != Pending &&
      r.appointments[i].rejectionReason == reason
    ensures forall i :: 0 <= i < |s.appointments| && s.appointments[i].id != id ==>
      r.appointments[i] == s.appointments[i]
    ensures r.isAuthenticated == s.isAuthenticated && r.user == s.user
  {
    s.(appointments := MarkAll(s.appointments, id, status, reason))
  }

  // ---------------------------------------------------------------------
  // Properties of the actions

  /** The password never influences `login`. */
  lemma LoginIgnoresPassword(s: AuthState, email: string, p1: string, p2: string)
    ensures LoggedIn(s, email, p1) == LoggedIn(s, email, p2)
  {
  }

  /** `login` and `signup` agree exactly on emails that do not contain "admin". */
  lemma LoginMatchesSignupIff(s: AuthState, email: string, password: string)
    ensures LoggedIn(s, email, password) == SignedUp(s, email, password) <==>
      !exists i :: Text.OccursAt(email, "admin", i)
  {
  }

  /** Every action keeps the flag and the user in step. */
  lemma ActionsKeepConsistent(s: AuthState, email: string, password: string, p: ProfilePatch,
                              req: AppointmentRequest, id: int, status: Decision, reason: Option<string>)
    ensures Consistent(Initial())
    ensures Consistent(LoggedIn(s, email, password)) && Consistent(SignedUp(s, email, password))
    ensures Consistent(LoggedOut(s))
    ensures Consistent(s) ==> Consistent(ProfileUpdated(s, p))
    ensures Consistent(s) ==> Consistent(AppointmentAdded(s, req, id))
    ensures Consistent(s) ==> Consistent(StatusUpdated(s, id, status, reason))
  {
  }

  /** An empty patch changes nothing. */
  lemma EmptyPatchIdentity(u: User)
    ensures ApplyPatch(u, ProfilePatch(None, None, None, None)) == u
  {
  }

  /** Patching with `p` then `q` is patching once with `{ ...p, ...q }`; in
      particular the same patch twice is the patch once. */
  lemma PatchesCompose(u: User, p: ProfilePatch, q: ProfilePatch)
    ensures ApplyPatch(ApplyPatch(u, p), q) == ApplyPatch(u, MergePatches(p, q))
    ensures ApplyPatch(ApplyPatch(u, p), p) == ApplyPatch(u, p)
  {
  }

  /** An update for an id no record carries leaves the state as it was. */
  lemma {:induction false} StatusUpdateNoMatch(s: AuthState, id: int, status: Decision, reason: Option<string>)
    requires forall i :: 0 <= i < |s.appointments| ==> s.appointments[i].id != id
    ensures StatusUpdated(s, id, status, reason) == s
  {
    var r := StatusUpdated(s, id, status, reason);
    assert r.appointments == s.appointments;
  }

  /** A second update for the same id overrides the first. */
  lemma {:induction false} StatusUpdateLastWins(s: AuthState, id: int, st1: Decision, r1: Option<string>,
                                                st2: Decision, r2: Option<string>)
    ensures StatusUpdated(StatusUpdated(s, id, st1, r1), id, st2, r2) == StatusUpdated(s, id, st2, r2)
  {
    var once := StatusUpdated(s, id, st2, r2);
    var twice := StatusUpdated(StatusUpdated(s, id, st1, r1), id, st2, r2);
    assert twice.appointments == once.appointments;
  }

  /** Applying the same update twice is applying it once. */
  lemma StatusUpdateIdempotent(s: AuthState, id: int, status: Decision, reason: Option<string>)
    ensures StatusUpdated(StatusUpdated(s, id, status, reason), id, status, reason) == StatusUpdated(s, id, status, reason)
  {
    StatusUpdateLastWins(s, id, status, reason, status, reason);
  }

  /** Updates for two different ids can be applied in either order. */
  lemma {:induction false} StatusUpdatesCommute(s: AuthState, id1: int, st1: Decision, r1: Option<string>,
                                                id2: int, st2: Decision, r2: Option<string>)
    requires id1 != id2
    ensures StatusUpdated(StatusUpdated(s, id1, st1, r1), id2, st2, r2) ==
            StatusUpdated(StatusUpdated(s, id2, st2, r2), id1, st1, r1)
  {
    var a := StatusUpdated(StatusUpdated(s, id1, st1, r1), id2, st2, r2);
    var b := StatusUpdated(StatusUpdated(s, id2, st2, r2), id1, st1, r1);
    assert a.appointments == b.appointments;
  }

  /** The store does not restrict the previous status: an accepted record can
      be rejected and a rejected one accepted. */
  lemma DecisionsReversible(s: AuthState, i: nat, reason: Option<string>)
    requires i < |s.appointments|
    ensures s.appointments[i].status == Accepted ==>
      StatusUpdated(s, s.appointments[i].id, Rejected, reason).appointments[i].status == Rejected
    ensures s.appointments[i].status == Rejected ==>
      StatusUpdated(s, s.appointments[i].id, Accepted, reason).appointments[i].status == Accepted
  {
  }

  // ---------------------------------------------------------------------
  // The store object

  class Store {
    var isAuthenticated: bool
    var user: Option<User>
    var appointments: seq<Appointment>

    /** The three fields as one value. */
    function State(): AuthState
      reads this
    {
      AuthState(isAuthenticated, user, appointments)
    }

    predicate Valid()
      reads this
    {
      Consistent(State())
    }

    constructor ()
      ensures State() == Initial() && Valid()
    {
      isAuthenticated := false;
      user := None;
      appointments := [];
    }

    method Login(email: string, password: string)
      modifies this
      ensures State() == LoggedIn(old(State()), email, password) && Valid()
    {
      isAuthenticated := true;
      user := Some(User(email, None, None, RoleFor(email)));
    }

    method Signup(email: string, password: string)
      modifies this
      ensures State() == SignedUp(old(State()), email, password) && Valid()
    {
      isAuthenticated := true;
      user := Some(User(email, None, None, UserRole));
    }

    method Logout()
      modifies this
      ensures State() == Initial() && Valid()
    {
      isAuthenticated := false;
      user := None;
      appointments := [];
    }

    method UpdateProfile(data: ProfilePatch)
      modifies this
      ensures State() == ProfileUpdated(old(State()), data)
      ensures old(Valid()) ==> Valid()
    {
      user := if user.Some? then Some(ApplyPatch(user.value, data)) else None;
    }

    /** `id` is the clock reading of the source, supplied by the caller. */
    method AddAppointment(appointment: AppointmentRequest, id: int)
      modifies this
      ensures State() == AppointmentAdded(old(State()), appointment, id)
      ensures old(Valid()) ==> Valid()
    {
      var a := Appointment(id, appointment.service, appointment.date, appointment.time,
                           Pending, appointment.rejectionReason, ClientEmail(user));
      appointments := appointments + [a];
    }

    method UpdateAppointmentStatus(id: int, status: Decision, rejectionReason: Option<string>)
      modifies this
      ensures State() == StatusUpdated(old(State()), id, status, rejectionReason)
      ensures old(Valid()) ==> Valid()
    {
      appointments := MarkAll(appointments, id, status, rejectionReason);
    }
  }
}
