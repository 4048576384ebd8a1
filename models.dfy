/** The rows of the system's tables (the models.py of each app) as values, with the
    choice enumerations and the few model methods that only compute. */
module Models {
  import opened Base

  // ------------------------------------------------------------- projects

  datatype Role = Owner | Admin | Member | Viewer

  /** The value stored in the `role` column. */
  function RoleValue(r: Role): string
  {
    match r
    case Owner => "owner"
    case Admin => "admin"
    case Member => "member"
    case Viewer => "viewer"
  }

  /** The stored value read back; None for a string that is not a role. */
  function ParseRole(s: string): (r: Option<Role>)
    ensures r.Some? ==> RoleValue(r.value) == s
    ensures r.None? ==> forall x: Role :: RoleValue(x) != s
  {
    if s == "owner" then Some(Owner)
    else if s == "admin" then Some(Admin)
    else if s == "member" then Some(Member)
    else if s == "viewer" then Some(Viewer)
    else None
  }

  lemma RoleRoundTrip(r: Role)
    ensures ParseRole(RoleValue(r)) == Some(r)
  {
  }

  datatype ProjectStatus = ProjectActive | ProjectArchived | ProjectCompleted

  datatype Project = Project(name: string, description: string, status: ProjectStatus, ownerId: Id)

  // ---------------------------------------------------------------- tasks

  datatype TaskStatus = Pending | InProgress | Completed | Cancelled

  function StatusValue(s: TaskStatus): string
  {
    match s
    case Pending => "pending"
    case InProgress => "in_progress"
    case Completed => "completed"
    case Cancelled => "cancelled"
  }

  /** A `status` choice read back from its stored value. */
  function ParseStatus(s: string): (r: Option<TaskStatus>)
    ensures r.Some? ==> StatusValue(r.value) == s
    ensures r.None? ==> forall x: TaskStatus :: StatusValue(x) != s
  {
    if s == "pending" then Some(Pending)
    else if s == "in_progress" then Some(InProgress)
    else if s == "completed" then Some(Completed)
    else if s == "cancelled" then Some(Cancelled)
    else None
  }

  datatype Priority = Low | Medium | High | Urgent

  function PriorityValue(p: Priority): string
  {
    match p
    case Low => "low"
    case Medium => "medium"
    case High => "high"
    case Urgent => "urgent"
  }

  /** A task row; `tags` is the many-to-many relation to Tag, `deadline` an
      instant on the model's integer clock. Like every row here it is stored
      under its primary key, which is therefore not repeated inside it. */
  datatype Task = Task(
    projectId: Id,
    creatorId: Id,
    assigneeId: Option<Id>,
    title: string,
    description: string,
    status: TaskStatus,
    priority: Priority,
    deadline: Option<int>,
    position: nat,
    tags: set<Id>)

  function ParsePriority(s: string): (r: Option<Priority>)
    ensures r.Some? ==> PriorityValue(r.value) == s
    ensures r.None? ==> forall x: Priority :: PriorityValue(x) != s
  {
    if s == "low" then Some(Low)
    else if s == "medium" then Some(Medium)
    else if s == "high" then Some(High)
    else if s == "urgent" then Some(Urgent)
    else None
  }

  /** Each choice reads back as itself: the stored values are distinct. */
  lemma ChoicesRoundTrip(s: TaskStatus, p: Priority)
    ensures ParseStatus(StatusValue(s)) == Some(s)
    ensures ParsePriority(PriorityValue(p)) == Some(p)
  {
  }

  // ------------------------------------------------------ tags, comments

  datatype Tag = Tag(projectId: Id, name: string, color: string)

  const DefaultTagColor: string := "#6B7280"

  datatype Comment = Comment(taskId: Id, authorId: Id, content: string, isEdited: bool)

  // ---------------------------------------------------------------- users

  /** A user row. `password` stands for the stored credential: hashing is a
      foreign call, so the model keeps the value `check_password` compares. */
  datatype User = User(
    email: string,
    firstName: string,
    lastName: string,
    phone: string,
    bio: string,
    avatar: string,
    isVerified: bool,
    isActive: bool,
    password: string)

  /** `get_full_name`: first and last name joined by one space, stripped. */
  function GetFullName(u: User): (r: string)
  {
    Strip(u.firstName + " " + u.lastName)
  }

  lemma FullNameShape(u: User)
    ensures var r := GetFullName(u);
      |r| <= |u.firstName| + 1 + |u.lastName|
      && (r == [] || (!IsSpace(r[0]) && !IsSpace(r[|r| - 1])))
  {
    StripShape(u.firstName + " " + u.lastName);
  }

  /** With no surrounding spaces on either part and both non-empty, the
      full name is exactly "first last". */
  lemma FullNameOfTrimmedParts(u: User)
    requires u.firstName != [] && u.lastName != []
    requires !IsSpace(u.firstName[0]) && !IsSpace(u.lastName[|u.lastName| - 1])
    ensures GetFullName(u) == u.firstName + " " + u.lastName
  {
    var s := u.firstName + " " + u.lastName;
    assert s[0] == u.firstName[0];
    assert s[|s| - 1] == u.lastName[|u.lastName| - 1];
  }

  const Hour: int := 3600

  /** Lifetimes, in seconds of the model clock: 24 hours and 1 hour. */
  const VerificationLifetime: int := 24 * Hour
  const ResetLifetime: int := Hour

  /** Token rows are stored under their token string. */
  datatype VerificationToken = VerificationToken(userId: Id, createdAt: int, expiresAt: int)

  datatype ResetToken = ResetToken(userId: Id, createdAt: int, expiresAt: int, isUsed: bool)

  /** `is_expired`: strictly after the expiry instant. */
  predicate IsExpired(now: int, expiresAt: int) { now > expiresAt }

  /** `PasswordResetToken.is_valid`. */
  predicate ResetTokenIsValid(t: ResetToken, now: int)
  {
    !t.isUsed && !IsExpired(now, t.expiresAt)
  }

  /** A token is still good at its very expiry instant and dead one tick later;
      a verification token made at `t` lives exactly 24 hours. */
  lemma ExpiryBoundary(createdAt: int)
    ensures !IsExpired(createdAt + VerificationLifetime, createdAt + VerificationLifetime)
    ensures IsExpired(createdAt + VerificationLifetime + 1, createdAt + VerificationLifetime)
    ensures VerificationLifetime == 86400 && ResetLifetime == 3600
  {
  }

  /** A used reset token is never valid, whatever the clock says; an unused one
      is valid exactly until it expires. */
  lemma ResetValidity(t: ResetToken, now: int)
    ensures t.isUsed ==> !ResetTokenIsValid(t, now)
    ensures !t.isUsed ==> (ResetTokenIsValid(t, now) <==> now <= t.expiresAt)
  {
  }
}
