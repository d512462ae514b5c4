// internal/promoter: membership transitions (model.go), the serialized
// submission of applications (postgres_repository.go) and the administrator's
// review and disable transactions (admin_repository.go). Both transactions
// hold the profile row from first read to commit, so each is one atomic step.
module Membership {
  import opened Wrappers
  import opened Text

  datatype Status = NotApplied | Pending | Enabled | Rejected | Disabled

  datatype Error = InvalidInput | Transition | VersionConflict | NotFound | Forbidden | IdempotencyConflict | Storage

  datatype Profile = Profile(userId: string, status: Status, reason: string, applicationId: string, version: nat)

  datatype Application = Application(id: string, userId: string, displayName: string, scene: string,
    agreementVersion: string, consentedAt: int)

  // A row of promoter_applications; status is PENDING, ENABLED or REJECTED.
  datatype Submitted = Submitted(application: Application, key: string, status: Status)

  datatype Action = Review | Disable | OtherAction

  datatype Command = Command(action: Action, targetId: string, key: string, approve: bool, reason: string, version: int)

  // An audit row keeps its command in place of the command's fingerprint.
  datatype Audit = Audit(actor: string, command: Command, userId: string, before: Profile, after: Profile)

  // Rows of both logs in the order they were inserted.
  datatype Registry = Registry(profiles: map<string, Profile>, applications: seq<Submitted>, audits: seq<Audit>)

  // ---- model.go ----

  function NewProfile(userId: string): Profile
  {
    Profile(userId, NotApplied, "", "", 0)
  }

  // model.go:67-82; a zero consent time is 0.
  function Apply(p: Profile, a: Application, expectedVersion: int): Result<Profile, Error>
  {
    if p.version != expectedVersion then Err(VersionConflict)
    else if p.status != NotApplied && p.status != Rejected then Err(Transition)
    else if Blank(p.userId) || a.userId != p.userId || Blank(a.id) || Blank(a.displayName) || Blank(a.scene)
            || Blank(a.agreementVersion) || a.consentedAt == 0 then Err(InvalidInput)
    else Ok(p.(status := Pending, applicationId := a.id, reason := "", version := p.version + 1))
  }

  // model.go:86-103
  function ReviewProfile(p: Profile, approve: bool, reason: string, expectedVersion: int): Result<Profile, Error>
  {
    if p.version != expectedVersion then Err(VersionConflict)
    else if p.status != Pending then Err(Transition)
    else if Blank(reason) then Err(InvalidInput)
    else Ok(p.(status := if approve then Enabled else Rejected, reason := Trim(reason), version := p.version + 1))
  }

  // model.go:105-118
  function DisableProfile(p: Profile, reason: string, expectedVersion: int): Result<Profile, Error>
  {
    if p.version != expectedVersion then Err(VersionConflict)
    else if p.status != Enabled then Err(Transition)
    else if Blank(reason) then Err(InvalidInput)
    else Ok(p.(status := Disabled, reason := Trim(reason), version := p.version + 1))
  }

  // ---- Lookups over the unique columns ----

  function FindKey(rows: seq<Submitted>, user: string, key: string): (at: Option<nat>)
    ensures at.Some? ==> at.value < |rows| && rows[at.value].application.userId == user && rows[at.value].key == key
    ensures at.None? ==> forall i | 0 <= i < |rows| :: rows[i].application.userId != user || rows[i].key != key
  {
    if rows == [] then None
    else if rows[|rows| - 1].application.userId == user && rows[|rows| - 1].key == key then Some(|rows| - 1)
    else FindKey(rows[..|rows| - 1], user, key)
  }

  function FindId(rows: seq<Submitted>, id: string): (at: Option<nat>)
    ensures at.Some? ==> at.value < |rows| && rows[at.value].application.id == id
    ensures at.None? ==> forall i | 0 <= i < |rows| :: rows[i].application.id != id
  {
    if rows == [] then None
    else if rows[|rows| - 1].application.id == id then Some(|rows| - 1)
    else FindId(rows[..|rows| - 1], id)
  }

  function FindAudit(audits: seq<Audit>, actor: string, action: Action, key: string): (at: Option<nat>)
    ensures at.Some? ==> at.value < |audits| && audits[at.value].actor == actor && audits[at.value].command.action == action
                         && audits[at.value].command.key == key
    ensures at.None? ==>
              forall i | 0 <= i < |audits| ::
                audits[i].actor != actor || audits[i].command.action != action || audits[i].command.key != key
  {
    if audits == [] then None
    else
      var last := audits[|audits| - 1];
      if last.actor == actor && last.command.action == action && last.command.key == key then Some(|audits| - 1)
      else FindAudit(audits[..|audits| - 1], actor, action, key)
  }

  // ---- The two transactions ----

  function Current(r: Registry, user: string): Profile
  {
    if user in r.profiles then r.profiles[user] else NewProfile(user)
  }

  predicate SameForm(a: Application, b: Application)
  {
    a.displayName == b.displayName && a.scene == b.scene && a.agreementVersion == b.agreementVersion
  }

  // postgres_repository.go:31-78
  function SubmitSpec(r: Registry, key: string, a: Application): (Result<Application, Error>, Registry)
  {
    if Blank(key) || ByteLen(key) > 128 then (Err(InvalidInput), r)
    else if Apply(NewProfile(a.userId), a, 0).Err? then (Err(Apply(NewProfile(a.userId), a, 0).error), r)
    else
      var p := Current(r, a.userId);
      var prior := FindKey(r.applications, a.userId, key);
      if prior.Some? then
        (if SameForm(r.applications[prior.value].application, a) then Ok(r.applications[prior.value].application)
         else Err(IdempotencyConflict),
         r)
      else if Apply(p, a, p.version).Err? then (Err(Apply(p, a, p.version).error), r)
      else if FindId(r.applications, a.id).Some? then (Err(Storage), r)
      else
        (Ok(a), r.(profiles := r.profiles[a.userId := Apply(p, a, p.version).value],
                   applications := r.applications + [Submitted(a, key, Pending)]))
  }

  // The user a command is about.
  function Target(r: Registry, c: Command): Option<string>
  {
    if c.action == Disable then Some(c.targetId)
    else
      var at := FindId(r.applications, c.targetId);
      if at.Some? then Some(r.applications[at.value].application.userId) else None
  }

  function Decision(p: Profile, c: Command): Result<Profile, Error>
  {
    if c.action == Disable then DisableProfile(p, c.reason, c.version)
    else if p.applicationId != c.targetId then Err(VersionConflict)
    else ReviewProfile(p, c.approve, c.reason, c.version)
  }

  // The application of this ID gets the new status if it is pending still: the
  // rows, and how many changed.
  function CloseApplication(rows: seq<Submitted>, id: string, status: Status): (seq<Submitted>, nat)
  {
    var at := FindId(rows, id);
    if at.Some? && rows[at.value].status == Pending then (rows[at.value := rows[at.value].(status := status)], 1)
      else (rows, 0)
  }

  // admin_repository.go:12-118
  function AdminSpec(r: Registry, actor: string, c: Command): (Result<Profile, Error>, Registry)
  {
    if c.action == OtherAction then (Err(InvalidInput), r)
    else
      var prior := FindAudit(r.audits, actor, c.action, c.key);
      if prior.Some? then
        (if r.audits[prior.value].command == c then Ok(r.audits[prior.value].after) else Err(IdempotencyConflict), r)
      else
        var user := Target(r, c);
        if user.None? then (Err(NotFound), r)
        else if actor == user.value then (Err(Forbidden), r)
        else if user.value !in r.profiles then (Err(NotFound), r)
        else
          var before := r.profiles[user.value];
          var decided := Decision(before, c);
          if decided.Err? then (Err(decided.error), r)
          else
            var closed := CloseApplication(r.applications, c.targetId, decided.value.status);
            if c.action == Review && closed.1 != 1 then (Err(VersionConflict), r)
            else
              (decided, Registry(r.profiles[user.value := decided.value], if c.action == Review then closed.0
                else r.applications,
                                 r.audits + [Audit(actor, c, user.value, before, decided.value)]))
  }

  // ---- In the form of the source ----

  class Store {
    var profiles: map<string, Profile>
    var applications: seq<Submitted>
    var audits: seq<Audit>

    function View(): Registry
      reads this
    {
      Registry(profiles, applications, audits)
    }

    constructor ()
      ensures View() == EMPTY
    {
      profiles, applications, audits := map[], [], [];
    }

    method Submit(key: string, a: Application) returns (out: Result<Application, Error>)
      modifies this
      ensures (out, View()) == SubmitSpec(old(View()), key, a)
    {
      if Blank(key) || ByteLen(key) > 128 {
        return Err(InvalidInput);
      }
      var form := Apply(NewProfile(a.userId), a, 0);
      if form.Err? {
        return Err(form.error);
      }
      // Everything from here to the commit is undone on failure.
      var p := if a.userId in profiles then profiles[a.userId] else NewProfile(a.userId);
      var prior := FindKey(applications, a.userId, key);
      if prior.Some? {
        var stored := applications[prior.value].application;
        if stored.displayName != a.displayName || stored.scene != a.scene || stored.agreementVersion != a.agreementVersion {
          return Err(IdempotencyConflict);
        }
        return Ok(stored);
      }
      var next := Apply(p, a, p.version);
      if next.Err? {
        return Err(next.error);
      }
      if FindId(applications, a.id).Some? {
        return Err(Storage);
      }
      applications := applications + [Submitted(a, key, Pending)];
      profiles := profiles[a.userId := p.(status := next.value.status, reason := "",
        applicationId := next.value.applicationId,
        version := next.value.version)];
      return Ok(a);
    }

    method ExecuteAdmin(actor: string, c: Command) returns (out: Result<Profile, Error>)
      modifies this
      ensures (out, View()) == AdminSpec(old(View()), actor, c)
    {
      if c.action != Review && c.action != Disable {
        return Err(InvalidInput);
      }
      var prior := FindAudit(audits, actor, c.action, c.key);
      if prior.Some? {
        if audits[prior.value].command != c {
          return Err(IdempotencyConflict);
        }
        return Ok(audits[prior.value].after);
      }
      var userId := c.targetId;
      if c.action == Review {
        var at := FindId(applications, c.targetId);
        if at.None? {
          return Err(NotFound);
        }
        userId := applications[at.value].application.userId;
      }
      if actor == userId {
        return Err(Forbidden);
      }
      if userId !in profiles {
        return Err(NotFound);
      }
      var before := profiles[userId];
      var after: Result<Profile, Error>;
      if c.action == Review {
        if before.applicationId != c.targetId {
          return Err(VersionConflict);
        }
        after := ReviewProfile(before, c.approve, c.reason, c.version);
      } else {
        after := DisableProfile(before, c.reason, c.version);
      }
      if after.Err? {
        return Err(after.error);
      }
      if c.action == Review {
        var (updated, rows) := CloseApplication(applications, c.targetId, after.value.status);
        if rows != 1 {
          return Err(VersionConflict);
        }
        applications := updated;
      }
      profiles := profiles[userId := before.(status := after.value.status, reason := after.value.reason,
        version := after.value.version)];
      audits := audits + [Audit(actor, c, userId, before, after.value)];
      return Ok(after.value);
    }
  }

  const EMPTY := Registry(map[], [], [])
}
