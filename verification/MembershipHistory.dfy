// What any sequence of submissions and administrator commands keeps.
module MembershipHistory {
  import opened Wrappers
  import opened Text
  import opened Membership

  datatype Event = Submit(key: string, a: Application) | Admin(actor: string, c: Command)

  function Step(r: Registry, e: Event): Registry
  {
    match e
    case Submit(key, a) => SubmitSpec(r, key, a).1
    case Admin(actor, c) => AdminSpec(r, actor, c).1
  }

  function Run(r: Registry, es: seq<Event>): Registry
    decreases |es|
  {
    if es == [] then r else Run(Step(r, es[0]), es[1..])
  }

  function ApplicationsOf(rows: seq<Submitted>, user: string): nat
  {
    if rows == [] then 0
    else ApplicationsOf(rows[..|rows| - 1], user) + if rows[|rows| - 1].application.userId == user then 1 else 0
  }

  function AuditsOf(audits: seq<Audit>, user: string): nat
  {
    if audits == [] then 0
    else AuditsOf(audits[..|audits| - 1], user) + if audits[|audits| - 1].userId == user then 1 else 0
  }

  // The most recent audit about a user.
  function LastAudit(audits: seq<Audit>, user: string): (last: Option<Audit>)
    ensures last.Some? ==> last.value in audits && last.value.userId == user
  {
    if audits == [] then None
    else if audits[|audits| - 1].userId == user then Some(audits[|audits| - 1])
    else LastAudit(audits[..|audits| - 1], user)
  }

  // ---- Invariant ----

  // The status an application has under a profile that points to it.
  function Closed(s: Status): Status
  {
    if s == Disabled then Enabled else s
  }

  predicate PointsToCurrent(p: Profile, rows: seq<Submitted>)
  {
    p.status != NotApplied ==>
      exists i | 0 <= i < |rows| ::
        rows[i].application.id == p.applicationId && rows[i].application.userId == p.userId
          && rows[i].status == Closed(p.status)
  }

  // Pending applications of a user are its current one, while it is PENDING.
  predicate PendingIsCurrent(p: Profile, rows: seq<Submitted>)
  {
    forall i | 0 <= i < |rows| && rows[i].application.userId == p.userId ::
      rows[i].status == Pending <==> p.status == Pending && rows[i].application.id == p.applicationId
  }

  predicate DecidedByLastAudit(p: Profile, audits: seq<Audit>)
  {
    p.status in {Enabled, Rejected, Disabled} ==>
      LastAudit(audits, p.userId).Some?
      && var last := LastAudit(audits, p.userId).value;
      last.after == p && last.actor != p.userId
      && (p.status == Enabled ==> last.command.action == Review && last.command.approve && last.command.targetId == p.applicationId)
  }

  predicate ProfileOk(p: Profile, user: string, rows: seq<Submitted>, audits: seq<Audit>)
  {
    p.userId == user && p.version == ApplicationsOf(rows, user) + AuditsOf(audits, user)
    && (p.status == NotApplied ==> p.version == 0 && p.applicationId == "")
      && (p.status != NotApplied ==> p.applicationId != "")
    && PointsToCurrent(p, rows) && PendingIsCurrent(p, rows) && DecidedByLastAudit(p, audits)
  }

  predicate DistinctIds(rows: seq<Submitted>)
  {
    forall i, j | 0 <= i < j < |rows| :: rows[i].application.id != rows[j].application.id
  }

  predicate Owned(rows: seq<Submitted>, profiles: map<string, Profile>)
  {
    forall i | 0 <= i < |rows| :: rows[i].application.userId in profiles && rows[i].application.id != ""
  }

  ghost predicate Inv(r: Registry)
  {
    DistinctIds(r.applications) && Owned(r.applications, r.profiles)
    && (forall u | u in r.profiles :: ProfileOk(r.profiles[u], u, r.applications, r.audits))
    && forall u | u !in r.profiles :: ApplicationsOf(r.applications, u) == 0 && AuditsOf(r.audits, u) == 0
  }

  // ---- Steps ----

  lemma AppendApplication(rows: seq<Submitted>, x: Submitted, user: string)
    ensures ApplicationsOf(rows + [x], user) == ApplicationsOf(rows, user) + if x.application.userId == user then 1 else 0
  {
    assert (rows + [x])[..|rows|] == rows;
  }

  lemma AppendAudit(audits: seq<Audit>, x: Audit, user: string)
    ensures AuditsOf(audits + [x], user) == AuditsOf(audits, user) + if x.userId == user then 1 else 0
    ensures LastAudit(audits + [x], user) == if x.userId == user then Some(x) else LastAudit(audits, user)
  {
    assert (audits + [x])[..|audits|] == audits;
  }

  lemma {:induction false} ReplaceApplication(rows: seq<Submitted>, i: nat, x: Submitted, user: string)
    requires i < |rows| && x.application == rows[i].application
    ensures ApplicationsOf(rows[i := x], user) == ApplicationsOf(rows, user)
  {
    var n := |rows| - 1;
    if i == n {
      assert rows[i := x][..n] == rows[..n];
    } else {
      assert rows[i := x][..n] == rows[..n][i := x];
      ReplaceApplication(rows[..n], i, x, user);
    }
  }

  lemma {:induction false} NoneOf(rows: seq<Submitted>, user: string)
    ensures ApplicationsOf(rows, user) == 0 <==> forall i | 0 <= i < |rows| :: rows[i].application.userId != user
  {
    if rows != [] {
      var n := |rows| - 1;
      NoneOf(rows[..n], user);
      assert forall i | 0 <= i < n :: rows[i] == rows[..n][i];
      assert rows[n].application.userId == user ==> ApplicationsOf(rows, user) > 0;
    }
  }

  // A new pending row becomes the current one.
  lemma AppendCurrent(p: Profile, q: Profile, rows: seq<Submitted>, x: Submitted)
    requires PendingIsCurrent(p, rows) && p.status != Pending && q.userId == p.userId == x.application.userId
    requires q.status == Pending == x.status && q.applicationId == x.application.id
    requires forall i | 0 <= i < |rows| :: rows[i].application.id != x.application.id
    ensures PendingIsCurrent(q, rows + [x]) && PointsToCurrent(q, rows + [x])
  {
    assert (rows + [x])[|rows|] == x;
  }

  lemma AppendOther(p: Profile, rows: seq<Submitted>, x: Submitted)
    requires PendingIsCurrent(p, rows) && PointsToCurrent(p, rows) && x.application.userId != p.userId
    ensures PendingIsCurrent(p, rows + [x]) && PointsToCurrent(p, rows + [x])
  {
    assert forall i | 0 <= i < |rows| :: (rows + [x])[i] == rows[i];
  }

  // The current pending row is closed.
  lemma CloseCurrent(p: Profile, q: Profile, rows: seq<Submitted>, i: nat)
    requires PendingIsCurrent(p, rows) && p.status == Pending && q.userId == p.userId && q.applicationId == p.applicationId
    requires q.status == Enabled || q.status == Rejected
    requires i < |rows| && rows[i].application.id == p.applicationId && rows[i].application.userId == p.userId
             && DistinctIds(rows)
    ensures var after := rows[i := rows[i].(status := q.status)]; PendingIsCurrent(q, after) && PointsToCurrent(q, after)
  {
    var after := rows[i := rows[i].(status := q.status)];
    assert after[i].application.id == q.applicationId;
    forall j | 0 <= j < |after| && after[j].application.userId == q.userId
      ensures after[j].status != Pending
    {
      assert rows[j].application.userId == p.userId;
      if j != i {
        assert rows[j].application.id != rows[i].application.id;
      }
    }
  }

  lemma CloseOther(p: Profile, rows: seq<Submitted>, i: nat, x: Submitted)
    requires PendingIsCurrent(p, rows) && PointsToCurrent(p, rows)
    requires i < |rows| && x.application == rows[i].application && x.application.userId != p.userId
    ensures PendingIsCurrent(p, rows[i := x]) && PointsToCurrent(p, rows[i := x])
  {
    if p.status != NotApplied {
      var k :| 0 <= k < |rows| && rows[k].application.id == p.applicationId && rows[k].application.userId == p.userId
               && rows[k].status == Closed(p.status);
      assert rows[i := x][k] == rows[k];
    }
  }

  lemma SubmitKeeps(r: Registry, key: string, a: Application)
    requires Inv(r)
    ensures Inv(SubmitSpec(r, key, a).1)
  {
    hide PendingIsCurrent, PointsToCurrent, DecidedByLastAudit, Blank, ByteLen;
    var next := SubmitSpec(r, key, a).1;
    if next != r {
      var x := Submitted(a, key, Pending);
      SubmittedProfile(r, key, a);
      forall u | u in next.profiles && u != a.userId
        ensures ProfileOk(next.profiles[u], u, next.applications, next.audits)
      {
        assert ProfileOk(r.profiles[u], u, r.applications, r.audits);
        AppendApplication(r.applications, x, u);
        AppendOther(r.profiles[u], r.applications, x);
      }
      forall u | u !in next.profiles
        ensures ApplicationsOf(next.applications, u) == 0 && AuditsOf(next.audits, u) == 0
      {
        AppendApplication(r.applications, x, u);
      }
    }
  }

  lemma SubmitFacts(r: Registry, key: string, a: Application)
    requires SubmitSpec(r, key, a).1 != r
    ensures a.id != "" && FindId(r.applications, a.id).None? && FindKey(r.applications, a.userId, key).None?
    ensures var p := Current(r, a.userId);
            (p.status == NotApplied || p.status == Rejected)
            && SubmitSpec(r, key, a).1
               == r.(profiles := r.profiles[a.userId := p.(status := Pending, applicationId := a.id, reason := "",
                 version := p.version + 1)],
                     applications := r.applications + [Submitted(a, key, Pending)])
  {
    assert Trim("") == "";
    hide Trim, ByteLen, FindKey, FindId;
  }

  lemma SubmittedProfile(r: Registry, key: string, a: Application)
    requires Inv(r) && SubmitSpec(r, key, a).1 != r
    ensures var next := SubmitSpec(r, key, a).1;
            a.userId in next.profiles && ProfileOk(next.profiles[a.userId], a.userId, next.applications, next.audits)
            && DistinctIds(next.applications) && Owned(next.applications, next.profiles)
  {
    SubmitFacts(r, key, a);
    CurrentFacts(r, a.userId);
    hide SubmitSpec, FindId, ProfileOk, Current, PendingIsCurrent;
    ApplyOk(Current(r, a.userId), a.userId, r.applications, r.audits, Submitted(a, key, Pending));
  }

  // What holds of a user's profile, stored or not yet.
  lemma CurrentFacts(r: Registry, user: string)
    requires Inv(r)
    ensures var p := Current(r, user);
            p.userId == user && p.version == ApplicationsOf(r.applications, user) + AuditsOf(r.audits, user)
            && PendingIsCurrent(p, r.applications)
  {
    if user in r.profiles {
      assert ProfileOk(r.profiles[user], user, r.applications, r.audits);
    } else {
      NoneOf(r.applications, user);
      PendingAtFirst(NewProfile(user), r.applications);
    }
  }

  // The profile with its new application.
  lemma ApplyOk(p: Profile, user: string, rows: seq<Submitted>, audits: seq<Audit>, x: Submitted)
    requires p.userId == user == x.application.userId && p.version == ApplicationsOf(rows, user) + AuditsOf(audits, user)
    requires PendingIsCurrent(p, rows) && p.status != Pending && x.status == Pending && x.application.id != ""
    requires forall i | 0 <= i < |rows| :: rows[i].application.id != x.application.id
    ensures ProfileOk(p.(status := Pending, applicationId := x.application.id, reason := "",
            version := p.version + 1), user, rows + [x], audits)
  {
    var q := p.(status := Pending, applicationId := x.application.id, reason := "", version := p.version + 1);
    AppendApplication(rows, x, user);
    AppendCurrent(p, q, rows, x);
    PendingIsUndecided(q, audits);
    hide PendingIsCurrent, PointsToCurrent, DecidedByLastAudit, ApplicationsOf, AuditsOf;
  }

  lemma PendingAtFirst(p: Profile, rows: seq<Submitted>)
    ensures (forall i | 0 <= i < |rows| :: rows[i].application.userId != p.userId) ==> PendingIsCurrent(p, rows)
  {
  }

  lemma PendingIsUndecided(p: Profile, audits: seq<Audit>)
    ensures p.status == Pending ==> DecidedByLastAudit(p, audits)
  {
  }

  // The row a review is about is always there, pending, and closed by it.
  lemma ReviewFindsItsRow(r: Registry, user: string, c: Command)
    requires Inv(r) && user in r.profiles && c.action == Review && Decision(r.profiles[user], c).Ok?
    ensures var at := FindId(r.applications, c.targetId);
            at.Some? && r.applications[at.value].status == Pending && r.applications[at.value].application.userId == user
            && CloseApplication(r.applications, c.targetId, Decision(r.profiles[user], c).value.status).1 == 1
  {
    var p := r.profiles[user];
    assert ProfileOk(p, user, r.applications, r.audits);
    var i :| 0 <= i < |r.applications| && r.applications[i].application.id == p.applicationId
             && r.applications[i].application.userId == p.userId && r.applications[i].status == Closed(p.status);
    assert r.applications[i].status == Pending;
  }

  lemma AdminKeeps(r: Registry, actor: string, c: Command)
    requires Inv(r)
    ensures Inv(AdminSpec(r, actor, c).1)
  {
    hide PendingIsCurrent, PointsToCurrent, DecidedByLastAudit, Decision, DistinctIds, ProfileOk, Target, Owned;
    var next := AdminSpec(r, actor, c).1;
    if next != r {
      var user := Target(r, c).value;
      DecidedProfile(r, actor, c, user);
      forall u | u in next.profiles && u != user
        ensures ProfileOk(next.profiles[u], u, next.applications, next.audits)
      {
        AdminKeepsOther(r, actor, c, user, u);
      }
      forall u | u !in next.profiles
        ensures ApplicationsOf(next.applications, u) == 0 && AuditsOf(next.audits, u) == 0
      {
        AppendAudit(r.audits, next.audits[|r.audits|], u);
        CloseCounts(r.applications, c.targetId, next.profiles[user].status, u);
      }
    }
  }

  lemma CloseCounts(rows: seq<Submitted>, id: string, status: Status, user: string)
    ensures ApplicationsOf(CloseApplication(rows, id, status).0, user) == ApplicationsOf(rows, user)
  {
    var at := FindId(rows, id);
    if at.Some? && rows[at.value].status == Pending {
      ReplaceApplication(rows, at.value, rows[at.value].(status := status), user);
    }
  }

  lemma AdminFacts(r: Registry, actor: string, c: Command, user: string)
    requires AdminSpec(r, actor, c).1 != r && Target(r, c) == Some(user)
    ensures c.action != OtherAction && actor != user && user in r.profiles && Decision(r.profiles[user], c).Ok?
    ensures var q := Decision(r.profiles[user], c).value;
            AdminSpec(r, actor, c).1
            == Registry(r.profiles[user := q],
                        if c.action == Review then CloseApplication(r.applications, c.targetId, q.status).0
                          else r.applications,
                        r.audits + [Audit(actor, c, user, r.profiles[user], q)])
  {
    hide Target, FindAudit, Decision, CloseApplication;
  }

  lemma DecidedProfile(r: Registry, actor: string, c: Command, user: string)
    requires Inv(r) && AdminSpec(r, actor, c).1 != r && Target(r, c) == Some(user)
    ensures var next := AdminSpec(r, actor, c).1;
            user in next.profiles && ProfileOk(next.profiles[user], user, next.applications, next.audits)
            && DistinctIds(next.applications) && Owned(next.applications, next.profiles)
  {
    AdminFacts(r, actor, c, user);
    hide AdminSpec, Target;
    var p := r.profiles[user];
    var q := Decision(p, c).value;
    assert ProfileOk(p, user, r.applications, r.audits);
    var audit := Audit(actor, c, user, p, q);
    if c.action == Review {
      ReviewFindsItsRow(r, user, c);
      var at := FindId(r.applications, c.targetId).value;
      hide Inv;
      CloseCounts(r.applications, c.targetId, q.status, user);
      CloseCurrent(p, q, r.applications, at);
      DecisionOk(p, q, user, r.applications, r.applications[at := r.applications[at].(status := q.status)], r.audits, audit);
      OwnedStays(r, at, r.applications[at].(status := q.status), r.profiles[user := q]);
    } else {
      hide Inv;
      DisableKeepsPointers(p, q, r.applications);
      DecisionOk(p, q, user, r.applications, r.applications, r.audits, audit);
    }
  }

  lemma DecisionOk(p: Profile, q: Profile, user: string, rows: seq<Submitted>, after: seq<Submitted>,
      audits: seq<Audit>, x: Audit)
    requires ProfileOk(p, user, rows, audits) && ApplicationsOf(after, user) == ApplicationsOf(rows, user)
    requires PendingIsCurrent(q, after) && PointsToCurrent(q, after)
    requires x == Audit(x.actor, x.command, user, p, q) && x.actor != user && x.command.action != OtherAction
             && Decision(p, x.command) == Ok(q)
    ensures ProfileOk(q, user, after, audits + [x])
  {
    AppendAudit(audits, x, user);
    hide PendingIsCurrent, PointsToCurrent, Blank, AuditsOf, LastAudit, ApplicationsOf;
  }

  lemma OwnedStays(r: Registry, i: nat, x: Submitted, profiles: map<string, Profile>)
    requires Owned(r.applications, r.profiles) && DistinctIds(r.applications) && profiles.Keys == r.profiles.Keys
    requires i < |r.applications| && x.application == r.applications[i].application
    ensures Owned(r.applications[i := x], profiles) && DistinctIds(r.applications[i := x])
  {
  }

  lemma DisableKeepsPointers(p: Profile, q: Profile, rows: seq<Submitted>)
    requires PendingIsCurrent(p, rows) && PointsToCurrent(p, rows) && p.status == Enabled && q.status == Disabled
    requires q.userId == p.userId && q.applicationId == p.applicationId
    ensures PendingIsCurrent(q, rows) && PointsToCurrent(q, rows)
  {
  }

  lemma AdminKeepsOther(r: Registry, actor: string, c: Command, user: string, u: string)
    requires Inv(r) && AdminSpec(r, actor, c).1 != r && u in r.profiles && Target(r, c) == Some(user) && u != user
    ensures var next := AdminSpec(r, actor, c).1; ProfileOk(r.profiles[u], u, next.applications, next.audits)
  {
    hide Blank, ByteLen, FindAudit, PendingIsCurrent, PointsToCurrent, Owned, DistinctIds, Decision;
    var next := AdminSpec(r, actor, c).1;
    var p := r.profiles[u];
    assert ProfileOk(p, u, r.applications, r.audits);
    AppendAudit(r.audits, next.audits[|r.audits|], u);
    CloseCounts(r.applications, c.targetId, next.profiles[user].status, u);
    if c.action == Review {
      var at := FindId(r.applications, c.targetId).value;
      CloseOther(p, r.applications, at, r.applications[at].(status := next.profiles[user].status));
    }
  }

  lemma {:induction false} RunKeeps(r: Registry, es: seq<Event>)
    requires Inv(r)
    ensures Inv(Run(r, es))
    decreases |es|
  {
    hide Inv, SubmitSpec, AdminSpec;
    if es != [] {
      match es[0] {
        case Submit(key, a) => SubmitKeeps(r, key, a);
        case Admin(actor, c) => AdminKeeps(r, actor, c);
      }
      RunKeeps(Step(r, es[0]), es[1..]);
    }
  }

  // ---- The guarantees, over every history ----

  lemma Reachable(es: seq<Event>)
    ensures Inv(Run(EMPTY, es))
  {
    RunKeeps(EMPTY, es);
  }

  // Nothing that touched a membership went unrecorded: its version is the
  // number of its applications plus the number of its audits.
  lemma VersionCountsHistory(es: seq<Event>, user: string)
    ensures var r := Run(EMPTY, es);
            Current(r, user).version == ApplicationsOf(r.applications, user) + AuditsOf(r.audits, user)
  {
    Reachable(es);
    var r := Run(EMPTY, es);
    assert user in r.profiles ==> ProfileOk(r.profiles[user], user, r.applications, r.audits);
  }

  // At most one application of a user is PENDING; there is one exactly when
  // the profile is, and it is the profile's current one.
  lemma OnePendingApplication(es: seq<Event>, user: string)
    ensures var r := Run(EMPTY, es); var p := Current(r, user);
            (forall i, j | 0 <= i < |r.applications| && 0 <= j < |r.applications|
              && r.applications[i].application.userId == user
                           && r.applications[j].application.userId == user && r.applications[i].status == Pending
                           && r.applications[j].status == Pending :: i == j && r.applications[i].application.id == p.applicationId)
            && (p.status == Pending
                <==> exists i | 0 <= i < |r.applications| :: r.applications[i].application.userId == user && r.applications[i].status == Pending)
  {
    Reachable(es);
    var r := Run(EMPTY, es);
    if user in r.profiles {
      assert ProfileOk(r.profiles[user], user, r.applications, r.audits);
    } else {
      NoneOf(r.applications, user);
    }
  }

  // The conflict branch for a review that updates no row is never taken.
  lemma ReviewsUpdateOneRow(es: seq<Event>, c: Command, user: string)
    requires c.action == Review && user in Run(EMPTY, es).profiles && Decision(Run(EMPTY, es).profiles[user], c).Ok?
    ensures var r := Run(EMPTY, es);
            CloseApplication(r.applications, c.targetId, Decision(r.profiles[user], c).value.status).1 == 1
              && Target(r, c) == Some(user)
  {
    Reachable(es);
    ReviewFindsItsRow(Run(EMPTY, es), user, c);
  }

  // Membership is granted only by a review of the current application that
  // somebody else carried out, and that is the last thing recorded about it.
  lemma EnabledByAnotherPersonsReview(es: seq<Event>, user: string)
    requires Current(Run(EMPTY, es), user).status == Enabled
    ensures var r := Run(EMPTY, es); var last := LastAudit(r.audits, user);
            last.Some? && last.value.actor != user && last.value.command.action == Review && last.value.command.approve
            && last.value.command.targetId == r.profiles[user].applicationId && last.value.after == r.profiles[user]
  {
    Reachable(es);
    var r := Run(EMPTY, es);
    assert ProfileOk(r.profiles[user], user, r.applications, r.audits);
  }

  // ---- Replays ----

  lemma KeyStays(r: Registry, e: Event, user: string, key: string)
    requires FindKey(r.applications, user, key).Some?
    ensures var i := FindKey(r.applications, user, key).value; var next := Step(r, e).applications;
            FindKey(next, user, key) == Some(i) && next[i].application == r.applications[i].application
  {
    hide SubmitSpec, AdminSpec, Target, Decision;
    if Step(r, e) != r {
      match e {
        case Submit(k, a) =>
          SubmitFacts(r, k, a);
          assert (r.applications + [Submitted(a, k, Pending)])[..|r.applications|] == r.applications;
        case Admin(actor, c) =>
          AdminHasTarget(r, actor, c);
          AdminFacts(r, actor, c, Target(r, c).value);
          var at := FindId(r.applications, c.targetId);
          if at.Some? {
            FindKeyIgnoresStatus(r.applications, at.value, Step(r, e).profiles[Target(r, c).value].status, user, key);
          }
      }
    }
  }

  lemma AdminHasTarget(r: Registry, actor: string, c: Command)
    requires AdminSpec(r, actor, c).1 != r
    ensures Target(r, c).Some?
  {
    hide Target, FindAudit, Decision, CloseApplication;
  }

  lemma {:induction false} FindKeyIgnoresStatus(rows: seq<Submitted>, i: nat, status: Status, user: string, key: string)
    requires i < |rows|
    ensures FindKey(rows[i := rows[i].(status := status)], user, key) == FindKey(rows, user, key)
  {
    var n := |rows| - 1;
    var after := rows[i := rows[i].(status := status)];
    if i < n {
      assert after[..n] == rows[..n][i := rows[i].(status := status)];
      FindKeyIgnoresStatus(rows[..n], i, status, user, key);
    } else {
      assert after[..n] == rows[..n];
    }
  }

  lemma {:induction false} KeyStaysOverRun(r: Registry, es: seq<Event>, user: string, key: string)
    requires FindKey(r.applications, user, key).Some?
    ensures var i := FindKey(r.applications, user, key).value; var next := Run(r, es).applications;
            FindKey(next, user, key) == Some(i) && next[i].application == r.applications[i].application
    decreases |es|
  {
    hide FindKey, Step;
    if es != [] {
      KeyStays(r, es[0], user, key);
      KeyStaysOverRun(Step(r, es[0]), es[1..], user, key);
    }
  }

  lemma {:induction false} RunAppend(r: Registry, es: seq<Event>, fs: seq<Event>)
    ensures Run(r, es + fs) == Run(Run(r, es), fs)
    decreases |es|
  {
    if es == [] {
      assert es + fs == fs;
    } else {
      assert (es + fs)[0] == es[0] && (es + fs)[1..] == es[1..] + fs;
      RunAppend(Step(r, es[0]), es[1..], fs);
    }
  }

  // Repeating a submission after anything else returns the application first
  // stored under its key, even one reviewed since, and changes nothing; with
  // another form it conflicts.
  lemma SubmitReplays(es: seq<Event>, fs: seq<Event>, key: string, first: Application, again: Application)
    requires SubmitSpec(Run(EMPTY, es), key, first).0 == Ok(first)
    requires again.userId == first.userId && Apply(NewProfile(again.userId), again, 0).Ok?
    ensures var later := Run(EMPTY, es + [Submit(key, first)] + fs);
            SubmitSpec(later, key, again) == (if SameForm(first, again) then Ok(first) else Err(IdempotencyConflict), later)
  {
    hide Blank, ByteLen;
    var r := Run(EMPTY, es);
    var next := Step(r, Submit(key, first));
    RunAppend(EMPTY, es, [Submit(key, first)]);
    RunAppend(EMPTY, es + [Submit(key, first)], fs);
    assert Run(r, [Submit(key, first)]) == next by { assert [Submit(key, first)][1..] == []; }
    assert (r.applications + [Submitted(first, key, Pending)])[..|r.applications|] == r.applications;
    assert FindKey(next.applications, first.userId, key).Some?;
    KeyStaysOverRun(next, fs, first.userId, key);
  }

  lemma AuditStays(r: Registry, e: Event, actor: string, action: Action, key: string)
    requires FindAudit(r.audits, actor, action, key).Some?
    ensures r.audits <= Step(r, e).audits
            && FindAudit(Step(r, e).audits, actor, action, key) == FindAudit(r.audits, actor, action, key)
  {
    hide Target, Decision, CloseApplication, FindKey, FindId, Blank, ByteLen;
    if e.Admin? && Step(r, e).audits != r.audits {
      var next := Step(r, e).audits;
      assert next[..|r.audits|] == r.audits;
    }
  }

  lemma {:induction false} AuditStaysOverRun(r: Registry, es: seq<Event>, actor: string, action: Action, key: string)
    requires FindAudit(r.audits, actor, action, key).Some?
    ensures r.audits <= Run(r, es).audits
            && FindAudit(Run(r, es).audits, actor, action, key) == FindAudit(r.audits, actor, action, key)
    decreases |es|
  {
    hide FindAudit, Step;
    if es != [] {
      AuditStays(r, es[0], actor, action, key);
      AuditStaysOverRun(Step(r, es[0]), es[1..], actor, action, key);
    }
  }

  // Repeating an administrator's command after anything else returns the
  // profile as it was after the first time and changes nothing; the same key
  // with another command conflicts.
  lemma AdminReplays(es: seq<Event>, fs: seq<Event>, actor: string, c: Command, again: Command)
    requires AdminSpec(Run(EMPTY, es), actor, c).0.Ok? && again.action == c.action && again.key == c.key
    ensures var later := Run(EMPTY, es + [Admin(actor, c)] + fs);
            AdminSpec(later, actor, again) == (if again == c then AdminSpec(Run(EMPTY, es), actor, c).0
              else Err(IdempotencyConflict), later)
  {
    var r := Run(EMPTY, es);
    var next := Step(r, Admin(actor, c));
    RunAppend(EMPTY, es, [Admin(actor, c)]);
    RunAppend(EMPTY, es + [Admin(actor, c)], fs);
    assert Run(r, [Admin(actor, c)]) == next by { assert [Admin(actor, c)][1..] == []; }
    AdminLeavesAudit(r, actor, c);
    AuditStaysOverRun(next, fs, actor, c.action, c.key);
  }

  lemma AdminLeavesAudit(r: Registry, actor: string, c: Command)
    requires AdminSpec(r, actor, c).0.Ok?
    ensures var audits := AdminSpec(r, actor, c).1.audits; var at := FindAudit(audits, actor, c.action, c.key);
            at.Some? && audits[at.value].command == c && Ok(audits[at.value].after) == AdminSpec(r, actor, c).0
  {
    if FindAudit(r.audits, actor, c.action, c.key).None? {
      AdminAppends(r, actor, c);
      var audits := AdminSpec(r, actor, c).1.audits;
      assert audits[..|r.audits|] == r.audits;
    } else {
      hide Target, Decision, CloseApplication;
    }
  }

  lemma AdminAppends(r: Registry, actor: string, c: Command)
    requires AdminSpec(r, actor, c).0.Ok? && FindAudit(r.audits, actor, c.action, c.key).None?
    ensures var (out, next) := AdminSpec(r, actor, c);
            exists user, before :: next.audits == r.audits + [Audit(actor, c, user, before, out.value)]
  {
    hide Target, Decision, CloseApplication, FindAudit;
    var user := Target(r, c).value;
    assert AdminSpec(r, actor,
      c).1.audits == r.audits + [Audit(actor, c, user, r.profiles[user], AdminSpec(r, actor, c).0.value)];
  }

  // ---- What a new command needs and writes ----

  predicate Complete(a: Application)
  {
    !Blank(a.id) && !Blank(a.userId) && !Blank(a.displayName) && !Blank(a.scene) && !Blank(a.agreementVersion)
    && a.consentedAt != 0
  }

  // An application under a new key is accepted exactly when it is complete, its ID is
  // new, and its user has not applied yet or was rejected.
  lemma SubmitIsAcceptedIff(r: Registry, key: string, a: Application)
    requires FindKey(r.applications, a.userId, key).None? && (a.userId in r.profiles ==> r.profiles[a.userId].userId == a.userId)
    ensures SubmitSpec(r, key, a).0.Ok?
            <==> !Blank(key) && ByteLen(key) <= 128 && Complete(a)
                 && (a.userId in r.profiles ==> r.profiles[a.userId].status in {NotApplied, Rejected})
                 && forall i | 0 <= i < |r.applications| :: r.applications[i].application.id != a.id
  {
    hide ByteLen, Blank;
  }

  lemma SubmitWrites(r: Registry, key: string, a: Application)
    requires FindKey(r.applications, a.userId, key).None? && SubmitSpec(r, key, a).0.Ok?
    ensures var (out, next) := SubmitSpec(r, key, a);
            out == Ok(a) && next.applications == r.applications + [Submitted(a, key, Pending)] && next.audits == r.audits
            && next.profiles == r.profiles[a.userId := Profile(a.userId, Pending, "", a.id,
                                  (if a.userId in r.profiles then r.profiles[a.userId].version else 0) + 1)]
  {
    hide ByteLen, Blank;
  }

  // A review that is new is accepted exactly when its application is the pending one
  // of a pending user at the version seen, with a reason, by somebody else.
  lemma ReviewIsAcceptedIff(r: Registry, actor: string, c: Command)
    requires c.action == Review && FindAudit(r.audits, actor, Review, c.key).None?
    ensures AdminSpec(r, actor, c).0.Ok?
            <==> FindId(r.applications, c.targetId).Some?
                 && var row := r.applications[FindId(r.applications, c.targetId).value]; var user := row.application.userId;
                    row.status == Pending && user != actor && user in r.profiles && r.profiles[user].status == Pending
                    && r.profiles[user].applicationId == c.targetId && r.profiles[user].version == c.version && !Blank(c.reason)
  {
    hide Blank, Trim;
  }

  lemma DisableIsAcceptedIff(r: Registry, actor: string, c: Command)
    requires c.action == Disable && FindAudit(r.audits, actor, Disable, c.key).None?
    ensures AdminSpec(r, actor, c).0.Ok?
            <==> c.targetId != actor && c.targetId in r.profiles && r.profiles[c.targetId].status == Enabled
                 && r.profiles[c.targetId].version == c.version && !Blank(c.reason)
  {
    hide Blank, Trim;
  }

  // The profile, the application and the audit row that a decision leaves.
  lemma DecisionWrites(r: Registry, actor: string, c: Command)
    requires FindAudit(r.audits, actor, c.action, c.key).None? && AdminSpec(r, actor, c).0.Ok?
    ensures var (out, next) := AdminSpec(r, actor, c);
            var user := if c.action == Disable then c.targetId
              else r.applications[FindId(r.applications, c.targetId).value].application.userId;
            user in r.profiles && next.profiles == r.profiles[user := out.value]
            && var before := r.profiles[user];
            var status := if c.action == Disable then Disabled else if c.approve then Enabled else Rejected;
            out.value == Profile(before.userId, status, Trim(c.reason), before.applicationId, before.version + 1)
            && next.audits == r.audits + [Audit(actor, c, user, before, out.value)]
            && if c.action == Disable then next.applications == r.applications
               else
                 var i := FindId(r.applications, c.targetId).value;
                 next.applications == r.applications[i := Submitted(r.applications[i].application, r.applications[i].key, status)]
  {
    hide Blank, Trim;
  }

  // A refusal writes nothing, and nobody decides about themselves.
  lemma RefusalsWriteNothing(r: Registry, actor: string, c: Command, key: string, a: Application)
    ensures AdminSpec(r, actor, c).0.Err? ==> AdminSpec(r, actor, c).1 == r
    ensures SubmitSpec(r, key, a).0.Err? ==> SubmitSpec(r, key, a).1 == r
    ensures AdminSpec(r, actor, c).0 == Err(Forbidden) ==> Target(r, c) == Some(actor)
    ensures AdminSpec(r, actor, c).0 == Err(NotFound) ==> Target(r, c).None? || Target(r, c).value !in r.profiles
    ensures AdminSpec(r, actor, c).0 == Err(IdempotencyConflict) ==>
              FindAudit(r.audits, actor, c.action, c.key).Some?
              && r.audits[FindAudit(r.audits, actor, c.action, c.key).value].command != c
    ensures SubmitSpec(r, key, a).0 == Err(IdempotencyConflict) ==>
              FindKey(r.applications, a.userId, key).Some?
              && !SameForm(r.applications[FindKey(r.applications, a.userId, key).value].application, a)
  {
    hide Blank, Trim, ByteLen;
  }

  // Under a key that was used a complete application is answered with the first one,
  // exactly when name, scene and agreement are the same; nothing is written.
  lemma UsedKeyDecides(r: Registry, key: string, a: Application)
    requires !Blank(key) && ByteLen(key) <= 128 && Complete(a) && FindKey(r.applications, a.userId, key).Some?
    ensures var first := r.applications[FindKey(r.applications, a.userId, key).value].application;
            SubmitSpec(r, key, a)
            == (if first.displayName == a.displayName && first.scene == a.scene && first.agreementVersion == a.agreementVersion
                then Ok(first) else Err(IdempotencyConflict), r)
  {
    hide Blank, ByteLen;
  }
}
