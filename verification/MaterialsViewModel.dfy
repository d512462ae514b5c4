// The view model of the material catalog in its own imperative form: a reactive
// state and version counters that every action assigns.
module MaterialsViewModel {
  import opened Wrappers
  import opened MaterialsModel

  class Materials {
    var state: View
    var listVersion: nat
    var detailVersion: nat
    var sessionVersion: nat
    var rejected: Option<string>
    var disposed: bool
    var session: Option<string>
    var flights: map<nat, Flight>
    var nextFlight: nat

    function Now(): Model
      reads this
    {
      Model(state, listVersion, detailVersion, sessionVersion, rejected, disposed, session, flights, nextFlight)
    }

    constructor (session: Option<string>)
      ensures Now() == Created(session)
    {
      this.session := session;
      state := START.(status := if SignedIn(session) then PositionRequired else Refused(LoginRequired));
      listVersion, detailVersion, sessionVersion, rejected, disposed := 0, 0, 0, None, false;
      flights, nextFlight := map[], 0;
    }

    method ClearDetail()
      modifies this
      ensures Now() == MaterialsModel.ClearDetail(old(Now()))
    {
      detailVersion := detailVersion + 1;
      state := state.(detailId := None, detail := None, detailStatus := Idle, detailError := NoMessage, detailReason := "");
    }

    method CloseDetail()
      modifies this
      ensures Now() == MaterialsModel.CloseDetail(old(Now()))
    {
      if disposed {
        return;
      }
      ClearDetail();
    }

    method ClearData(clearScope: bool)
      modifies this
      ensures Now() == MaterialsModel.ClearData(old(Now()), clearScope)
    {
      listVersion := listVersion + 1;
      ClearDetail();
      state := state.(items := [], cursor := "", loadingMore := false, capability := None, reason := "");
      state := state.(error := None, pageError := None, notice := false);
      if clearScope {
        state := state.(scope := None);
      }
    }

    method RequireLogin()
      modifies this
      ensures Now() == MaterialsModel.RequireLogin(old(Now()))
    {
      rejected := session;
      ClearData(true);
      state := state.(status := Refused(LoginRequired));
    }

    method CanRead() returns (ok: bool)
      modifies this
      ensures ok <==> Readable(old(Now()))
      ensures Now() == if ok then old(Now()) else Unreadable(old(Now()))
    {
      if disposed {
        return false;
      }
      if !SignedIn(session) || session == rejected {
        RequireLogin();
        return false;
      }
      if !Supported(state.platform, state.kind) {
        state := state.(status := Refused(Unavailable));
        return false;
      }
      if state.scope.None? || state.scope.value.positionId == "" || state.scope.value.scene == "" {
        state := state.(status := PositionRequired);
        return false;
      }
      return true;
    }

    method DenyCatalog(cap: Capability)
      modifies this
      ensures Now() == MaterialsModel.DenyCatalog(old(Now()), cap)
    {
      ClearData(false);
      state := state.(capability := Some(cap), reason := cap.reason, status := Blocked);
    }

    method Send(f: Flight)
      modifies this`flights, this`nextFlight
      ensures Now() == Launch(old(Now()), f)
    {
      flights := flights[nextFlight := f];
      nextFlight := nextFlight + 1;
    }

    // load, up to the await.
    method Load(reset: bool)
      modifies this
      ensures Now() == MaterialsModel.Load(old(Now()), reset)
    {
      hide Supported, HasPlace, MayAsk;
      var readable := CanRead();
      if !readable {
        return;
      }
      if !reset && (state.loadingMore || state.cursor == "" || state.status != Ready) {
        return;
      }
      ReadableHasScope(Now());
      var scope := state.scope.value;
      var cursor := if reset then "" else state.cursor;
      var auth := sessionVersion;
      if reset {
        ClearData(false);
        state := state.(status := Loading);
      } else {
        state := state.(loadingMore := true);
      }
      state := state.(pageError := None);
      listVersion := listVersion + 1;
      Send(ListFlight(reset, scope, cursor, listVersion, auth, OrEmpty(session)));
    }

    method FailList(f: Flight, failure: Kind)
      requires f.ListFlight?
      modifies this
      ensures Now() == ListFailed(old(Now()), f, failure)
    {
      if f.auth == sessionVersion && failure == LoginRequired {
        RequireLogin();
      } else if f.version == listVersion {
        if f.reset {
          state := state.(status := Refused(failure), error := Some(failure));
        } else {
          state := state.(pageError := Some(failure));
        }
      }
      if f.version == listVersion {
        state := state.(loadingMore := false);
      }
    }

    // load, from the await on.
    method ListReply(f: Flight, r: Reply)
      requires f.ListFlight? && !r.Got?
      modifies this
      ensures Now() == ListReplied(old(Now()), f, r)
    {
      hide Overlap, MaterialsModel.DenyCatalog, ListFailed;
      if r.Error? {
        FailList(f, r.kind);
        return;
      }
      if f.version != listVersion {
        return;
      }
      if r.pageCapability.allowed
         && !f.reset && (Overlap(r.items, state.items) || (r.nextCursor != "" && r.nextCursor == f.cursor)) {
        FailList(f, Failed);
        return;
      }
      if !r.pageCapability.allowed {
        DenyCatalog(r.pageCapability);
      } else {
        state := state.(items := if f.reset then r.items else state.items + r.items);
        state := state.(cursor := r.nextCursor, capability := Some(r.pageCapability), reason := "");
        state := state.(status := if state.items != [] then Ready else Empty);
      }
      if f.version == listVersion {
        state := state.(loadingMore := false);
      }
    }

    method SelectPlatform(platform: string)
      modifies this
      ensures Now() == MaterialsModel.SelectPlatform(old(Now()), platform)
    {
      if disposed || platform == state.platform {
        return;
      }
      ClearData(true);
      state := state.(platform := platform, kind := if platform == "MEITUAN" then "ACTIVITY" else "PRODUCT");
      state := state.(status := WaitingStatus(Now()));
    }

    method SelectType(kind: string)
      modifies this
      ensures Now() == MaterialsModel.SelectType(old(Now()), kind)
    {
      if disposed || kind == state.kind {
        return;
      }
      ClearData(true);
      state := state.(kind := kind);
      state := state.(status := WaitingStatus(Now()));
    }

    method SetScope(input: Option<Scope>)
      modifies this
      ensures Now() == MaterialsModel.SetScope(old(Now()), input)
    {
      hide MaterialsModel.Load;
      if disposed {
        return;
      }
      if input.None? {
        ClearData(true);
        state := state.(status := WaitingStatus(Now()));
        return;
      }
      if input.value.platform != state.platform || input.value.kind != state.kind {
        ClearData(true);
        state := state.(status := Refused(Failed), error := Some(Failed));
        return;
      }
      if state.scope == input {
        return;
      }
      ClearData(true);
      state := state.(scope := input);
      state := state.(status := WaitingStatus(Now()));
      Load(true);
    }

    // openDetail, up to the await.
    method OpenDetail(id: nat)
      modifies this
      ensures Now() == MaterialsModel.OpenDetail(old(Now()), id)
    {
      hide HasId, Supported, MayAsk, HasPlace, Unreadable;
      var readable := CanRead();
      if !readable {
        return;
      }
      if state.status != Ready || !HasId(state.items, id) {
        return;
      }
      ReadableHasScope(Now());
      detailVersion := detailVersion + 1;
      state := state.(detailId := Some(id), detail := None, detailStatus := Loading, detailError := NoMessage,
        detailReason := "");
      Send(DetailFlight(id, state.scope.value, detailVersion, sessionVersion, OrEmpty(session)));
    }

    // openDetail, from the await on.
    method DetailReply(f: Flight, r: Reply)
      requires f.DetailFlight? && !r.Page?
      modifies this
      ensures Now() == DetailReplied(old(Now()), f, r)
    {
      hide Without, Replaced;
      if r.Error? {
        if f.auth == sessionVersion && r.kind == LoginRequired {
          RequireLogin();
        } else if f.version == detailVersion {
          state := state.(detailStatus := Refused(r.kind), detailError := Of(r.kind));
        }
        return;
      }
      var d := r.detail;
      if f.version != detailVersion {
        return;
      }
      if !d.capability.allowed {
        DenyCatalog(d.capability);
        return;
      }
      listVersion := listVersion + 1;
      state := state.(loadingMore := false, cursor := "", pageError := None, notice := true,
        capability := Some(d.capability));
      if !d.available || d.item.None? {
        state := state.(items := Without(state.items, f.id));
        state := state.(detailStatus := NotFound, detailReason := d.reason, detailError := GoneMessage);
      } else {
        state := state.(items := Replaced(state.items, d.item.value), detail := Some(d), detailStatus := Ready);
      }
      state := state.(status := if state.items != [] then Ready else Empty);
    }

    method ChangeSession(next: Option<string>)
      modifies this
      ensures Now() == SessionChanged(old(Now()), next)
    {
      if next == session {
        return;
      }
      session := next;
      if disposed {
        return;
      }
      sessionVersion := sessionVersion + 1;
      rejected := None;
      ClearData(true);
      state := state.(status := WaitingStatus(Now()));
    }

    method Dispose()
      modifies this
      ensures Now() == MaterialsModel.Dispose(old(Now()))
    {
      if disposed {
        return;
      }
      disposed := true;
      sessionVersion := sessionVersion + 1;
      ClearData(true);
      rejected := None;
      state := state.(status := Idle);
    }

    // A reply arrives.
    method Resume(key: nat, r: Reply)
      requires key in flights && Fits(flights[key], r)
      modifies this
      ensures Now() == Land(old(Now()), key, r)
    {
      hide ListReplied, DetailReplied;
      var f := flights[key];
      flights := flights - {key};
      if f.ListFlight? {
        ListReply(f, r);
      } else {
        DetailReply(f, r);
      }
    }
  }
}
