// The view model of a promoter's orders in its own imperative form.
module OrdersViewModel {
  import opened Wrappers
  import opened OrdersModel

  class Orders {
    var state: View
    var listVersion: nat
    var detailVersion: nat
    var sessionVersion: nat
    var rejected: Option<string>
    var disposed: bool
    var session: Option<string>
    var flights: map<nat, Flight>
    var nextFlight: nat

    function Now(): Model
      reads this
    {
      Model(state, listVersion, detailVersion, sessionVersion, rejected, disposed, session, flights, nextFlight)
    }

    constructor (session: Option<string>)
      ensures Now() == Created(session)
    {
      this.session := session;
      state := START.(status := if SignedIn(session) then Idle else Refused(LoginRequired));
      listVersion, detailVersion, sessionVersion, rejected, disposed := 0, 0, 0, None, false;
      flights, nextFlight := map[], 0;
    }

    method CloseDetail()
      modifies this
      ensures Now() == OrdersModel.CloseDetail(old(Now()))
    {
      detailVersion := detailVersion + 1;
      state := state.(detailId := None, detail := None, detailStatus := Idle, detailError := None);
    }

    method ClearAll()
      modifies this
      ensures Now() == OrdersModel.ClearAll(old(Now()))
    {
      listVersion := listVersion + 1;
      CloseDetail();
      state := state.(items := [], filter := NO_FILTER, cursor := "", loadingMore := false, error := None, pageError := None);
    }

    method RequireLogin()
      modifies this
      ensures Now() == OrdersModel.RequireLogin(old(Now()))
    {
      rejected := session;
      ClearAll();
      state := state.(status := Refused(LoginRequired));
    }

    method CanRead() returns (ok: bool)
      modifies this
      ensures ok <==> Readable(old(Now()))
      ensures Now() == if ok then old(Now()) else Unreadable(old(Now()))
    {
      if disposed {
        return false;
      }
      if !SignedIn(session) || session == rejected {
        RequireLogin();
        return false;
      }
      return true;
    }

    method Send(f: Flight)
      modifies this`flights, this`nextFlight
      ensures Now() == Launch(old(Now()), f)
    {
      flights := flights[nextFlight := f];
      nextFlight := nextFlight + 1;
    }

    method Load(reset: bool)
      modifies this
      ensures Now() == OrdersModel.Load(old(Now()), reset)
    {
      hide Unreadable;
      var readable := CanRead();
      if !readable {
        return;
      }
      if !reset && (state.loadingMore || state.cursor == "" || (state.status != Ready && state.status != Empty)) {
        return;
      }
      listVersion := listVersion + 1;
      var version, auth, filter, cursor := listVersion, sessionVersion, state.filter, if reset then "" else state.cursor;
      if reset {
        CloseDetail();
        state := state.(items := [], cursor := "", error := None, status := Loading, loadingMore := false);
      } else {
        state := state.(loadingMore := true);
      }
      state := state.(pageError := None);
      Send(ListFlight(reset, filter, cursor, version, auth, Token(Now())));
    }

    method FailList(f: Flight, failure: Kind)
      requires f.ListFlight?
      modifies this
      ensures Now() == ListFailed(old(Now()), f, failure)
    {
      if f.auth == sessionVersion && failure == LoginRequired {
        RequireLogin();
      } else if f.version == listVersion {
        if f.reset {
          state := state.(status := Refused(failure), error := Some(failure));
        } else {
          state := state.(pageError := Some(failure));
        }
      }
      if f.version == listVersion {
        state := state.(loadingMore := false);
      }
    }

    method ListReply(f: Flight, r: Reply)
      requires f.ListFlight? && !r.Got?
      modifies this
      ensures Now() == ListReplied(old(Now()), f, r)
    {
      hide Overlap, ListFailed;
      if r.Error? {
        FailList(f, r.kind);
        return;
      }
      if f.version != listVersion {
        return;
      }
      if !f.reset && (Overlap(r.items, state.items) || (r.nextCursor != "" && r.nextCursor == f.cursor)) {
        FailList(f, Failed);
        return;
      }
      state := state.(items := if f.reset then r.items else state.items + r.items);
      state := state.(cursor := r.nextCursor, status := if state.items != [] then Ready else Empty);
      if f.version == listVersion {
        state := state.(loadingMore := false);
      }
    }

    method SetFilter(filter: Filter)
      modifies this
      ensures Now() == OrdersModel.SetFilter(old(Now()), filter)
    {
      hide OrdersModel.Load;
      if disposed {
        return;
      }
      if state.status != Idle && filter == state.filter {
        return;
      }
      state := state.(filter := filter);
      Load(true);
    }

    method OpenDetail(id: string)
      modifies this
      ensures Now() == OrdersModel.OpenDetail(old(Now()), id)
    {
      hide HasId, Unreadable;
      var readable := CanRead();
      if !readable {
        return;
      }
      if state.status != Ready || !HasId(state.items, id) {
        return;
      }
      detailVersion := detailVersion + 1;
      state := state.(detailId := Some(id), detail := None, detailStatus := Loading, detailError := None);
      Send(DetailFlight(id, detailVersion, sessionVersion, Token(Now())));
    }

    method DetailReply(f: Flight, r: Reply)
      requires f.DetailFlight? && !r.Page?
      modifies this
      ensures Now() == DetailReplied(old(Now()), f, r)
    {
      hide Without, Replaced, Matches;
      if r.Error? {
        if f.auth == sessionVersion && r.kind == LoginRequired {
          RequireLogin();
        } else if f.version == detailVersion {
          state := state.(detailStatus := Refused(r.kind), detailError := Some(r.kind));
          if r.kind == MissingOrder {
            listVersion := listVersion + 1;
            state := state.(loadingMore := false, items := Without(state.items, f.id));
            if state.items == [] {
              state := state.(status := Empty);
            }
          }
        }
        return;
      }
      if f.version != detailVersion {
        return;
      }
      state := state.(detail := Some(r.detail), detailStatus := Ready);
      listVersion := listVersion + 1;
      state := state.(loadingMore := false);
      var summary := r.detail.summary;
      state := state.(items := if Matches(summary, state.filter) then Replaced(state.items, summary)
        else Without(state.items, f.id));
      if state.items == [] {
        state := state.(status := Empty);
      }
    }

    method ChangeSession(next: Option<string>)
      modifies this
      ensures Now() == SessionChanged(old(Now()), next)
    {
      hide OrdersModel.Load;
      if next == session {
        return;
      }
      session := next;
      if disposed {
        return;
      }
      sessionVersion := sessionVersion + 1;
      rejected := None;
      ClearAll();
      state := state.(status := if SignedIn(session) then Idle else Refused(LoginRequired));
      if SignedIn(session) {
        Load(true);
      }
    }

    method Dispose()
      modifies this
      ensures Now() == OrdersModel.Dispose(old(Now()))
    {
      if disposed {
        return;
      }
      disposed := true;
      sessionVersion := sessionVersion + 1;
      ClearAll();
      rejected := None;
      state := state.(status := Idle);
    }

    method Resume(key: nat, r: Reply)
      requires key in flights && Fits(flights[key], r)
      modifies this
      ensures Now() == Land(old(Now()), key, r)
    {
      hide ListReplied, DetailReplied;
      var f := flights[key];
      flights := flights - {key};
      if f.ListFlight? {
        ListReply(f, r);
      } else {
        DetailReply(f, r);
      }
    }
  }
}
