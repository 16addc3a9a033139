/** The control page, static/protected/index.js: `apiFetch`, which retries once after
    refreshing the login, and `refresh`, which reconciles the page's `state` Map of
    `LiveClient` rows with the `uid -> [active, content]` object of `/api/state`. The
    network answers are parameters. */
module ControlPage {
  import opened Common
  import opened LiveClient

  // ---------------------------------------------------------------------------
  // apiFetch

  /** An HTTP response, by its status. */
  datatype Response = Response(status: int)

  predicate Ok(r: Response) {
    200 <= r.status < 300
  }

  /** What `apiFetch` settles with: a response, or the Error `refreshAuth` throws. */
  datatype Fetched = Answer(response: Response) | AuthFailed

  /** `apiFetch`: `first` and `second` are what the two fetches of the resource would
      answer, `refreshOk` whether the token refresh succeeds. Returns the outcome and
      how many times the resource was fetched. */
  method ApiFetch(first: Response, second: Response, refreshOk: bool) returns (r: Fetched, fetches: nat)
    ensures 1 <= fetches <= 2
    ensures fetches == 2 <==> first.status == 401 && refreshOk
    ensures first.status != 401 ==> r == Answer(first)
    ensures first.status == 401 && !refreshOk ==> r == AuthFailed
    ensures first.status == 401 && refreshOk ==> r == Answer(second)
  {
    var response := first;
    fetches := 1;
    if !Ok(response) && response.status == 401 {
      if !refreshOk {
        return AuthFailed, fetches;
      }
      response := second;
      fetches := fetches + 1;
    }
    r := Answer(response);
  }

  // ---------------------------------------------------------------------------
  // refresh

  /** The rows `refresh` should leave, given the rows before and the update: a
      surviving uid's row gets `set(active, content)`, a new uid a new row. */
  function Reconciled(rows: map<Uid, Row>, update: map<Uid, (bool, string)>): (r: map<Uid, Row>)
    ensures r.Keys == update.Keys
    ensures forall u :: u in r && u in rows ==> r[u] == SetRow(rows[u], update[u].0, update[u].1)
    ensures forall u :: u in r && u !in rows ==> r[u] == NewRow(u, update[u].0, update[u].1)
  {
    map u | u in update :: if u in rows then SetRow(rows[u], update[u].0, update[u].1) else NewRow(u, update[u].0, update[u].1)
  }

  /** Reconciling with the rows' own values changes no surviving row, and an empty
      update leaves no row. */
  lemma ReconcileWithCurrentValues(rows: map<Uid, Row>)
    ensures Reconciled(rows, map u | u in rows :: (rows[u].active, rows[u].content)) == rows
    ensures Reconciled(rows, map[]) == map[]
  {
    var update := map u | u in rows :: (rows[u].active, rows[u].content);
    forall u | u in rows ensures Reconciled(rows, update)[u] == rows[u] {
      SetUnchanged(rows[u]);
    }
  }

  /** After reconciling, each row shows the flag and the content the update gave it. */
  lemma ReconciledRowsShowUpdate(rows: map<Uid, Row>, update: map<Uid, (bool, string)>)
    ensures var r := Reconciled(rows, update);
      forall u :: u in r ==> r[u].active == update[u].0 && r[u].content == update[u].1 && r[u].uid == (if u in rows then rows[u].uid else u)
  {
  }

  /** Only the rows of uids in the update matter to the reconciliation. */
  lemma ReconcileSeesOnlyUpdatedUids(rows: map<Uid, Row>, kept: map<Uid, Row>, update: map<Uid, (bool, string)>)
    requires forall u :: u in update ==> (u in rows <==> u in kept)
    requires forall u :: u in update && u in rows ==> rows[u] == kept[u]
    ensures Reconciled(rows, update) == Reconciled(kept, update)
  {
  }

  class ControlPage {
    /** The `state` Map: uid to its row object. */
    var state: map<Uid, LiveClient>
    const api: Api

    /** Distinct uids have distinct row objects, each filed under its own uid. */
    ghost predicate Valid()
      reads this
    {
      && (forall u, v :: u in state && v in state && u != v ==> state[u] != state[v])
      && (forall u :: u in state ==> state[u].uid == u)
    }

    /** The rows as values. */
    ghost function Rows(): map<Uid, Row>
      reads this, state.Values
    {
      map u | u in state :: state[u].Model()
    }

    constructor (api: Api)
      ensures state == map[] && this.api == api && Valid()
    {
      state := map[];
      this.api := api;
    }

    /** Partway through the first loop of `refresh`: the rows of the uids in `done`
        have been disconnected and deleted; every other row is as it was. */
    ghost predicate Dropping(before: map<Uid, LiveClient>, rows0: map<Uid, Row>, done: set<Uid>)
      reads this, before.Values
    {
      && before.Keys == rows0.Keys
      && Valid()
      && (forall u, v :: u in before && v in before && u != v ==> before[u] != before[v])
      && (forall u :: u in state <==> u in before && u !in done)
      && (forall u :: u in state ==> state[u] == before[u])
      && (forall u :: u in before ==> before[u].Model() == if u in done then Removed(rows0[u]) else rows0[u])
    }

    /** One turn of the first loop: the row is disconnected and its uid deleted. */
    method DropOne(u: Uid, ghost before: map<Uid, LiveClient>, ghost rows0: map<Uid, Row>, ghost done: set<Uid>)
      requires Dropping(before, rows0, done) && u in state
      modifies this, state[u]
      ensures Dropping(before, rows0, done + {u})
    {
      ghost var row := state[u];
      state[u].Disconnect();
      state := state - {u};
      forall w | w in before
        ensures before[w].Model() == if w in done + {u} then Removed(rows0[w]) else rows0[w]
      {
        if w != u {
          assert before[w] != row;
        }
      }
    }

    /** Taking one uid off the stale set adds it to the visited ones. */
    static lemma Visit(all: set<Uid>, stale: set<Uid>, u: Uid)
      requires stale <= all && u in stale
      ensures (all - stale) + {u} == all - (stale - {u})
    {
    }

    /** Once every stale uid is visited, exactly the updated uids remain. */
    lemma DroppedAll(before: map<Uid, LiveClient>, rows0: map<Uid, Row>, all: set<Uid>, update: map<Uid, (bool, string)>)
      requires Dropping(before, rows0, all)
      requires forall u :: u in all <==> u in before && u !in update
      ensures state.Keys == before.Keys * update.Keys
    {
    }

    /** The first loop of `refresh`: every row whose uid is missing from the update is
        disconnected once and deleted from `state`; the other rows are untouched. */
    method DropStale(update: map<Uid, (bool, string)>)
      requires Valid()
      modifies this, state.Values
      ensures Valid()
      ensures state.Keys == old(state).Keys * update.Keys
      ensures forall u :: u in state ==> state[u] == old(state)[u] && state[u].Model() == old(state[u].Model())
      ensures forall u :: u in old(state) && u !in update ==> old(state)[u].Model() == Removed(old(state[u].Model()))
    {
      var stale := set u | u in state && u !in update;
      ghost var before := state;
      ghost var rows0 := Rows();
      ghost var all := stale;
      while stale != {}
        invariant stale <= all
        invariant Dropping(before, rows0, all - stale)
        decreases stale
      {
        var u :| u in stale;
        DropOne(u, before, rows0, all - stale);
        Visit(all, stale, u);
        stale := stale - {u};
      }
      DroppedAll(before, rows0, all, update);
    }

    /** Partway through the second loop of `refresh`: the uids in `done` have their
        rows of `target`, every other row is as it was. */
    ghost predicate Applying(before: map<Uid, LiveClient>, rows0: map<Uid, Row>,
                             target: map<Uid, Row>, done: set<Uid>)
      reads this, state.Values
    {
      && before.Keys == rows0.Keys && before.Keys <= target.Keys && done <= target.Keys
      && Valid()
      && (forall u :: u in state <==> u in before || u in done)
      && (forall u :: u in before ==> state[u] == before[u])
      && (forall u :: u in state ==> state[u].Model() == if u in done then target[u] else rows0[u])
    }

    /** A turn of the second loop for a known uid: `set` on its row. */
    method SetOne(u: Uid, ghost before: map<Uid, LiveClient>, ghost rows0: map<Uid, Row>,
                  ghost target: map<Uid, Row>, a: bool, c: string, ghost done: set<Uid>)
      requires Applying(before, rows0, target, done) && u in before && u !in done
      requires u in target && target[u] == SetRow(rows0[u], a, c)
      modifies state[u]
      ensures Applying(before, rows0, target, done + {u})
    {
      ghost var row := state[u];
      state[u].Set(a, c);
      forall w | w in state
        ensures state[w].Model() == if w in done + {u} then target[w] else rows0[w]
      {
        if w != u {
          assert state[w] != row;
        }
      }
    }

    /** A turn of the second loop: a known uid's row is `set`, an unknown uid gets a
        new row. */
    method ApplyOne(u: Uid, ghost before: map<Uid, LiveClient>, ghost rows0: map<Uid, Row>,
                    update: map<Uid, (bool, string)>, ghost target: map<Uid, Row>, ghost done: set<Uid>)
      requires target == Reconciled(rows0, update)
      requires Applying(before, rows0, target, done) && u !in done && u in update
      modifies this, before.Values
      ensures Applying(before, rows0, target, done + {u})
    {
      var (a, c) := update[u];
      PlaceOne(u, before, rows0, target, a, c, done);
    }

    /** The turn, given the row the uid should end with. */
    method PlaceOne(u: Uid, ghost before: map<Uid, LiveClient>, ghost rows0: map<Uid, Row>,
                    ghost target: map<Uid, Row>, a: bool, c: string, ghost done: set<Uid>)
      requires Applying(before, rows0, target, done) && u !in done && u in target
      requires target[u] == if u in rows0 then SetRow(rows0[u], a, c) else NewRow(u, a, c)
      modifies this, before.Values
      ensures Applying(before, rows0, target, done + {u})
    {
      if u in state {
        SetOne(u, before, rows0, target, a, c, done);
      } else {
        var client := new LiveClient(api, u, a, c);
        state := state[u := client];
      }
    }

    /** Once every uid of the target is done, the rows are the target. */
    lemma AppliedAll(before: map<Uid, LiveClient>, rows0: map<Uid, Row>, target: map<Uid, Row>, done: set<Uid>)
      requires Applying(before, rows0, target, done) && forall u :: u in target ==> u in done
      ensures state.Keys == target.Keys && Rows() == target
    {
      assert forall u :: u in state <==> u in target;
    }

    /** The uids visited so far are exactly the first `i` keys, none of them later. */
    static lemma KeysVisited(keys: seq<Uid>, i: nat, done: set<Uid>)
      requires NoDup(keys) && i < |keys|
      requires forall j :: 0 <= j < i ==> keys[j] in done
      requires forall u, j :: u in done && i <= j < |keys| ==> keys[j] != u
      ensures keys[i] !in done
      ensures forall j :: 0 <= j < i + 1 ==> keys[j] in done + {keys[i]}
      ensures forall u, j :: u in done + {keys[i]} && i + 1 <= j < |keys| ==> keys[j] != u
    {
    }

    /** The second loop of `refresh`, over the update in its key order. */
    method Apply(update: map<Uid, (bool, string)>, keys: seq<Uid>)
      requires Valid() && state.Keys <= update.Keys
      requires NoDup(keys) && Elems(keys) == update.Keys
      modifies this, state.Values
      ensures Valid()
      ensures state.Keys == update.Keys
      ensures forall u :: u in old(state) ==> state[u] == old(state)[u]
      ensures Rows() == Reconciled(old(Rows()), update)
    {
      ghost var before := state;
      ghost var rows0 := Rows();
      ghost var target := Reconciled(rows0, update);
      ghost var done: set<Uid> := {};
      for i := 0 to |keys|
        invariant forall j :: 0 <= j < i ==> keys[j] in done
        invariant forall u, j :: u in done && i <= j < |keys| ==> keys[j] != u
        invariant Applying(before, rows0, target, done)
      {
        var u := keys[i];
        KeysVisited(keys, i, done);
        ApplyOne(u, before, rows0, update, target, done);
        done := done + {u};
      }
      AppliedAll(before, rows0, target, done);
    }

    /** `refresh`, once `/api/state` has answered `update` (in key order `keys`). */
    method Refresh(update: map<Uid, (bool, string)>, keys: seq<Uid>)
      requires Valid()
      requires NoDup(keys) && Elems(keys) == update.Keys
      modifies this, state.Values
      ensures Valid()
      ensures state.Keys == update.Keys
      ensures forall u :: u in old(state) && u in update ==> state[u] == old(state)[u]
      ensures Rows() == Reconciled(old(Rows()), update)
      ensures forall u :: u in old(state) && u !in update ==> old(state)[u].Model() == Removed(old(state[u].Model()))
    {
      ghost var rows0 := Rows();
      DropStale(update);
      ReconcileSeesOnlyUpdatedUids(rows0, Rows(), update);
      if |keys| == 0 {
        return;
      }
      Apply(update, keys);
    }
  }
}
