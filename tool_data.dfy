/** The per-tool sync hook (`useToolData`): it loads one user's payload for
    one named tool from a keyed table, saves it back by upsert, applies
    realtime row updates for its own tool, and drives the `isLoading`,
    `isSaving` and `saveStatus` flags.  The hosted table is modelled as a
    sequence of rows whose (user, tool) key is unique, as the backend's
    conflict key keeps it, together with a log of the requests it received. */
module ToolData {
  import opened Common

  type UserId = string
  type ToolName = string
  type Key = (UserId, ToolName)

  /** One row of `user_tool_data` (the `updated_at` stamp is not modelled). */
  datatype Row<P> = Row(userId: UserId, toolName: ToolName, data: P)

  datatype Request<P> = Select(key: Key) | Upsert(row: Row<P>)

  datatype QueryResult<P> = QueryFailed | QueryRows(payloads: seq<P>)

  datatype SaveStatus = Idle | Success | Error

  /** User-visible notifications raised by the hook. */
  datatype Toast = LoadFailed(tool: ToolName) | MustLogIn | Saved | SaveFailed

  function KeyOf<P>(r: Row<P>): Key
  {
    (r.userId, r.toolName)
  }

  /** The backend's uniqueness constraint on (user_id, tool_name). */
  ghost predicate UniqueKeys<P>(rows: seq<Row<P>>)
  {
    forall i, j :: 0 <= i < j < |rows| ==> KeyOf(rows[i]) != KeyOf(rows[j])
  }

  /** Payloads of the rows with the given key, in table order. */
  function Matching<P>(rows: seq<Row<P>>, key: Key): seq<P>
  {
    if rows == [] then []
    else (if KeyOf(rows[0]) == key then [rows[0].data] else []) + Matching(rows[1..], key)
  }

  /** `select data ... where user_id = u and tool_name = t limit 1`. */
  function SelectOne<P>(rows: seq<Row<P>>, key: Key): seq<P>
  {
    var m := Matching(rows, key);
    if |m| <= 1 then m else m[..1]
  }

  /** Upsert with `onConflict: 'user_id, tool_name'`: the row holding the
      key is replaced wholesale; without one the row is appended. */
  function UpsertRow<P>(rows: seq<Row<P>>, row: Row<P>): seq<Row<P>>
  {
    if rows == [] then [row]
    else if KeyOf(rows[0]) == KeyOf(row) then [row] + rows[1..]
    else [rows[0]] + UpsertRow(rows[1..], row)
  }

  /** What `fetchUserData` sets `data` to once the query has answered:
      the first row's payload, else the caller's default (also on error). */
  function LoadedPayload<P>(initial: P, result: QueryResult<P>): P
  {
    match result
    case QueryFailed => initial
    case QueryRows(ps) => if |ps| > 0 then ps[0] else initial
  }

  lemma {:induction false} MatchingAbsent<P>(rows: seq<Row<P>>, key: Key)
    requires forall i :: 0 <= i < |rows| ==> KeyOf(rows[i]) != key
    ensures Matching(rows, key) == []
  {
    if rows != [] {
      MatchingAbsent(rows[1..], key);
    }
  }

  /** Under the uniqueness constraint a key matches at most one row, so
      `limit(1)` never drops a payload. */
  lemma {:induction false} MatchingAtMostOne<P>(rows: seq<Row<P>>, key: Key)
    requires UniqueKeys(rows)
    ensures |Matching(rows, key)| <= 1
    ensures SelectOne(rows, key) == Matching(rows, key)
  {
    if rows != [] {
      assert UniqueKeys(rows[1..]) by {
        forall i, j | 0 <= i < j < |rows[1..]|
          ensures KeyOf(rows[1..][i]) != KeyOf(rows[1..][j])
        {
          assert rows[1..][i] == rows[i + 1] && rows[1..][j] == rows[j + 1];
        }
      }
      MatchingAtMostOne(rows[1..], key);
      if KeyOf(rows[0]) == key {
        forall i | 0 <= i < |rows[1..]| ensures KeyOf(rows[1..][i]) != key {
          assert rows[1..][i] == rows[i + 1];
        }
        MatchingAbsent(rows[1..], key);
      }
    }
  }

  /** Each key of the upserted table is a key of the old table or the new row's. */
  lemma {:induction false} UpsertKeys<P>(rows: seq<Row<P>>, row: Row<P>, i: int)
    requires 0 <= i < |UpsertRow(rows, row)|
    ensures KeyOf(UpsertRow(rows, row)[i]) == KeyOf(row)
         || exists j :: 0 <= j < |rows| && KeyOf(rows[j]) == KeyOf(UpsertRow(rows, row)[i])
    decreases rows
  {
    if rows != [] && KeyOf(rows[0]) != KeyOf(row) && i > 0 {
      UpsertKeys(rows[1..], row, i - 1);
      var r := UpsertRow(rows, row)[i];
      assert r == UpsertRow(rows[1..], row)[i - 1];
      if KeyOf(r) != KeyOf(row) {
        var j :| 0 <= j < |rows[1..]| && KeyOf(rows[1..][j]) == KeyOf(r);
        assert rows[j + 1] == rows[1..][j];
      }
    } else if rows != [] && i > 0 {
      assert UpsertRow(rows, row)[i] == rows[i];
    }
  }

  /** Upserting keeps the key constraint. */
  lemma {:induction false} UpsertKeepsUnique<P>(rows: seq<Row<P>>, row: Row<P>)
    requires UniqueKeys(rows)
    ensures UniqueKeys(UpsertRow(rows, row))
  {
    if rows != [] {
      var tail := rows[1..];
      assert UniqueKeys(tail) by {
        forall i, j | 0 <= i < j < |tail| ensures KeyOf(tail[i]) != KeyOf(tail[j]) {
          assert tail[i] == rows[i + 1] && tail[j] == rows[j + 1];
        }
      }
      if KeyOf(rows[0]) != KeyOf(row) {
        UpsertKeepsUnique(tail, row);
        var u := UpsertRow(rows, row);
        forall i, j | 0 <= i < j < |u| ensures KeyOf(u[i]) != KeyOf(u[j]) {
          if i == 0 {
            UpsertKeys(tail, row, j - 1);
            assert u[j] == UpsertRow(tail, row)[j - 1];
            if KeyOf(u[j]) != KeyOf(row) {
              var k :| 0 <= k < |tail| && KeyOf(tail[k]) == KeyOf(u[j]);
              assert tail[k] == rows[k + 1];
            }
          } else {
            assert u[i] == UpsertRow(tail, row)[i - 1] && u[j] == UpsertRow(tail, row)[j - 1];
          }
        }
      } else {
        var u := UpsertRow(rows, row);
        forall i, j | 0 <= i < j < |u| ensures KeyOf(u[i]) != KeyOf(u[j]) {
          assert u[j] == rows[j];
          if i > 0 { assert u[i] == rows[i]; }
        }
      }
    }
  }

  /** Round trip: after upserting payload `p` under (u, t), the point query
      returns exactly `[p]`. */
  lemma {:induction false} SelectAfterUpsert<P>(rows: seq<Row<P>>, u: UserId, t: ToolName, p: P)
    requires UniqueKeys(rows)
    ensures SelectOne(UpsertRow(rows, Row(u, t, p)), (u, t)) == [p]
  {
    UpsertKeepsUnique(rows, Row(u, t, p));
    MatchingAtMostOne(UpsertRow(rows, Row(u, t, p)), (u, t));
    MatchingOfUpsert(rows, u, t, p);
  }

  lemma {:induction false} MatchingOfUpsert<P>(rows: seq<Row<P>>, u: UserId, t: ToolName, p: P)
    requires UniqueKeys(rows)
    ensures Matching(UpsertRow(rows, Row(u, t, p)), (u, t)) == [p]
  {
    if rows == [] {
    } else {
      var tail := rows[1..];
      assert UniqueKeys(tail) by {
        forall i, j | 0 <= i < j < |tail| ensures KeyOf(tail[i]) != KeyOf(tail[j]) {
          assert tail[i] == rows[i + 1] && tail[j] == rows[j + 1];
        }
      }
      if KeyOf(rows[0]) == (u, t) {
        forall i | 0 <= i < |tail| ensures KeyOf(tail[i]) != (u, t) {
          assert tail[i] == rows[i + 1];
        }
        MatchingAbsent(tail, (u, t));
        assert UpsertRow(rows, Row(u, t, p))[1..] == tail;
      } else {
        MatchingOfUpsert(tail, u, t, p);
        assert UpsertRow(rows, Row(u, t, p))[1..] == UpsertRow(tail, Row(u, t, p));
      }
    }
  }

  /** Isolation: an upsert under one key leaves what every other key selects unchanged. */
  lemma {:induction false} UpsertIsolation<P>(rows: seq<Row<P>>, row: Row<P>, key: Key)
    requires key != KeyOf(row)
    ensures Matching(UpsertRow(rows, row), key) == Matching(rows, key)
    ensures SelectOne(UpsertRow(rows, row), key) == SelectOne(rows, key)
  {
    if rows == [] {
    } else if KeyOf(rows[0]) == KeyOf(row) {
      assert UpsertRow(rows, row)[1..] == rows[1..];
    } else {
      UpsertIsolation(rows[1..], row, key);
      assert UpsertRow(rows, row)[1..] == UpsertRow(rows[1..], row);
    }
  }

  /** Overwrite: upserting p1 then p2 under one key gives the same table as
      upserting p2 alone; nothing of p1 survives. */
  lemma {:induction false} UpsertOverwrites<P>(rows: seq<Row<P>>, u: UserId, t: ToolName, p1: P, p2: P)
    ensures UpsertRow(UpsertRow(rows, Row(u, t, p1)), Row(u, t, p2)) == UpsertRow(rows, Row(u, t, p2))
  {
    if rows != [] && KeyOf(rows[0]) != (u, t) {
      UpsertOverwrites(rows[1..], u, t, p1, p2);
    }
  }

  /** First use: with no row for the key, loading yields the default payload. */
  lemma DefaultWhenAbsent<P>(rows: seq<Row<P>>, key: Key, initial: P)
    requires forall i :: 0 <= i < |rows| ==> KeyOf(rows[i]) != key
    ensures LoadedPayload(initial, QueryRows(SelectOne(rows, key))) == initial
  {
    MatchingAbsent(rows, key);
  }

  /** The hosted table, with the requests it has received. */
  class ToolStore<P> {
    var rows: seq<Row<P>>
    var log: seq<Request<P>>

    ghost predicate Valid()
      reads this
    {
      UniqueKeys(rows)
    }

    constructor (initialRows: seq<Row<P>>)
      requires UniqueKeys(initialRows)
      ensures Valid() && rows == initialRows && log == []
    {
      rows := initialRows;
      log := [];
    }

    /** Answers a point query; `fails` stands for a network or backend error. */
    method Query(key: Key, fails: bool) returns (result: QueryResult<P>)
      requires Valid()
      modifies this`log
      ensures Valid()
      ensures log == old(log) + [Select(key)]
      ensures result == if fails then QueryFailed else QueryRows(SelectOne(rows, key))
    {
      log := log + [Select(key)];
      if fails {
        result := QueryFailed;
      } else {
        result := QueryRows(SelectOne(rows, key));
      }
    }

    /** Applies an upsert atomically; a failed upsert writes nothing. */
    method Write(row: Row<P>, fails: bool)
      requires Valid()
      modifies this
      ensures Valid()
      ensures log == old(log) + [Upsert(row)]
      ensures rows == if fails then old(rows) else UpsertRow(old(rows), row)
    {
      log := log + [Upsert(row)];
      if !fails {
        UpsertKeepsUnique(rows, row);
        rows := UpsertRow(rows, row);
      }
    }
  }

  /** One mounted instance of the hook, bound to a tool name, a default
      payload, the signed-in user (if any) and whether the page supplied a
      realtime callback.  The two suspension points of the source (the
      query and the upsert) are split into a call and its completion. */
  class ToolDataSync<P> {
    const toolName: ToolName
    const initial: P
    const user: Option<UserId>
    const hasCallback: bool

    var data: P
    var isLoading: bool
    var isSaving: bool
    var saveStatus: SaveStatus
    var toasts: seq<Toast>
    /** A query has been sent and not yet answered. */
    var fetchPending: bool
    /** Payloads of upserts sent and not yet answered, oldest first. */
    var savesInFlight: seq<P>
    /** Armed two-second timers that will set `saveStatus` back to idle. */
    var statusResets: nat
    /** The pre-subscribe timer is armed. */
    var subscribeArmed: bool
    /** The realtime channel is open. */
    var channelOpen: bool

    ghost predicate Valid()
      reads this
    {
      && (isSaving ==> savesInFlight != [])
      && !(subscribeArmed && channelOpen)
      && (user.None? ==> !fetchPending && savesInFlight == [] && !subscribeArmed && !channelOpen)
    }

    function StoreKey(): Key
      requires user.Some?
    {
      (user.value, toolName)
    }

    constructor (toolName: ToolName, initial: P, user: Option<UserId>, hasCallback: bool)
      ensures Valid()
      ensures this.toolName == toolName && this.initial == initial
      ensures this.user == user && this.hasCallback == hasCallback
      ensures data == initial && isLoading && !isSaving && saveStatus == Idle
      ensures toasts == [] && !fetchPending && savesInFlight == [] && statusResets == 0
      ensures !subscribeArmed && !channelOpen
    {
      this.toolName := toolName;
      this.initial := initial;
      this.user := user;
      this.hasCallback := hasCallback;
      data := initial;
      isLoading := true;
      isSaving := false;
      saveStatus := Idle;
      toasts := [];
      fetchPending := false;
      savesInFlight := [];
      statusResets := 0;
      subscribeArmed := false;
      channelOpen := false;
    }

    /** `fetchUserData` up to its `await`: without a user it falls back to
        the default at once and sends nothing; with one it sends the query. */
    method BeginFetch()
      requires Valid()
      modifies this`data, this`isLoading, this`fetchPending
      ensures Valid()
      ensures user.None? ==> data == initial && !isLoading && !fetchPending
      ensures user.Some? ==> data == old(data) && isLoading && fetchPending
    {
      if user.None? {
        data := initial;
        isLoading := false;
      } else {
        isLoading := true;
        fetchPending := true;
      }
    }

    /** The query answers (or fails): `data` becomes the first row's payload,
        or the default when there is none or on error; `isLoading` ends false
        on every path. */
    method CompleteFetch(store: ToolStore<P>, fails: bool)
      requires Valid() && store.Valid()
      requires fetchPending
      modifies this`data, this`isLoading, this`fetchPending, this`toasts, store`log
      ensures Valid() && store.Valid() && store.rows == old(store.rows)
      ensures store.log == old(store.log) + [Select(StoreKey())]
      ensures data == LoadedPayload(initial, if fails then QueryFailed else QueryRows(SelectOne(store.rows, StoreKey())))
      ensures !isLoading && !fetchPending
      ensures toasts == if fails then old(toasts) + [LoadFailed(toolName)] else old(toasts)
    {
      var result := store.Query(StoreKey(), fails);
      match result {
        case QueryFailed =>
          toasts := toasts + [LoadFailed(toolName)];
          data := initial;
        case QueryRows(ps) =>
          if |ps| > 0 {
            data := ps[0];
          } else {
            data := initial;
          }
      }
      isLoading := false;
      fetchPending := false;
    }

    /** The subscribe effect: with a user it arms the pre-subscribe timer. */
    method ArmSubscribe()
      requires Valid() && !subscribeArmed && !channelOpen
      modifies this`subscribeArmed
      ensures Valid()
      ensures subscribeArmed == user.Some?
    {
      subscribeArmed := user.Some?;
    }

    /** The pre-subscribe timer fires and opens the channel. */
    method SubscribeTimerFires()
      requires Valid()
      modifies this`subscribeArmed, this`channelOpen
      ensures Valid()
      ensures channelOpen == (old(subscribeArmed) || old(channelOpen)) && !subscribeArmed
    {
      if subscribeArmed {
        subscribeArmed := false;
        channelOpen := true;
      }
    }

    /** The effect's cleanup: cancels a timer that has not fired and closes
        an open channel; returns how many channels it closed. */
    method Teardown() returns (closed: nat)
      requires Valid()
      modifies this`subscribeArmed, this`channelOpen
      ensures Valid()
      ensures !subscribeArmed && !channelOpen
      ensures closed == if old(channelOpen) then 1 else 0
    {
      subscribeArmed := false;
      closed := 0;
      if channelOpen {
        channelOpen := false;
        closed := 1;
      }
    }

    /** A row UPDATE delivered on the user's channel.  Only a row of this
        hook's tool replaces `data`, wholesale; the callback, when supplied,
        receives the previous and the new payload. */
    method OnRowUpdate(newRow: Option<Row<P>>) returns (callback: Option<(P, P)>)
      requires Valid()
      modifies this`data
      ensures Valid()
      ensures if channelOpen && newRow.Some? && newRow.value.toolName == toolName
              then data == newRow.value.data
                && callback == (if hasCallback then Some((old(data), newRow.value.data)) else None)
              else data == old(data) && callback == None
    {
      callback := None;
      if channelOpen && newRow.Some? && newRow.value.toolName == toolName {
        var previous := data;
        data := newRow.value.data;
        if hasCallback {
          callback := Some((previous, data));
        }
      }
    }

    /** `saveData` up to its `await`: refused with a notice and no request
        when nobody is signed in; otherwise marks the save in flight. */
    method BeginSave(currentData: P) returns (sent: bool)
      requires Valid()
      modifies this`isSaving, this`saveStatus, this`savesInFlight, this`toasts
      ensures Valid()
      ensures sent == user.Some?
      ensures !sent ==> (isSaving == old(isSaving) && saveStatus == old(saveStatus)
                         && savesInFlight == old(savesInFlight) && toasts == old(toasts) + [MustLogIn])
      ensures sent ==> (isSaving && saveStatus == Idle && toasts == old(toasts)
                        && savesInFlight == old(savesInFlight) + [currentData])
    {
      if user.None? {
        toasts := toasts + [MustLogIn];
        sent := false;
      } else {
        isSaving := true;
        saveStatus := Idle;
        savesInFlight := savesInFlight + [currentData];
        sent := true;
      }
    }

    /** The oldest upsert is applied (or fails): `isSaving` ends false,
        `saveStatus` is success exactly when no error occurred, and a timer
        is armed to reset the status. */
    method CompleteSave(store: ToolStore<P>, fails: bool)
      requires Valid() && store.Valid()
      requires savesInFlight != []
      modifies this`isSaving, this`saveStatus, this`savesInFlight, this`toasts, this`statusResets, store
      ensures Valid() && store.Valid()
      ensures store.log == old(store.log) + [Upsert(Row(user.value, toolName, old(savesInFlight)[0]))]
      ensures store.rows == if fails then old(store.rows)
                            else UpsertRow(old(store.rows), Row(user.value, toolName, old(savesInFlight)[0]))
      ensures savesInFlight == old(savesInFlight)[1..]
      ensures !isSaving
      ensures saveStatus == (if fails then Error else Success)
      ensures toasts == old(toasts) + [if fails then SaveFailed else Saved]
      ensures statusResets == old(statusResets) + 1
    {
      var payload := savesInFlight[0];
      store.Write(Row(user.value, toolName, payload), fails);
      if fails {
        toasts := toasts + [SaveFailed];
        saveStatus := Error;
      } else {
        toasts := toasts + [Saved];
        saveStatus := Success;
      }
      savesInFlight := savesInFlight[1..];
      isSaving := false;
      statusResets := statusResets + 1;
    }

    /** One of the two-second timers fires and shows `idle` again. */
    method StatusResetFires()
      requires Valid() && statusResets > 0
      modifies this`saveStatus, this`statusResets
      ensures Valid()
      ensures saveStatus == Idle && statusResets == old(statusResets) - 1
    {
      saveStatus := Idle;
      statusResets := statusResets - 1;
    }
  }

  /** Saving P1 then P2 from one instance and loading in a fresh instance
      for the same user and tool yields exactly P2, and no other key's
      query answer changes. */
  method SaveTwiceThenReload<P>(store: ToolStore<P>, u: UserId, t: ToolName, initial: P, p1: P, p2: P, other: Key)
    returns (reloaded: ToolDataSync<P>)
    requires store.Valid()
    requires other != (u, t)
    modifies store
    ensures store.Valid()
    ensures reloaded.data == p2 && !reloaded.isLoading
    ensures SelectOne(store.rows, other) == SelectOne(old(store.rows), other)
    ensures store.rows == UpsertRow(old(store.rows), Row(u, t, p2))
  {
    var page := new ToolDataSync(t, initial, Some(u), false);
    var sent := page.BeginSave(p1);
    page.CompleteSave(store, false);
    sent := page.BeginSave(p2);
    page.CompleteSave(store, false);
    UpsertOverwrites(old(store.rows), u, t, p1, p2);
    UpsertIsolation(old(store.rows), Row(u, t, p2), other);

    reloaded := new ToolDataSync(t, initial, Some(u), false);
    reloaded.BeginFetch();
    reloaded.CompleteFetch(store, false);
    SelectAfterUpsert(old(store.rows), u, t, p2);
  }
}
