/**
 * The credential store (server/service/supabase-service.ts): a lazily
 * created, process-wide database client and the `notion_authentication`
 * table, written by an upsert whose conflict target is `bot_id` and read
 * by a single-row lookup on `user_id`.
 */
module SupabaseService {
  import opened Wrappers
  import opened JsText

  /** The runtime configuration the client is built from. */
  datatype StoreConfig = StoreConfig(supabaseUrl: Option<string>, supabaseAnonKey: Option<string>)

  /** A client created from a URL and an anonymous key. */
  datatype Client = Client(url: string, key: string)

  /** What this layer throws. */
  datatype StoreError =
    | MissingStoreConfig       // the URL or the key is absent or empty
    | DatabaseError(code: string)  // an error object of the database API, rethrown as is

  const MissingStoreConfigMessage: string := "Supabase URL and key must be provided in environment variables"

  /** The database API's code for "a single row was requested, but zero or several matched". */
  const NoRowsCode: string := "PGRST116"

  /**
   * The token payload of a successful code exchange: what `storeNotionAuth`
   * receives. `owner` is an opaque JSON value, kept as its text.
   */
  datatype AuthData = AuthData(
    accessToken: string,
    botId: string,
    duplicatedTemplateId: Option<string>,
    owner: string,
    workspaceIcon: Option<string>,
    workspaceId: string,
    workspaceName: string)

  /** One row of the `notion_authentication` table. `None` is SQL null. */
  datatype Row = Row(
    userId: string,
    accessToken: string,
    botId: string,
    duplicatedTemplateId: Option<string>,
    owner: string,
    workspaceIcon: Option<string>,
    workspaceId: string,
    workspaceName: string,
    lastUsed: string,
    updatedTime: string)

  /** The table's unique constraint on `bot_id`, which the upsert's conflict target relies on. */
  ghost predicate UniqueBots(rows: seq<Row>) {
    forall i, j :: 0 <= i < |rows| && 0 <= j < |rows| && rows[i].botId == rows[j].botId ==> i == j
  }

  /** The row `storeNotionAuth` writes; `now` is the ISO time of the call. */
  function RowFor(userId: string, auth: AuthData, now: string): (r: Row)
    ensures r.userId == userId && r.botId == auth.botId && r.accessToken == auth.accessToken
    ensures r.owner == auth.owner && r.workspaceId == auth.workspaceId && r.workspaceName == auth.workspaceName
    ensures r.duplicatedTemplateId.Some? <==> Truthy(auth.duplicatedTemplateId)
    ensures r.duplicatedTemplateId.Some? ==> r.duplicatedTemplateId == auth.duplicatedTemplateId
    ensures r.workspaceIcon.Some? <==> Truthy(auth.workspaceIcon)
    ensures r.workspaceIcon.Some? ==> r.workspaceIcon == auth.workspaceIcon
    ensures r.lastUsed == now && r.updatedTime == now
  {
    Row(userId, auth.accessToken, auth.botId, OrNull(auth.duplicatedTemplateId), auth.owner,
        OrNull(auth.workspaceIcon), auth.workspaceId, auth.workspaceName, now, now)
  }

  /**
   * What an upsert with conflict target `bot_id` leaves: bot ids stay
   * unique, the new row is present and is the only row of its bot, the
   * rows of other bots are exactly those before, and the table grows by
   * one exactly when the bot had no row.
   */
  ghost predicate Upserted(rows: seq<Row>, row: Row, r: seq<Row>) {
    && UniqueBots(r) && row in r
    && (forall x: Row :: x.botId != row.botId ==> (x in r <==> x in rows))
    && (forall i :: 0 <= i < |r| && r[i].botId == row.botId ==> r[i] == row)
    && |r| == if exists i :: 0 <= i < |rows| && rows[i].botId == row.botId then |rows| else |rows| + 1
  }

  /**
   * The table after an upsert with conflict target `bot_id`: the row with
   * the same bot id is overwritten in place, or the row is appended.
   */
  function Upsert(rows: seq<Row>, row: Row): (r: seq<Row>)
    requires UniqueBots(rows)
    ensures Upserted(rows, row, r)
  {
    if rows == [] then [row]
    else if rows[0].botId == row.botId then
      UpsertHead(rows, row);
      [row] + rows[1..]
    else
      UniqueTail(rows);
      var tail := Upsert(rows[1..], row);
      UpsertCons(rows, row, tail);
      [rows[0]] + tail
  }

  /** The bot's row comes first: replacing it is the upsert. */
  lemma UpsertHead(rows: seq<Row>, row: Row)
    requires UniqueBots(rows) && rows != [] && rows[0].botId == row.botId
    ensures Upserted(rows, row, [row] + rows[1..])
  {
    var r := [row] + rows[1..];
    assert forall i :: 1 <= i < |rows| ==> r[i] == rows[i];
    assert forall i :: 1 <= i < |rows| ==> rows[i].botId != row.botId;
    assert forall x :: x in rows <==> x == rows[0] || x in rows[1..];
    assert forall x :: x in r <==> x == row || x in rows[1..];
  }

  /** Another bot's row comes first: it stays in front of the upserted rest. */
  lemma UpsertCons(rows: seq<Row>, row: Row, tail: seq<Row>)
    requires UniqueBots(rows) && rows != [] && rows[0].botId != row.botId
    requires Upserted(rows[1..], row, tail)
    ensures Upserted(rows, row, [rows[0]] + tail)
  {
    var r := [rows[0]] + tail;
    assert forall i :: 1 <= i < |rows| ==> rows[i] == rows[1..][i - 1];
    assert forall i :: 1 <= i < |r| ==> r[i] == tail[i - 1];
    assert forall x :: x in rows <==> x == rows[0] || x in rows[1..];
    assert forall x :: x in r <==> x == rows[0] || x in tail;
    assert rows[0] !in rows[1..] by {
      assert forall k :: 0 <= k < |rows| - 1 ==> rows[1..][k].botId == rows[k + 1].botId != rows[0].botId;
    }
    assert forall k :: 0 <= k < |tail| ==> tail[k].botId != rows[0].botId by {
      forall k | 0 <= k < |tail| ensures tail[k].botId != rows[0].botId {
        var x := tail[k];
        if x.botId != row.botId {
          assert x in rows[1..];
          var j :| 0 <= j < |rows[1..]| && rows[1..][j] == x;
          assert rows[j + 1] == x;
        }
      }
    }
    assert (exists i :: 0 <= i < |rows| && rows[i].botId == row.botId)
       <==> (exists i :: 0 <= i < |rows[1..]| && rows[1..][i].botId == row.botId);
  }

  /** The rows whose `user_id` is `userId`, in table order. */
  function RowsOf(rows: seq<Row>, userId: string): (r: seq<Row>)
    ensures forall x :: x in r <==> x in rows && x.userId == userId
    ensures (forall x :: x in rows ==> x.userId != userId) ==> r == []
    ensures |r| <= |rows|
    ensures forall x :: multiset(r)[x] == if x.userId == userId then multiset(rows)[x] else 0
  {
    if rows == [] then []
    else
      var rest := RowsOf(rows[1..], userId);
      SelectCons(rows, userId, rest);
      if rows[0].userId == userId then [rows[0]] + rest else rest
  }

  /** One step of the filter: the first row is kept exactly when it belongs to the user. */
  lemma SelectCons(rows: seq<Row>, userId: string, rest: seq<Row>)
    requires rows != []
    requires forall x :: x in rest <==> x in rows[1..] && x.userId == userId
    requires |rest| <= |rows| - 1
    requires forall x :: multiset(rest)[x] == if x.userId == userId then multiset(rows[1..])[x] else 0
    ensures var r := if rows[0].userId == userId then [rows[0]] + rest else rest;
      && (forall x :: x in r <==> x in rows && x.userId == userId)
      && |r| <= |rows|
      && (forall x :: multiset(r)[x] == if x.userId == userId then multiset(rows)[x] else 0)
  {
    assert rows == [rows[0]] + rows[1..];
    assert multiset(rows) == multiset{rows[0]} + multiset(rows[1..]);
    assert multiset([rows[0]] + rest) == multiset{rows[0]} + multiset(rest);
  }

  /** What a query answers: one row, or an error object with its code. */
  datatype QueryResult = Found(row: Row) | QueryError(code: string)

  /** `.select('*').eq('user_id', userId).single()` on the table. */
  function SingleByUser(rows: seq<Row>, userId: string): (q: QueryResult)
    ensures q.Found? ==> q.row in rows && q.row.userId == userId
    ensures q.QueryError? ==> q.code == NoRowsCode
    ensures q.Found? <==> |RowsOf(rows, userId)| == 1
    ensures q.Found? ==> q.row == RowsOf(rows, userId)[0]
  {
    var matches := RowsOf(rows, userId);
    if |matches| == 1 then Found(matches[0]) else QueryError(NoRowsCode)
  }

  /** When exactly one row of the table belongs to the user, `.single()` finds that row. */
  lemma {:induction false} SingleMatch(rows: seq<Row>, userId: string, i: nat)
    requires i < |rows| && rows[i].userId == userId
    requires forall j :: 0 <= j < |rows| && j != i ==> rows[j].userId != userId
    ensures RowsOf(rows, userId) == [rows[i]]
    ensures SingleByUser(rows, userId) == Found(rows[i])
  {
    if i == 0 {
      assert forall x :: x in rows[1..] ==> x.userId != userId by {
        forall x | x in rows[1..] ensures x.userId != userId {
          var k :| 0 <= k < |rows[1..]| && rows[1..][k] == x;
          assert rows[k + 1] == x;
        }
      }
      assert RowsOf(rows[1..], userId) == [];
    } else {
      assert forall j :: 0 <= j < |rows| - 1 ==> rows[1..][j] == rows[j + 1];
      SingleMatch(rows[1..], userId, i - 1);
    }
  }

  /**
   * How `getNotionAuth` reads a query result: "no rows" is an absent
   * credential, any other error is thrown, a row is returned.
   */
  function ClassifyLookup(q: QueryResult): (r: Result<Option<Row>, StoreError>)
    ensures r.Failure? <==> q.QueryError? && q.code != NoRowsCode
    ensures r.Failure? ==> r.error == DatabaseError(q.code)
    ensures r == Success(None) <==> q == QueryError(NoRowsCode)
    ensures q.Found? <==> r.Success? && r.value.Some?
    ensures q.Found? ==> r.value == Some(q.row)
  {
    match q
    case Found(row) => Success(Some(row))
    case QueryError(code) => if code != NoRowsCode then Failure(DatabaseError(code)) else Success(None)
  }

  /** The client after `getSupabaseClient`: the existing one, else one built from a complete configuration. */
  function ClientAfter(instance: Option<Client>, config: StoreConfig): (c: Option<Client>)
    ensures instance.Some? ==> c == instance
    ensures instance.None? ==> (c.Some? <==> Truthy(config.supabaseUrl) && Truthy(config.supabaseAnonKey))
    ensures instance.None? && c.Some? ==> c.value == Client(config.supabaseUrl.value, config.supabaseAnonKey.value)
  {
    if instance.Some? then instance
    else if Truthy(config.supabaseUrl) && Truthy(config.supabaseAnonKey) then
      Some(Client(config.supabaseUrl.value, config.supabaseAnonKey.value))
    else None
  }

  /**
   * The module's state: the lazily created client (`supabaseInstance`)
   * and the contents of the table it talks to.
   */
  class Service {
    var instance: Option<Client>
    var rows: seq<Row>

    ghost predicate Valid()
      reads this
    {
      UniqueBots(rows)
    }

    constructor(initial: seq<Row>)
      requires UniqueBots(initial)
      ensures Valid() && instance == None && rows == initial
    {
      instance := None;
      rows := initial;
    }

    /** `getSupabaseClient`: the existing instance, or a new one built from the configuration. */
    method GetSupabaseClient(config: StoreConfig) returns (r: Result<Client, StoreError>)
      modifies this`instance
      ensures old(instance).Some? ==> r == Success(old(instance).value) && instance == old(instance)
      ensures old(instance).None? && !(Truthy(config.supabaseUrl) && Truthy(config.supabaseAnonKey)) ==>
        r == Failure(MissingStoreConfig) && instance == None
      ensures old(instance).None? && Truthy(config.supabaseUrl) && Truthy(config.supabaseAnonKey) ==>
        r == Success(Client(config.supabaseUrl.value, config.supabaseAnonKey.value)) && instance == Some(r.value)
      ensures r.Success? ==> instance == Some(r.value)
      ensures instance == ClientAfter(old(instance), config)
    {
      if instance.Some? {
        return Success(instance.value);
      }
      if !Truthy(config.supabaseUrl) || !Truthy(config.supabaseAnonKey) {
        return Failure(MissingStoreConfig);
      }
      instance := Some(Client(config.supabaseUrl.value, config.supabaseAnonKey.value));
      r := Success(instance.value);
    }

    /**
     * `storeNotionAuth`: upsert on `bot_id`. `now` is the current time and
     * `fault` the error object the database may answer with.
     */
    method StoreNotionAuth(config: StoreConfig, userId: string, auth: AuthData, now: string, fault: Option<string>)
      returns (r: Result<(), StoreError>)
      requires Valid()
      modifies this
      ensures Valid()
      ensures old(instance).Some? ==> instance == old(instance)
      ensures r.Success? <==> (old(instance).Some? || (Truthy(config.supabaseUrl) && Truthy(config.supabaseAnonKey))) && fault.None?
      ensures r.Success? ==> rows == Upsert(old(rows), RowFor(userId, auth, now))
      ensures r.Failure? ==> rows == old(rows)
      ensures instance == ClientAfter(old(instance), config)
      ensures instance.None? ==> r == Failure(MissingStoreConfig)
      ensures instance.Some? && fault.Some? ==> r == Failure(DatabaseError(fault.value))
    {
      var client := GetSupabaseClient(config);
      if client.Failure? {
        return Failure(client.error);
      }
      if fault.Some? {
        return Failure(DatabaseError(fault.value));
      }
      rows := Upsert(rows, RowFor(userId, auth, now));
      r := Success(());
    }

    /**
     * `getNotionAuth`: the row for `userId`, `None` when no single row
     * matches. `fault` is a failure of the query itself.
     */
    method GetNotionAuth(config: StoreConfig, userId: string, fault: Option<string>)
      returns (r: Result<Option<Row>, StoreError>)
      modifies this`instance
      ensures instance == ClientAfter(old(instance), config)
      ensures rows == old(rows)
      ensures instance.Some? && fault.None? ==> r == ClassifyLookup(SingleByUser(rows, userId))
      ensures instance.Some? && fault.Some? ==> r == ClassifyLookup(QueryError(fault.value))
      ensures instance.None? ==> r == Failure(MissingStoreConfig)
    {
      var client := GetSupabaseClient(config);
      if client.Failure? {
        return Failure(client.error);
      }
      var q := if fault.Some? then QueryError(fault.value) else SingleByUser(rows, userId);
      r := ClassifyLookup(q);
    }
  }

  /**
   * A second store for a bot that already has a row overwrites that row at
   * its own position (reassigning it to the new user) instead of adding
   * one, and leaves every other row where it was.
   */
  lemma {:induction false} UpsertInPlace(rows: seq<Row>, row: Row, i: nat)
    requires UniqueBots(rows) && i < |rows| && rows[i].botId == row.botId
    ensures var r := Upsert(rows, row);
      |r| == |rows| && r[i] == row && forall j :: 0 <= j < |rows| && j != i ==> r[j] == rows[j]
  {
    if i > 0 {
      assert rows[0].botId != row.botId;
      assert rows[1..][i - 1] == rows[i];
      UpsertInPlace(rows[1..], row, i - 1);
    }
  }

  /**
   * After storing a credential for a user who owns no other bot's row,
   * the lookup by that user finds exactly the stored row.
   */
  lemma {:induction false} LookupAfterStore(rows: seq<Row>, userId: string, auth: AuthData, now: string)
    requires UniqueBots(rows)
    requires forall x :: x in rows && x.userId == userId ==> x.botId == auth.botId
    ensures SingleByUser(Upsert(rows, RowFor(userId, auth, now)), userId) == Found(RowFor(userId, auth, now))
    ensures ClassifyLookup(SingleByUser(Upsert(rows, RowFor(userId, auth, now)), userId)) == Success(Some(RowFor(userId, auth, now)))
  {
    var row := RowFor(userId, auth, now);
    OnlyRowOf(rows, row);
  }

  lemma {:induction false} OnlyRowOf(rows: seq<Row>, row: Row)
    requires UniqueBots(rows)
    requires forall x :: x in rows && x.userId == row.userId ==> x.botId == row.botId
    ensures RowsOf(Upsert(rows, row), row.userId) == [row]
  {
    if rows == [] {
    } else if rows[0].botId == row.botId {
      assert forall x :: x in rows[1..] ==> x in rows && x.botId != row.botId by {
        forall x | x in rows[1..] ensures x in rows && x.botId != row.botId {
          var k :| 0 <= k < |rows[1..]| && rows[1..][k] == x;
          assert rows[k + 1] == x;
        }
      }
      assert RowsOf(rows[1..], row.userId) == [];
      assert ([row] + rows[1..])[1..] == rows[1..];
    } else {
      assert forall x :: x in rows[1..] ==> x in rows;
      assert rows[0].userId != row.userId;
      UniqueTail(rows);
      OnlyRowOf(rows[1..], row);
      assert ([rows[0]] + Upsert(rows[1..], row))[1..] == Upsert(rows[1..], row);
    }
  }

  lemma UniqueTail(rows: seq<Row>)
    requires UniqueBots(rows) && rows != []
    ensures UniqueBots(rows[1..])
  {
    forall i, j | 0 <= i < |rows| - 1 && 0 <= j < |rows| - 1 && rows[1..][i].botId == rows[1..][j].botId
      ensures i == j
    {
      assert rows[i + 1].botId == rows[j + 1].botId;
    }
  }
}
