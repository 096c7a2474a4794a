/** models/database.js: the `users` table seen as a map from `fbid` to a row,
    the upsert of `updateUserState` (the SQL text and parameter array it builds,
    and the effect of that statement on the table), `retrieveUserState` and
    `resetUserData`. */
module Database {
  import opened Common

  /** One row of `users` without its key: column name to value; a column
      missing from the map holds SQL NULL. */
  type Row = map<string, int>

  /** The table `users`, keyed by its primary key `fbid`. */
  type Store = map<UserId, Row>

  /** A JavaScript object literal such as `{"targetmood": 2}`: its properties in
      enumeration order, the order in which `for (var key in data)` visits them. */
  type Data = seq<(string, int)>

  /** The columns after `fbid`, in declaration order (`createUsersTable`). */
  const Columns: seq<string> := ["targetmood", "targetlocation"]

  /** The `err` argument of a query callback. */
  datatype DbError = QueryFailed

  /** The object `retrieveUserState` passes on; `None` where the property is
      missing or NULL, which JavaScript's `== null` does not tell apart. */
  datatype UserState = UserState(targetMood: Option<int>, targetLocation: Option<int>)

  function Get(row: Row, column: string): Option<int>
  {
    if column in row then Some(row[column]) else None
  }

  /** Two rows that agree on every column are the same row. */
  lemma RowsEqual(a: Row, b: Row)
    requires forall k :: Get(a, k) == Get(b, k)
    ensures a == b
  {
    forall k | k in a ensures k in b && a[k] == b[k] {
      assert Get(a, k) == Get(b, k);
    }
    forall k | k in b ensures k in a {
      assert Get(a, k) == Get(b, k);
    }
  }

  /** The value the last property named `key` gives, if any. */
  function Lookup(d: Data, key: string): Option<int>
  {
    if d == [] then None
    else if d[|d| - 1].0 == key then Some(d[|d| - 1].1)
    else Lookup(d[..|d| - 1], key)
  }

  function KeysOf(d: Data): (keys: seq<string>)
    ensures |keys| == |d| && forall i :: 0 <= i < |d| ==> keys[i] == d[i].0
  {
    seq(|d|, i requires 0 <= i < |d| => d[i].0)
  }

  predicate DistinctKeys(d: Data)
  {
    forall i, j :: 0 <= i < j < |d| ==> d[i].0 != d[j].0
  }

  /** An `UPDATE users SET k=$2, ...` that PostgreSQL accepts: at least one
      assignment, each to a column of the table, no column twice. */
  predicate ValidAssignments(d: Data)
  {
    d != [] && DistinctKeys(d) && forall i :: 0 <= i < |d| ==> d[i].0 in Columns
  }

  /** The row after `SET k1=v1, k2=v2, ...`. */
  function Overwrite(row: Row, d: Data): (r: Row)
    ensures forall k :: Get(r, k) == if Lookup(d, k).Some? then Lookup(d, k) else Get(row, k)
  {
    if d == [] then row
    else Overwrite(row, d[..|d| - 1])[d[|d| - 1].0 := d[|d| - 1].1]
  }

  /** Rewriting a row with the same assignments a second time changes nothing. */
  lemma OverwriteIdempotent(row: Row, d: Data)
    ensures Overwrite(Overwrite(row, d), d) == Overwrite(row, d)
  {
    RowsEqual(Overwrite(Overwrite(row, d), d), Overwrite(row, d));
  }

  /** The row `INSERT INTO users VALUES ($1, $2, ...)` creates: the values go
      to the columns by POSITION, whatever the properties were named; columns
      left over are NULL. */
  function InsertRow(values: seq<int>): (r: Row)
    requires |values| <= |Columns|
    ensures forall i :: 0 <= i < |Columns| ==>
              Get(r, Columns[i]) == if i < |values| then Some(values[i]) else None
    ensures forall k :: k in r ==> k in Columns
  {
    if values == [] then map[]
    else InsertRow(values[..|values| - 1])[Columns[|values| - 1] := values[|values| - 1]]
  }

  function ValuesOf(d: Data): (values: seq<int>)
    ensures |values| == |d| && forall i :: 0 <= i < |d| ==> values[i] == d[i].1
  {
    seq(|d|, i requires 0 <= i < |d| => d[i].1)
  }

  /** `updateUserState(fbid, dataForUpdate, dataForInsert, callback)`: when a
      row for `fbid` exists, only the properties of `dataForUpdate` are written;
      otherwise a row is created from `dataForInsert`. `Err` is the error the
      second query throws, after which the callback does not run. */
  function Upsert(users: Store, fbid: UserId, dataForUpdate: Data, dataForInsert: Data): Result<Store, DbError>
  {
    if fbid in users then
      if ValidAssignments(dataForUpdate) then Ok(users[fbid := Overwrite(users[fbid], dataForUpdate)])
      else Err(QueryFailed)
    else
      if |dataForInsert| <= |Columns| then Ok(users[fbid := InsertRow(ValuesOf(dataForInsert))])
      else Err(QueryFailed)
  }

  /** The upsert fails exactly when the statement it chose is rejected; on
      success only the row of `fbid` changes: an existing row takes the
      assignments of `dataForUpdate` and keeps its other columns, a new row
      takes the values of `dataForInsert` by position. */
  lemma UpsertEffect(users: Store, fbid: UserId, dataForUpdate: Data, dataForInsert: Data)
    ensures var r := Upsert(users, fbid, dataForUpdate, dataForInsert);
            && (fbid in users ==> (r.Ok? <==> ValidAssignments(dataForUpdate)))
            && (fbid !in users ==> (r.Ok? <==> |dataForInsert| <= |Columns|))
            && (r.Ok? ==> r.value.Keys == users.Keys + {fbid})
            && (r.Ok? ==> forall u :: u in users && u != fbid ==> r.value[u] == users[u])
            && (r.Ok? && fbid in users ==>
                  forall k :: Get(r.value[fbid], k) ==
                    if Lookup(dataForUpdate, k).Some? then Lookup(dataForUpdate, k) else Get(users[fbid], k))
            && (r.Ok? && fbid !in users ==>
                  forall i :: 0 <= i < |Columns| ==>
                    Get(r.value[fbid], Columns[i]) == if i < |dataForInsert| then Some(dataForInsert[i].1) else None)
  {
  }

  /** `retrieveUserState`: the user's row, or `{}` when there is none. */
  function RetrieveUserState(users: Store, fbid: UserId): (s: UserState)
    ensures fbid !in users ==> s.targetMood.None? && s.targetLocation.None?
    ensures fbid in users ==>
              s.targetMood == Get(users[fbid], "targetmood") && s.targetLocation == Get(users[fbid], "targetlocation")
  {
    if fbid in users then
      var row := users[fbid];
      UserState(Get(row, "targetmood"), Get(row, "targetlocation"))
    else
      UserState(None, None)
  }

  const ResetData: Data := [("targetmood", -1), ("targetlocation", -1)]

  /** `resetUserData`: an upsert of -1 into both columns. */
  function ResetUserData(users: Store, fbid: UserId): Result<Store, DbError>
  {
    Upsert(users, fbid, ResetData, ResetData)
  }

  /** Whether or not the user had a row, the reset succeeds, leaves both
      answers at -1 and touches no other user. */
  lemma ResetUserDataSetsMinusOne(users: Store, fbid: UserId)
    ensures ResetUserData(users, fbid).Ok?
    ensures RetrieveUserState(ResetUserData(users, fbid).value, fbid) == UserState(Some(-1), Some(-1))
    ensures forall u :: u in users && u != fbid ==> ResetUserData(users, fbid).value[u] == users[u]
  {
    assert ValidAssignments(ResetData);
    var r := ResetUserData(users, fbid).value;
    assert Lookup(ResetData, "targetmood") == Some(-1);
    assert Lookup(ResetData, "targetlocation") == Some(-1);
    assert Get(r[fbid], Columns[0]) == Some(-1) && Get(r[fbid], Columns[1]) == Some(-1);
  }

  /** Resetting twice is resetting once. */
  lemma ResetUserDataIdempotent(users: Store, fbid: UserId)
    ensures ResetUserData(users, fbid).Ok?
    ensures ResetUserData(ResetUserData(users, fbid).value, fbid) == ResetUserData(users, fbid)
  {
    assert ValidAssignments(ResetData);
    var once: Store;
    if fbid in users {
      once := users[fbid := Overwrite(users[fbid], ResetData)];
      assert ResetUserData(users, fbid) == Ok(once);
      OverwriteIdempotent(users[fbid], ResetData);
    } else {
      once := users[fbid := InsertRow(ValuesOf(ResetData))];
      assert ResetUserData(users, fbid) == Ok(once);
      ResetInsertRow();
      ResetRowStable(once[fbid]);
    }
    ResetStableStore(once, fbid);
  }

  /** A store whose row for `fbid` the reset leaves alone is left alone. */
  lemma ResetStableStore(users: Store, fbid: UserId)
    requires fbid in users && Overwrite(users[fbid], ResetData) == users[fbid]
    ensures ResetUserData(users, fbid) == Ok(users)
  {
    assert ValidAssignments(ResetData);
    assert users[fbid := users[fbid]] == users;
  }

  lemma ResetDataLookup(k: string)
    ensures Lookup(ResetData, k) == if k == "targetmood" || k == "targetlocation" then Some(-1) else None
  {
    var first := ResetData[..1];
    assert first == [("targetmood", -1)] && first[..0] == [];
    assert Lookup(ResetData, k) == if k == "targetlocation" then Some(-1) else Lookup(first, k);
    assert Lookup(first, k) == if k == "targetmood" then Some(-1) else Lookup(first[..0], k);
  }

  lemma ResetInsertRow()
    ensures InsertRow(ValuesOf(ResetData)) == map["targetmood" := -1, "targetlocation" := -1]
  {
    var values := ValuesOf(ResetData);
    assert values == [-1, -1] && values[..1] == [-1] && values[..1][..0] == [];
  }

  /** The row holding -1 in both columns is a fixed point of the reset. */
  lemma ResetRowStable(row: Row)
    requires row == map["targetmood" := -1, "targetlocation" := -1]
    ensures Overwrite(row, ResetData) == row
  {
    forall k ensures Get(Overwrite(row, ResetData), k) == Get(row, k) {
      ResetDataLookup(k);
    }
    RowsEqual(Overwrite(row, ResetData), row);
  }

  // ---------------------------------------------------------------------
  // The SQL text and parameter array built by `updateUserState`

  /** An element of `valuesArray`: the `fbid` string or an answer. */
  datatype Param = Text(s: string) | Int(i: int)

  function DigitChar(d: nat): char
    requires d < 10
  {
    ('0' as int + d) as char
  }

  /** JavaScript's decimal rendering of a nonnegative integer, as `'$' + n` produces it. */
  function NatToString(n: nat): string
    decreases n
  {
    if n < 10 then [DigitChar(n)] else NatToString(n / 10) + [DigitChar(n % 10)]
  }

  predicate IsDigits(s: string)
  {
    forall i :: 0 <= i < |s| ==> '0' <= s[i] <= '9'
  }

  /** How PostgreSQL reads the number after `$`. */
  function ParseNat(s: string): nat
    requires IsDigits(s)
  {
    if s == [] then 0 else ParseNat(s[..|s| - 1]) * 10 + (s[|s| - 1] as int - '0' as int)
  }

  /** The placeholder `$n` written by the builder denotes parameter n. */
  lemma {:induction false} NatToStringRoundTrip(n: nat)
    ensures NatToString(n) != [] && IsDigits(NatToString(n))
    ensures ParseNat(NatToString(n)) == n
    decreases n
  {
    if n >= 10 {
      NatToStringRoundTrip(n / 10);
      var s := NatToString(n);
      assert s[..|s| - 1] == NatToString(n / 10);
    }
  }

  /** Distinct counters give distinct placeholders. */
  lemma PlaceholdersDistinct(m: nat, n: nat)
    requires m != n
    ensures "$" + NatToString(m) != "$" + NatToString(n)
  {
    NatToStringRoundTrip(m);
    NatToStringRoundTrip(n);
    assert ("$" + NatToString(m))[1..] == NatToString(m);
    assert ("$" + NatToString(n))[1..] == NatToString(n);
  }

  /** `'UPDATE users SET k1=$2, k2=$3, ...'`: assignment i names parameter i + 2
      and every assignment after the first is preceded by a comma. */
  function UpdatePrefix(keys: seq<string>): string
  {
    if keys == [] then "UPDATE users SET"
    else
      var i := |keys| - 1;
      if i > 0 then UpdatePrefix(keys[..i]) + "," + " " + keys[i] + "=$" + NatToString(i + 2)
      else UpdatePrefix(keys[..i]) + " " + keys[i] + "=$" + NatToString(i + 2)
  }

  function UpdateQuery(keys: seq<string>): string
  {
    UpdatePrefix(keys) + " WHERE fbid=$1;"
  }

  /** `'INSERT INTO users VALUES ($1, $2, $3, ...'` for `count` inserted values. */
  function InsertPrefix(count: nat): string
  {
    if count == 0 then "INSERT INTO users VALUES ($1" else InsertPrefix(count - 1) + ", $" + NatToString(count + 1)
  }

  function InsertQuery(count: nat): string
  {
    InsertPrefix(count) + ");"
  }

  /** The UPDATE an answer issues names one column, bound to `$2`. */
  lemma AnswerUpdateQuery()
    ensures UpdateQuery(["targetmood"]) == "UPDATE users SET targetmood=$2 WHERE fbid=$1;"
  {
    assert NatToString(2) == "2";
    assert ["targetmood"][..0] == [];
    assert UpdatePrefix(["targetmood"]) == "UPDATE users SET targetmood=$2";
  }

  /** The INSERT of a new row has one placeholder per column and one for `fbid`. */
  lemma RowInsertQuery()
    ensures InsertQuery(|Columns|) == "INSERT INTO users VALUES ($1, $2, $3);"
  {
    assert NatToString(2) == "2" && NatToString(3) == "3";
    assert InsertPrefix(1) == "INSERT INTO users VALUES ($1" + ", $" + "2";
    assert InsertPrefix(2) == "INSERT INTO users VALUES ($1, $2" + ", $" + "3";
  }

  /** The query text and `valuesArray` of the second query of `updateUserState`.
      The parameters are numbered in lockstep with the array: `$1` is `fbid`,
      and the property at position i of the chosen object is `$(i + 2)`,
      bound to element i + 1, so the highest placeholder is the array's length. */
  method BuildQuery(fbid: UserId, dataAlreadyExists: bool, dataForUpdate: Data, dataForInsert: Data)
    returns (queryString: string, valuesArray: seq<Param>)
    ensures var data := if dataAlreadyExists then dataForUpdate else dataForInsert;
            && |valuesArray| == |data| + 1
            && valuesArray[0] == Text(fbid)
            && forall i :: 0 <= i < |data| ==> valuesArray[i + 1] == Int(data[i].1)
    ensures dataAlreadyExists ==> queryString == UpdateQuery(KeysOf(dataForUpdate))
    ensures !dataAlreadyExists ==> queryString == InsertQuery(|dataForInsert|)
  {
    valuesArray := [Text(fbid)];
    if dataAlreadyExists {
      queryString := "UPDATE users SET";
      var n := 2;
      var i := 0;
      while i < |dataForUpdate|
        invariant 0 <= i <= |dataForUpdate| && n == i + 2
        invariant queryString == UpdatePrefix(KeysOf(dataForUpdate)[..i])
        invariant |valuesArray| == i + 1 && valuesArray[0] == Text(fbid)
        invariant forall j :: 0 <= j < i ==> valuesArray[j + 1] == Int(dataForUpdate[j].1)
      {
        var (key, value) := dataForUpdate[i];
        ghost var keys := KeysOf(dataForUpdate)[..i + 1];
        assert keys[..i] == KeysOf(dataForUpdate)[..i] && keys[i] == key;
        if n > 2 {
          queryString := queryString + ",";
        }
        queryString := queryString + " " + key + "=$" + NatToString(n);
        valuesArray := valuesArray + [Int(value)];
        n := n + 1;
        i := i + 1;
      }
      assert KeysOf(dataForUpdate)[..i] == KeysOf(dataForUpdate);
      queryString := queryString + " WHERE fbid=$1;";
    } else {
      queryString := "INSERT INTO users VALUES ($1";
      var n := 2;
      var i := 0;
      while i < |dataForInsert|
        invariant 0 <= i <= |dataForInsert| && n == i + 2
        invariant queryString == InsertPrefix(i)
        invariant |valuesArray| == i + 1 && valuesArray[0] == Text(fbid)
        invariant forall j :: 0 <= j < i ==> valuesArray[j + 1] == Int(dataForInsert[j].1)
      {
        queryString := queryString + ", $" + NatToString(n);
        valuesArray := valuesArray + [Int(dataForInsert[i].1)];
        n := n + 1;
        i := i + 1;
      }
      queryString := queryString + ");";
    }
  }
}
