/**
 * The JSON document store's table operations. The document that the
 * store reads from and writes back to its file is held in the fields of
 * `Database`; each table is a sequence of records, and each record maps
 * field names to values, as a parsed JSON object does.
 */
module Store {
  import opened Wrappers
  import opened Collections
  import opened Sorting

  /** A JSON value as the tables hold it; timestamps are kept as instants. */
  datatype Value = Str(s: string) | Num(n: int) | Bool(b: bool) | Time(t: int)

  type Record = map<string, Value>

  predicate HasId(r: Record, id: Value) { "id" in r && r["id"] == id }

  predicate OwnedBy(r: Record, userId: Value) { "user_id" in r && r["user_id"] == userId }

  /** The instant `new Date(r.created_at)` stands for. */
  function CreatedAt(r: Record): int {
    if "created_at" in r && r["created_at"].Time? then r["created_at"].t else 0
  }

  predicate NoDuplicates<T(==)>(s: seq<T>) {
    forall i, j :: 0 <= i < j < |s| ==> s[i] != s[j]
  }

  // ---------------------------------------------------------------------
  // Users
  // ---------------------------------------------------------------------

  /** `{...user, ...updateData, updated_at}`: the update overlays the user, and the time is set last. */
  function Overlay(user: Record, updateData: Record, now: int): (r: Record)
    ensures r.Keys == user.Keys + updateData.Keys + {"updated_at"}
    ensures r["updated_at"] == Time(now)
    ensures forall k :: k in updateData && k != "updated_at" ==> r[k] == updateData[k]
    ensures forall k :: k in user && k !in updateData && k != "updated_at" ==> r[k] == user[k]
  {
    (user + updateData)["updated_at" := Time(now)]
  }

  /** The users table after `updateUser`, and what it returns. */
  function UpdateUserIn(users: seq<Record>, id: Value, updateData: Record, now: int): (Option<Record>, seq<Record>) {
    match FirstIndex(users, u => HasId(u, id))
    case None => (None, users)
    case Some(i) => (Some(Overlay(users[i], updateData, now)), users[i := Overlay(users[i], updateData, now)])
  }

  /**
   * Without a user of that id nothing is written and nothing is returned;
   * otherwise only the first user of that id is overlaid, and is returned.
   */
  lemma UpdateUserSpec(users: seq<Record>, id: Value, updateData: Record, now: int) returns (i: nat)
    ensures var (result, after) := (UpdateUserIn(users, id, updateData, now).0, UpdateUserIn(users, id, updateData, now).1);
      && (result.None? <==> forall k :: 0 <= k < |users| ==> !HasId(users[k], id))
      && (result.None? ==> after == users)
      && (result.Some? ==>
            && i < |users| && HasId(users[i], id)
            && (forall k :: 0 <= k < i ==> !HasId(users[k], id))
            && |after| == |users|
            && after[i] == result.value == Overlay(users[i], updateData, now)
            && forall k :: 0 <= k < |users| && k != i ==> after[k] == users[k])
  {
    var f := FirstIndex(users, u => HasId(u, id));
    i := if f.Some? then f.value else 0;
  }

  // ---------------------------------------------------------------------
  // Online users
  // ---------------------------------------------------------------------

  /** `addOnlineUser`'s table: the id is appended when it is absent. */
  function WithOnlineUser(online: seq<Value>, userId: Value): (r: seq<Value>)
    ensures userId in r
    ensures userId in online ==> r == online
    ensures userId !in online ==> r == online + [userId]
  {
    if userId in online then online else online + [userId]
  }

  /** Adding keeps the list free of duplicates. */
  lemma WithOnlineUserNoDuplicates(online: seq<Value>, userId: Value)
    requires NoDuplicates(online)
    ensures NoDuplicates(WithOnlineUser(online, userId))
  {
  }

  /** `removeOnlineUser`'s table. */
  function WithoutOnlineUser(online: seq<Value>, userId: Value): seq<Value> {
    Filter(online, id => id != userId)
  }

  /** The id is gone, every other id stays, and the others keep their relative order. */
  lemma WithoutOnlineUserSpec(online: seq<Value>, userId: Value, before: seq<Value>, after: seq<Value>)
    ensures userId !in WithoutOnlineUser(online, userId)
    ensures forall x :: x in online && x != userId ==> x in WithoutOnlineUser(online, userId)
    ensures forall x :: x in WithoutOnlineUser(online, userId) ==> x in online
    ensures online == before + after ==>
      WithoutOnlineUser(online, userId) == WithoutOnlineUser(before, userId) + WithoutOnlineUser(after, userId)
    ensures userId !in online ==> WithoutOnlineUser(online, userId) == online
  {
    var r := WithoutOnlineUser(online, userId);
    forall x | x in online && x != userId ensures x in r {
      var k :| 0 <= k < |online| && online[k] == x;
    }
    if online == before + after {
      FilterConcat(before, after, id => id != userId);
    }
    if userId !in online {
      FilterAll(online, userId);
    }
  }

  lemma {:induction false} FilterAll(online: seq<Value>, userId: Value)
    requires userId !in online
    ensures WithoutOnlineUser(online, userId) == online
    decreases |online|
  {
    if online != [] {
      FilterAll(online[1..], userId);
    }
  }

  /** Removing keeps the list free of duplicates. */
  lemma WithoutOnlineUserNoDuplicates(online: seq<Value>, userId: Value)
    requires NoDuplicates(online)
    ensures NoDuplicates(WithoutOnlineUser(online, userId))
  {
    FilterNoDuplicates(online, id => id != userId);
  }

  lemma {:induction false} FilterNoDuplicates<T>(s: seq<T>, p: T -> bool)
    requires NoDuplicates(s)
    ensures NoDuplicates(Filter(s, p))
    decreases |s|
  {
    if s != [] {
      FilterNoDuplicates(s[1..], p);
      var rest := Filter(s[1..], p);
      assert s[0] !in s[1..];
      assert s[0] !in rest;
    }
  }

  // ---------------------------------------------------------------------
  // Calculation history
  // ---------------------------------------------------------------------

  /** `{id, user_id: userId, ...calculationData, created_at}`. */
  function NewCalculation(id: Value, userId: Value, data: Record, now: int): (r: Record)
    ensures "created_at" in r && r["created_at"] == Time(now) && CreatedAt(r) == now
    ensures "user_id" !in data ==> OwnedBy(r, userId)
    ensures "id" !in data ==> HasId(r, id)
    ensures forall k :: k in data && k != "created_at" ==> k in r && r[k] == data[k]
    ensures r.Keys == data.Keys + {"id", "user_id", "created_at"}
  {
    (map["id" := id, "user_id" := userId] + data)["created_at" := Time(now)]
  }

  /** `slice(0, limit)`: a negative limit counts from the end. */
  function SliceEnd(n: nat, limit: int): (e: nat)
    ensures e <= n
    ensures limit >= 0 ==> e == if limit < n then limit else n
    ensures limit < 0 ==> e == if n + limit > 0 then n + limit else 0
  {
    if limit >= 0 then (if limit < n then limit else n)
    else if n + limit > 0 then n + limit else 0
  }

  /** The user's calculations, newest first. */
  function UserCalculationsNewestFirst(table: seq<Record>, userId: Value): seq<Record> {
    SortDesc(Filter(table, c => OwnedBy(c, userId)), CreatedAt)
  }

  /** `getCalculationHistory(userId, limit)`. */
  function CalculationHistoryIn(table: seq<Record>, userId: Value, limit: int): seq<Record> {
    var sorted := UserCalculationsNewestFirst(table, userId);
    sorted[..SliceEnd(|sorted|, limit)]
  }

  /** Every calculation in `left` is no newer than every one in `kept`. */
  ghost predicate NoNewerLeftOut(left: multiset<Record>, kept: seq<Record>) {
    forall c, i :: c in left && 0 <= i < |kept| ==> CreatedAt(c) <= CreatedAt(kept[i])
  }

  /** A prefix of a newest-first sequence keeps its newest elements. */
  lemma NewestFirstPrefix(s: seq<Record>, e: nat)
    requires e <= |s| && SortedDesc(s, CreatedAt)
    ensures multiset(s[..e]) <= multiset(s)
    ensures NoNewerLeftOut(multiset(s) - multiset(s[..e]), s[..e])
  {
    assert s == s[..e] + s[e..];
    assert multiset(s) == multiset(s[..e]) + multiset(s[e..]);
    forall c, i | c in multiset(s) - multiset(s[..e]) && 0 <= i < |s[..e]| ensures CreatedAt(c) <= CreatedAt(s[..e][i]) {
      assert c in multiset(s[e..]);
      assert c in s[e..];
      var j :| 0 <= j < |s[e..]| && s[e..][j] == c;
      assert s[e..][j] == s[e + j] && s[..e][i] == s[i];
    }
  }

  /**
   * The history holds only the user's calculations, taken from the table,
   * newest first: the `limit` newest of them (all of them when there are
   * no more than `limit`), and none left out is newer than one kept.
   */
  lemma CalculationHistorySpec(table: seq<Record>, userId: Value, limit: int)
    ensures var r := CalculationHistoryIn(table, userId, limit);
      && (forall i :: 0 <= i < |r| ==> OwnedBy(r[i], userId) && r[i] in table)
      && (forall i, j :: 0 <= i < j < |r| ==> CreatedAt(r[i]) >= CreatedAt(r[j]))
      && (limit >= 0 ==> |r| == if limit < |Filter(table, c => OwnedBy(c, userId))| then limit else |Filter(table, c => OwnedBy(c, userId))|)
      && multiset(r) <= multiset(Filter(table, c => OwnedBy(c, userId)))
      && NoNewerLeftOut(multiset(Filter(table, c => OwnedBy(c, userId))) - multiset(r), r)
      && (limit >= |Filter(table, c => OwnedBy(c, userId))| ==>
            multiset(r) == multiset(Filter(table, c => OwnedBy(c, userId))))
  {
    HistoryFromTable(table, userId, limit);
    HistoryNewest(table, userId, limit);
  }

  lemma HistoryFromTable(table: seq<Record>, userId: Value, limit: int)
    ensures var r := CalculationHistoryIn(table, userId, limit);
      && (forall i :: 0 <= i < |r| ==> OwnedBy(r[i], userId) && r[i] in table)
      && (forall i, j :: 0 <= i < j < |r| ==> CreatedAt(r[i]) >= CreatedAt(r[j]))
  {
    var mine := Filter(table, c => OwnedBy(c, userId));
    var sorted := UserCalculationsNewestFirst(table, userId);
    var r := CalculationHistoryIn(table, userId, limit);
    SortDescSorted(mine, CreatedAt);
    forall i | 0 <= i < |r| ensures OwnedBy(r[i], userId) && r[i] in table {
      assert r[i] == sorted[i];
      assert sorted[i] in multiset(mine);
    }
    forall i, j | 0 <= i < j < |r| ensures CreatedAt(r[i]) >= CreatedAt(r[j]) {
      assert r[i] == sorted[i] && r[j] == sorted[j];
    }
  }

  lemma HistoryNewest(table: seq<Record>, userId: Value, limit: int)
    ensures var r := CalculationHistoryIn(table, userId, limit);
      && (limit >= 0 ==> |r| == if limit < |Filter(table, c => OwnedBy(c, userId))| then limit else |Filter(table, c => OwnedBy(c, userId))|)
      && multiset(r) <= multiset(Filter(table, c => OwnedBy(c, userId)))
      && NoNewerLeftOut(multiset(Filter(table, c => OwnedBy(c, userId))) - multiset(r), r)
      && (limit >= |Filter(table, c => OwnedBy(c, userId))| ==>
            multiset(r) == multiset(Filter(table, c => OwnedBy(c, userId))))
  {
    var mine := Filter(table, c => OwnedBy(c, userId));
    var sorted := UserCalculationsNewestFirst(table, userId);
    var e := SliceEnd(|sorted|, limit);
    SortDescSorted(mine, CreatedAt);
    assert sorted == SortDesc(mine, CreatedAt);
    assert CalculationHistoryIn(table, userId, limit) == sorted[..e];
    NewestFirstPrefix(sorted, e);
    if limit >= |mine| {
      assert sorted[..e] == sorted;
    }
  }

  /** An element whose key beats every other element's is the best one. */
  lemma BestIsStrictMaximum(s: seq<Record>, x: Record)
    requires s != [] && x in s
    requires forall k :: 0 <= k < |s| && s[k] != x ==> CreatedAt(s[k]) < CreatedAt(x)
    ensures Best(s, CreatedAt) == x
  {
    var b := Best(s, CreatedAt);
    var k :| 0 <= k < |s| && s[k] == b;
    var j :| 0 <= j < |s| && s[j] == x;
    assert CreatedAt(s[j]) <= CreatedAt(b);
  }

  /** The user's calculations after a save are the earlier ones followed by the new one. */
  lemma SavedIsLastOfUser(table: seq<Record>, newest: Record, userId: Value)
    requires OwnedBy(newest, userId)
    ensures Filter(table + [newest], c => OwnedBy(c, userId)) == Filter(table, c => OwnedBy(c, userId)) + [newest]
  {
    FilterConcat(table, [newest], c => OwnedBy(c, userId));
    assert Filter([newest], c => OwnedBy(c, userId)) == [newest];
  }

  /**
   * A calculation saved later than all of a user's earlier ones is the
   * first entry of that user's history.
   */
  lemma NewestSavedComesFirst(table: seq<Record>, id: Value, userId: Value, data: Record, now: int, limit: int)
    requires "user_id" !in data && limit >= 1
    requires forall k :: 0 <= k < |table| && OwnedBy(table[k], userId) ==> CreatedAt(table[k]) < now
    ensures var r := CalculationHistoryIn(table + [NewCalculation(id, userId, data, now)], userId, limit);
      r != [] && r[0] == NewCalculation(id, userId, data, now)
  {
    var newest := NewCalculation(id, userId, data, now);
    var older := Filter(table, c => OwnedBy(c, userId));
    var mine := Filter(table + [newest], c => OwnedBy(c, userId));
    SavedIsLastOfUser(table, newest, userId);
    forall k | 0 <= k < |mine| && mine[k] != newest ensures CreatedAt(mine[k]) < CreatedAt(newest) {
      assert k < |older|;
      assert older[k] in table;
      var t :| 0 <= t < |table| && table[t] == older[k];
    }
    assert mine[|mine| - 1] == newest;
    BestIsStrictMaximum(mine, newest);
    SortDescHead(mine, CreatedAt);
  }

  /** The table after `deleteCalculation`, and whether a record was removed. */
  function DeleteCalculationIn(table: seq<Record>, calculationId: Value, userId: Value): (bool, seq<Record>) {
    match FirstIndex(table, c => HasId(c, calculationId) && OwnedBy(c, userId))
    case None => (false, table)
    case Some(i) => (true, table[..i] + table[i + 1..])
  }

  /**
   * A record is removed exactly when one matches both the id and the user;
   * then only the first such record goes and the rest keep their order.
   */
  lemma DeleteCalculationSpec(table: seq<Record>, calculationId: Value, userId: Value) returns (i: nat)
    ensures var (deleted, after) := (DeleteCalculationIn(table, calculationId, userId).0, DeleteCalculationIn(table, calculationId, userId).1);
      && (deleted <==> exists k :: 0 <= k < |table| && HasId(table[k], calculationId) && OwnedBy(table[k], userId))
      && (!deleted ==> after == table)
      && (deleted ==>
            && i < |table| && HasId(table[i], calculationId) && OwnedBy(table[i], userId)
            && (forall k :: 0 <= k < i ==> !(HasId(table[k], calculationId) && OwnedBy(table[k], userId)))
            && |after| == |table| - 1
            && (forall k :: 0 <= k < i ==> after[k] == table[k])
            && (forall k :: i < k < |table| ==> after[k - 1] == table[k]))
  {
    var f := FirstIndex(table, c => HasId(c, calculationId) && OwnedBy(c, userId));
    i := if f.Some? then f.value else 0;
  }

  // ---------------------------------------------------------------------
  // Preferences
  // ---------------------------------------------------------------------

  /** `{id, user_id: userId, ...preferences, updated_at}`, the id kept from an existing record. */
  function PreferencesRecord(existing: Option<Record>, freshId: Value, userId: Value, preferences: Record, now: int): (r: Record)
    ensures "updated_at" in r && r["updated_at"] == Time(now)
    ensures "user_id" !in preferences ==> OwnedBy(r, userId)
    ensures "id" !in preferences && existing.Some? && "id" in existing.value ==> HasId(r, existing.value["id"])
    ensures "id" !in preferences && existing.None? ==> HasId(r, freshId)
    ensures forall k :: k in preferences && k != "updated_at" ==> k in r && r[k] == preferences[k]
    ensures r.Keys <= preferences.Keys + {"id", "user_id", "updated_at"}
  {
    var id: Record :=
      match existing
      case Some(e) => if "id" in e then map["id" := e["id"]] else map[]
      case None => map["id" := freshId];
    (id + map["user_id" := userId] + preferences)["updated_at" := Time(now)]
  }

  /** The table after `saveUserPreferences`, and the record it returns. */
  function SaveUserPreferencesIn(table: seq<Record>, userId: Value, preferences: Record, freshId: Value, now: int): (Record, seq<Record>) {
    match FirstIndex(table, p => OwnedBy(p, userId))
    case Some(i) =>
      var r := PreferencesRecord(Some(table[i]), freshId, userId, preferences, now);
      (r, table[i := r])
    case None =>
      var r := PreferencesRecord(None, freshId, userId, preferences, now);
      (r, table + [r])
  }

  /**
   * An upsert: the user's existing record is replaced wholesale in place,
   * keeping its id, and nothing else changes; without one, exactly one
   * record is appended.
   */
  lemma SaveUserPreferencesSpec(table: seq<Record>, userId: Value, preferences: Record, freshId: Value, now: int) returns (i: nat)
    ensures var (saved, after) := (SaveUserPreferencesIn(table, userId, preferences, freshId, now).0, SaveUserPreferencesIn(table, userId, preferences, freshId, now).1);
      && i <= |table|
      && (forall k :: 0 <= k < i ==> !OwnedBy(table[k], userId))
      && (i < |table| ==>
            && OwnedBy(table[i], userId)
            && |after| == |table| && after[i] == saved
            && saved == PreferencesRecord(Some(table[i]), freshId, userId, preferences, now)
            && (forall k :: 0 <= k < |table| && k != i ==> after[k] == table[k]))
      && (i == |table| ==> after == table + [saved] && saved == PreferencesRecord(None, freshId, userId, preferences, now))
  {
    var f := FirstIndex(table, p => OwnedBy(p, userId));
    i := if f.Some? then f.value else |table|;
  }

  /** The preferences a user gets before saving any. */
  function DefaultPreferences(userId: Value): Record {
    map["user_id" := userId, "theme" := Str("light"), "language" := Str("en"),
        "notifications" := Bool(true), "auto_save" := Bool(true)]
  }

  /** `i` is the position of the first record owned by `userId`. */
  predicate FirstOwned(table: seq<Record>, userId: Value, i: int) {
    0 <= i < |table| && OwnedBy(table[i], userId) && forall k :: 0 <= k < i ==> !OwnedBy(table[k], userId)
  }

  /** `getUserPreferences`: the user's first record, or the defaults. */
  function GetUserPreferencesIn(table: seq<Record>, userId: Value): (r: Record)
    ensures OwnedBy(r, userId)
    ensures forall i :: FirstOwned(table, userId, i) ==> r == table[i]
    ensures (forall k :: 0 <= k < |table| ==> !OwnedBy(table[k], userId)) ==> r == DefaultPreferences(userId)
  {
    match FirstIndex(table, p => OwnedBy(p, userId))
    case Some(i) => table[i]
    case None => DefaultPreferences(userId)
  }

  /** What was saved for a user is what is read back for that user. */
  lemma SavedPreferencesReadBack(table: seq<Record>, userId: Value, preferences: Record, freshId: Value, now: int)
    requires "user_id" !in preferences
    ensures var (saved, after) := (SaveUserPreferencesIn(table, userId, preferences, freshId, now).0, SaveUserPreferencesIn(table, userId, preferences, freshId, now).1);
      GetUserPreferencesIn(after, userId) == saved
  {
    var saved := SaveUserPreferencesIn(table, userId, preferences, freshId, now).0;
    var after := SaveUserPreferencesIn(table, userId, preferences, freshId, now).1;
    var i := SaveUserPreferencesSpec(table, userId, preferences, freshId, now);
    var g := FirstIndex(after, p => OwnedBy(p, userId));
    assert OwnedBy(after[i], userId);
    assert forall k :: 0 <= k < i ==> !OwnedBy(after[k], userId);
    assert g == Some(i);
  }

  /** Saving one user's preferences leaves what every other user reads unchanged. */
  lemma SavingLeavesOthers(table: seq<Record>, userId: Value, other: Value, preferences: Record, freshId: Value, now: int)
    requires "user_id" !in preferences && other != userId
    ensures GetUserPreferencesIn(SaveUserPreferencesIn(table, userId, preferences, freshId, now).1, other) ==
      GetUserPreferencesIn(table, other)
  {
    var saved := SaveUserPreferencesIn(table, userId, preferences, freshId, now).0;
    var after := SaveUserPreferencesIn(table, userId, preferences, freshId, now).1;
    var i := SaveUserPreferencesSpec(table, userId, preferences, freshId, now);
    assert !OwnedBy(saved, other);
    var owned := p => OwnedBy(p, other);
    assert forall k :: 0 <= k < |after| ==> (owned(after[k]) <==> k < |table| && owned(table[k]));
    FirstIndexAgree(table, after, owned);
    var f := FirstIndex(table, owned);
    if f.Some? {
      assert after[f.value] == table[f.value];
    }
  }

  // ---------------------------------------------------------------------
  // Messages
  // ---------------------------------------------------------------------

  predicate Sent(m: Record, from: Value, to: Value) {
    "sender_id" in m && m["sender_id"] == from && "receiver_id" in m && m["receiver_id"] == to
  }

  predicate Between(m: Record, a: Value, b: Value) { Sent(m, a, b) || Sent(m, b, a) }

  function OldestFirstKey(m: Record): int { -CreatedAt(m) }

  /** `getMessages(senderId, receiverId)`: the conversation in both directions, oldest first. */
  function GetMessagesIn(messages: seq<Record>, senderId: Value, receiverId: Value): seq<Record> {
    SortDesc(Filter(messages, m => Between(m, senderId, receiverId)), OldestFirstKey)
  }

  /**
   * The result is the whole conversation between the two users, each
   * message as often as it is stored, oldest first; it does not depend on
   * which of the two asks.
   */
  lemma GetMessagesSpec(messages: seq<Record>, a: Value, b: Value)
    ensures var r := GetMessagesIn(messages, a, b);
      && multiset(r) == multiset(Filter(messages, m => Between(m, a, b)))
      && (forall i :: 0 <= i < |r| ==> Between(r[i], a, b) && r[i] in messages)
      && (forall i, j :: 0 <= i < j < |r| ==> CreatedAt(r[i]) <= CreatedAt(r[j]))
      && r == GetMessagesIn(messages, b, a)
  {
    var conv := Filter(messages, m => Between(m, a, b));
    assert GetMessagesIn(messages, a, b) == SortDesc(conv, OldestFirstKey);
    MessagesBetween(messages, a, b);
    OldestFirst(conv);
    FilterSame(messages, m => Between(m, a, b), m => Between(m, b, a));
  }

  lemma MessagesBetween(messages: seq<Record>, a: Value, b: Value)
    ensures var r := GetMessagesIn(messages, a, b);
      forall i :: 0 <= i < |r| ==> Between(r[i], a, b) && r[i] in messages
  {
    var conv := Filter(messages, m => Between(m, a, b));
    var r := GetMessagesIn(messages, a, b);
    forall i | 0 <= i < |r| ensures Between(r[i], a, b) && r[i] in messages {
      assert r[i] in multiset(conv);
    }
  }

  lemma OldestFirst(s: seq<Record>)
    ensures var r := SortDesc(s, OldestFirstKey);
      forall i, j :: 0 <= i < j < |r| ==> CreatedAt(r[i]) <= CreatedAt(r[j])
  {
    var r := SortDesc(s, OldestFirstKey);
    SortDescSorted(s, OldestFirstKey);
    forall i, j | 0 <= i < j < |r| ensures CreatedAt(r[i]) <= CreatedAt(r[j]) {
      assert OldestFirstKey(r[i]) >= OldestFirstKey(r[j]);
    }
  }

  // ---------------------------------------------------------------------
  // The store
  // ---------------------------------------------------------------------

  class Database {
    var users: seq<Record>
    var messages: seq<Record>
    var onlineUsers: seq<Value>
    var calculationHistory: seq<Record>
    var userPreferences: seq<Record>

    /** The empty document. */
    constructor()
      ensures users == [] && messages == [] && onlineUsers == [] && calculationHistory == [] && userPreferences == []
    {
      users := [];
      messages := [];
      onlineUsers := [];
      calculationHistory := [];
      userPreferences := [];
    }

    /** `updateUser`, the update time given. */
    method UpdateUser(id: Value, updateData: Record, now: int) returns (updated: Option<Record>)
      modifies this`users
      ensures (updated, users) == UpdateUserIn(old(users), id, updateData, now)
    {
      var userIndex := FirstIndex(users, u => HasId(u, id));
      if userIndex.Some? {
        var i := userIndex.value;
        users := users[i := Overlay(users[i], updateData, now)];
        return Some(users[i]);
      }
      return None;
    }

    /** `addOnlineUser`. */
    method AddOnlineUser(userId: Value)
      modifies this`onlineUsers
      ensures onlineUsers == WithOnlineUser(old(onlineUsers), userId)
    {
      if userId !in onlineUsers {
        onlineUsers := onlineUsers + [userId];
      }
    }

    /** `removeOnlineUser`. */
    method RemoveOnlineUser(userId: Value)
      modifies this`onlineUsers
      ensures onlineUsers == WithoutOnlineUser(old(onlineUsers), userId)
    {
      onlineUsers := Filter(onlineUsers, id => id != userId);
    }

    /** `saveCalculation`, the new id and the time given. */
    method SaveCalculation(userId: Value, calculationData: Record, id: Value, now: int) returns (calculation: Record)
      modifies this`calculationHistory
      ensures calculation == NewCalculation(id, userId, calculationData, now)
      ensures calculationHistory == old(calculationHistory) + [calculation]
    {
      calculation := (map["id" := id, "user_id" := userId] + calculationData)["created_at" := Time(now)];
      calculationHistory := calculationHistory + [calculation];
    }

    /** `getCalculationHistory`. */
    function GetCalculationHistory(userId: Value, limit: int): (r: seq<Record>)
      reads this
      ensures forall i :: 0 <= i < |r| ==> OwnedBy(r[i], userId) && r[i] in calculationHistory
      ensures forall i, j :: 0 <= i < j < |r| ==> CreatedAt(r[i]) >= CreatedAt(r[j])
      ensures limit >= 0 ==> |r| == if limit < |Filter(calculationHistory, c => OwnedBy(c, userId))| then limit else |Filter(calculationHistory, c => OwnedBy(c, userId))|
      ensures multiset(r) <= multiset(Filter(calculationHistory, c => OwnedBy(c, userId)))
      ensures NoNewerLeftOut(multiset(Filter(calculationHistory, c => OwnedBy(c, userId))) - multiset(r), r)
      ensures limit >= |Filter(calculationHistory, c => OwnedBy(c, userId))| ==>
        multiset(r) == multiset(Filter(calculationHistory, c => OwnedBy(c, userId)))
    {
      CalculationHistorySpec(calculationHistory, userId, limit);
      CalculationHistoryIn(calculationHistory, userId, limit)
    }

    /** `deleteCalculation`. */
    method DeleteCalculation(calculationId: Value, userId: Value) returns (deleted: bool)
      modifies this`calculationHistory
      ensures (deleted, calculationHistory) == DeleteCalculationIn(old(calculationHistory), calculationId, userId)
    {
      var calcIndex := FirstIndex(calculationHistory, c => HasId(c, calculationId) && OwnedBy(c, userId));
      if calcIndex.Some? {
        var i := calcIndex.value;
        calculationHistory := calculationHistory[..i] + calculationHistory[i + 1..];
        return true;
      }
      return false;
    }

    /** `saveUserPreferences`, a fresh id and the time given. */
    method SaveUserPreferences(userId: Value, preferences: Record, freshId: Value, now: int) returns (userPrefs: Record)
      modifies this`userPreferences
      ensures (userPrefs, userPreferences) == SaveUserPreferencesIn(old(userPreferences), userId, preferences, freshId, now)
    {
      var existingIndex := FirstIndex(userPreferences, p => OwnedBy(p, userId));
      var existing := if existingIndex.Some? then Some(userPreferences[existingIndex.value]) else None;
      userPrefs := PreferencesRecord(existing, freshId, userId, preferences, now);
      if existingIndex.Some? {
        userPreferences := userPreferences[existingIndex.value := userPrefs];
      } else {
        userPreferences := userPreferences + [userPrefs];
      }
    }

    /** `getUserPreferences`. */
    function GetUserPreferences(userId: Value): (r: Record)
      reads this
      ensures OwnedBy(r, userId)
      ensures forall i :: FirstOwned(userPreferences, userId, i) ==> r == userPreferences[i]
      ensures (forall k :: 0 <= k < |userPreferences| ==> !OwnedBy(userPreferences[k], userId)) ==> r == DefaultPreferences(userId)
    {
      GetUserPreferencesIn(userPreferences, userId)
    }

    /** `getMessages`. */
    function GetMessages(senderId: Value, receiverId: Value): (r: seq<Record>)
      reads this
      ensures multiset(r) == multiset(Filter(messages, m => Between(m, senderId, receiverId)))
      ensures forall i :: 0 <= i < |r| ==> Between(r[i], senderId, receiverId) && r[i] in messages
      ensures forall i, j :: 0 <= i < j < |r| ==> CreatedAt(r[i]) <= CreatedAt(r[j])
    {
      GetMessagesSpec(messages, senderId, receiverId);
      GetMessagesIn(messages, senderId, receiverId)
    }
  }
}
