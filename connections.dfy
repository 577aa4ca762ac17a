/**
 * The `platform_connections` table as the server's storage layer uses it
 * (server/storage.ts): the rows of one user, the `.single()` lookup of one
 * (user, platform) row, the upsert of `savePlatformConnection` with its `??`
 * fallback to the stored values, and `deletePlatformConnection`.
 *
 * The table is a sequence of rows in table order; `nextId` is the next value
 * of the serial `id` column.
 */
module Connections {
  import opened Wrappers
  import opened Json
  import opened Schema

  predicate Matches(c: PlatformConnection, userId: int, platform: string) {
    c.userId == userId && c.platform == platform
  }

  /** `.eq('user_id', userId)`: the user's rows, in table order. */
  function OfUser(conns: seq<PlatformConnection>, userId: int): (r: seq<PlatformConnection>)
    ensures forall c :: c in r <==> c in conns && c.userId == userId
    ensures |r| <= |conns|
  {
    if conns == [] then []
    else (if conns[0].userId == userId then [conns[0]] else []) + OfUser(conns[1..], userId)
  }

  /** How many rows a `(user, platform)` query selects. */
  function CountMatching(conns: seq<PlatformConnection>, userId: int, platform: string): nat {
    if conns == [] then 0
    else (if Matches(conns[0], userId, platform) then 1 else 0) + CountMatching(conns[1..], userId, platform)
  }

  /** The first row a `(user, platform)` query selects. */
  function FirstMatching(conns: seq<PlatformConnection>, userId: int, platform: string): (c: PlatformConnection)
    requires CountMatching(conns, userId, platform) > 0
    ensures c in conns && Matches(c, userId, platform)
  {
    if Matches(conns[0], userId, platform) then conns[0] else FirstMatching(conns[1..], userId, platform)
  }

  /**
   * `getPlatformConnection`: `.single()` answers with the row when exactly one
   * row matches and with an error otherwise, which the method turns into
   * `undefined` (here `None`).
   */
  function FindConnection(conns: seq<PlatformConnection>, userId: int, platform: string): (r: Option<PlatformConnection>)
    ensures r.Some? <==> CountMatching(conns, userId, platform) == 1
    ensures r.Some? ==> r.value in conns && Matches(r.value, userId, platform)
  {
    if CountMatching(conns, userId, platform) == 1 then Some(FirstMatching(conns, userId, platform)) else None
  }

  // ------------------------------------------------------------ invariant

  /** At most one row per (user, platform). */
  predicate OnePerPlatform(conns: seq<PlatformConnection>) {
    forall i, j :: 0 <= i < j < |conns| ==>
      !Matches(conns[j], conns[i].userId, conns[i].platform)
  }

  /** Serial ids: distinct, and all below the next one to be handed out. */
  predicate SerialIds(conns: seq<PlatformConnection>, nextId: int) {
    (forall i :: 0 <= i < |conns| ==> conns[i].id < nextId)
    && (forall i, j :: 0 <= i < j < |conns| ==> conns[i].id != conns[j].id)
  }

  predicate TableInvariant(conns: seq<PlatformConnection>, nextId: int) {
    OnePerPlatform(conns) && SerialIds(conns, nextId)
  }

  // ------------------------------------------------------------ upsert

  /** `incoming ?? stored` for a nullable column. */
  function OrElse<T>(incoming: Option<T>, stored: Option<T>): Option<T> {
    if incoming.Some? then incoming else stored
  }

  /** `incoming ?? stored` for the JSON `metadata` column, where a JSON null is nullish too. */
  function MetadataOr(incoming: Option<Json>, stored: Json): (r: Json)
    ensures incoming.Some? && incoming.value != JNull ==> r == incoming.value
    ensures incoming.None? || incoming.value == JNull ==> r == stored
  {
    if incoming.Some? && incoming.value != JNull then incoming.value else stored
  }

  /** The row the update writes for `existing`: a new access token, every other column by `??`. */
  function Updated(existing: PlatformConnection, input: ConnectionInput): PlatformConnection {
    existing.(
      accessToken := input.accessToken,
      refreshToken := OrElse(input.refreshToken, existing.refreshToken),
      expiresAt := OrElse(input.expiresAt, existing.expiresAt),
      accountId := OrElse(input.accountId, existing.accountId),
      accountName := OrElse(input.accountName, existing.accountName),
      metadata := MetadataOr(input.metadata, existing.metadata))
  }

  /** The row the insert creates: absent columns become null, absent metadata `{}`. */
  function Inserted(input: ConnectionInput, id: int): PlatformConnection {
    PlatformConnection(id, input.userId, input.platform, input.accessToken,
      input.refreshToken, input.expiresAt, input.accountId, input.accountName,
      MetadataOr(input.metadata, JObj(map[])))
  }

  /** `update(...).eq('id', existing.id)` */
  function UpdateById(conns: seq<PlatformConnection>, existing: PlatformConnection, input: ConnectionInput): (r: seq<PlatformConnection>)
    ensures |r| == |conns|
  {
    seq(|conns|, i requires 0 <= i < |conns| =>
      if conns[i].id == existing.id then Updated(existing, input) else conns[i])
  }

  /**
   * `savePlatformConnection`: the new table and the row returned. An existing
   * row is updated in place by id, otherwise one row is appended with id
   * `nextId`.
   */
  function Upsert(conns: seq<PlatformConnection>, input: ConnectionInput, nextId: int): (seq<PlatformConnection>, PlatformConnection) {
    match FindConnection(conns, input.userId, input.platform)
    case Some(existing) => (UpdateById(conns, existing, input), Updated(existing, input))
    case None => (conns + [Inserted(input, nextId)], Inserted(input, nextId))
  }

  /** The serial value after an upsert: advanced only by an insert. */
  function NextIdAfter(conns: seq<PlatformConnection>, input: ConnectionInput, nextId: int): int {
    if FindConnection(conns, input.userId, input.platform).Some? then nextId else nextId + 1
  }

  // ------------------------------------------------------------ delete

  /** `deletePlatformConnection`: drop the rows of (user, platform). */
  function Removed(conns: seq<PlatformConnection>, userId: int, platform: string): (r: seq<PlatformConnection>)
    ensures forall c :: c in r <==> c in conns && !Matches(c, userId, platform)
    ensures |r| == |conns| - CountMatching(conns, userId, platform)
  {
    if conns == [] then []
    else (if Matches(conns[0], userId, platform) then [] else [conns[0]]) + Removed(conns[1..], userId, platform)
  }

  // ------------------------------------------------------------ properties

  lemma {:induction false} CountZero(conns: seq<PlatformConnection>, userId: int, platform: string)
    ensures CountMatching(conns, userId, platform) == 0 <==>
      forall i :: 0 <= i < |conns| ==> !Matches(conns[i], userId, platform)
  {
    if conns != [] {
      CountZero(conns[1..], userId, platform);
      assert forall i :: 1 <= i < |conns| ==> conns[i] == conns[1..][i - 1];
    }
  }

  /** Under the invariant a query selects at most one row, and the row at any matching index is the one found. */
  lemma {:induction false} FindUnique(conns: seq<PlatformConnection>, k: int)
    requires OnePerPlatform(conns)
    requires 0 <= k < |conns|
    ensures FindConnection(conns, conns[k].userId, conns[k].platform) == Some(conns[k])
  {
    var u, p := conns[k].userId, conns[k].platform;
    if k == 0 {
      CountZero(conns[1..], u, p);
      assert forall i :: 0 <= i < |conns[1..]| ==> conns[1..][i] == conns[i + 1];
    } else {
      assert conns[1..][k - 1] == conns[k];
      assert OnePerPlatform(conns[1..]) by {
        forall i, j | 0 <= i < j < |conns[1..]|
          ensures !Matches(conns[1..][j], conns[1..][i].userId, conns[1..][i].platform)
        {
          assert conns[1..][i] == conns[i + 1] && conns[1..][j] == conns[j + 1];
        }
      }
      FindUnique(conns[1..], k - 1);
      assert !Matches(conns[0], u, p);
    }
  }

  /** Under the invariant a missing row means no row matches at all. */
  lemma NoneMeansAbsent(conns: seq<PlatformConnection>, userId: int, platform: string)
    requires OnePerPlatform(conns)
    requires FindConnection(conns, userId, platform).None?
    ensures forall i :: 0 <= i < |conns| ==> !Matches(conns[i], userId, platform)
  {
    forall i | 0 <= i < |conns| ensures !Matches(conns[i], userId, platform) {
      if Matches(conns[i], userId, platform) {
        FindUnique(conns, i);
      }
    }
  }

  /** The index of the row an update rewrites. */
  lemma IndexOf(conns: seq<PlatformConnection>, c: PlatformConnection) returns (k: int)
    requires c in conns
    ensures 0 <= k < |conns| && conns[k] == c
  {
    k :| 0 <= k < |conns| && conns[k] == c;
  }

  /**
   * Upserting keeps at most one row per (user, platform) and keeps the serial
   * ids distinct, so only this method ever writing the table never creates a
   * second row for a platform.
   */
  lemma UpsertKeepsInvariant(conns: seq<PlatformConnection>, input: ConnectionInput, nextId: int)
    requires TableInvariant(conns, nextId)
    ensures TableInvariant(Upsert(conns, input, nextId).0, NextIdAfter(conns, input, nextId))
  {
    var u, p := input.userId, input.platform;
    match FindConnection(conns, u, p)
    case Some(existing) =>
      var k := IndexOf(conns, existing);
      var after := UpdateById(conns, existing, input);
      assert forall i :: 0 <= i < |conns| && i != k ==> after[i] == conns[i];
      assert after[k] == Updated(existing, input);
    case None =>
      NoneMeansAbsent(conns, u, p);
      var after := conns + [Inserted(input, nextId)];
      assert forall i :: 0 <= i < |conns| ==> after[i] == conns[i];
  }

  /**
   * Saving then reading (user, platform) gives the saved row. Its access token
   * is the incoming one; every other column is the incoming value unless that
   * is null or absent, in which case it is the stored row's value, or null
   * (`{}` for metadata) when there was no stored row. An update keeps the
   * row's id; an insert takes the next serial id.
   */
  lemma SaveThenFind(conns: seq<PlatformConnection>, input: ConnectionInput, nextId: int)
    requires TableInvariant(conns, nextId)
    ensures var (after, saved) := Upsert(conns, input, nextId);
      var before := FindConnection(conns, input.userId, input.platform);
      FindConnection(after, input.userId, input.platform) == Some(saved)
      && saved.userId == input.userId && saved.platform == input.platform
      && saved.accessToken == input.accessToken
      && saved.refreshToken == (if input.refreshToken.Some? then input.refreshToken else if before.Some? then before.value.refreshToken else None)
      && saved.expiresAt == (if input.expiresAt.Some? then input.expiresAt else if before.Some? then before.value.expiresAt else None)
      && saved.accountId == (if input.accountId.Some? then input.accountId else if before.Some? then before.value.accountId else None)
      && saved.accountName == (if input.accountName.Some? then input.accountName else if before.Some? then before.value.accountName else None)
      && saved.metadata == MetadataOr(input.metadata, if before.Some? then before.value.metadata else JObj(map[]))
      && saved.id == (if before.Some? then before.value.id else nextId)
  {
    var u, p := input.userId, input.platform;
    UpsertKeepsInvariant(conns, input, nextId);
    var (after, saved) := Upsert(conns, input, nextId);
    match FindConnection(conns, u, p)
    case Some(existing) =>
      var k := IndexOf(conns, existing);
      assert after[k] == saved;
      FindUnique(after, k);
    case None =>
      assert after[|conns|] == saved;
      FindUnique(after, |conns|);
  }

  /** Saving leaves every row of another (user, platform) exactly as it was, and adds a row only when none existed. */
  lemma SaveLeavesOthers(conns: seq<PlatformConnection>, input: ConnectionInput, nextId: int)
    requires TableInvariant(conns, nextId)
    ensures var after := Upsert(conns, input, nextId).0;
      (forall c :: c in conns && !Matches(c, input.userId, input.platform) ==> c in after)
      && (forall c :: c in after && !Matches(c, input.userId, input.platform) ==> c in conns)
      && |after| == |conns| + (if FindConnection(conns, input.userId, input.platform).Some? then 0 else 1)
  {
    var u, p := input.userId, input.platform;
    var after := Upsert(conns, input, nextId).0;
    match FindConnection(conns, u, p)
    case Some(existing) =>
      forall c | c in conns && !Matches(c, u, p) ensures c in after {
        var i := IndexOf(conns, c);
        assert conns[i].id != existing.id by {
          var k := IndexOf(conns, existing);
          assert i != k;
        }
        assert after[i] == c;
      }
      forall c | c in after && !Matches(c, u, p) ensures c in conns {
        var i := IndexOf(after, c);
        assert conns[i].id != existing.id;
      }
    case None =>
  }

  lemma {:induction false} RemovedCount(conns: seq<PlatformConnection>, userId: int, platform: string, u: int, p: string)
    requires userId != u || platform != p
    ensures CountMatching(Removed(conns, userId, platform), u, p) == CountMatching(conns, u, p)
    ensures CountMatching(conns, u, p) > 0 ==>
      FirstMatching(Removed(conns, userId, platform), u, p) == FirstMatching(conns, u, p)
  {
    if conns != [] {
      RemovedCount(conns[1..], userId, platform, u, p);
      var rest := Removed(conns[1..], userId, platform);
      if Matches(conns[0], userId, platform) {
        assert Removed(conns, userId, platform) == rest;
      } else {
        assert Removed(conns, userId, platform) == [conns[0]] + rest;
        assert ([conns[0]] + rest)[1..] == rest;
      }
    }
  }

  /**
   * After `deletePlatformConnection(u, p)` no row of (u, p) is found, every
   * other (user, platform) reads exactly as before, and the invariant holds.
   */
  lemma DeleteThenFind(conns: seq<PlatformConnection>, nextId: int, userId: int, platform: string, u: int, p: string)
    requires TableInvariant(conns, nextId)
    ensures FindConnection(Removed(conns, userId, platform), userId, platform) == None
    ensures userId != u || platform != p ==>
      FindConnection(Removed(conns, userId, platform), u, p) == FindConnection(conns, u, p)
    ensures TableInvariant(Removed(conns, userId, platform), nextId)
  {
    var r := Removed(conns, userId, platform);
    CountZero(r, userId, platform);
    if userId != u || platform != p {
      RemovedCount(conns, userId, platform, u, p);
    }
    RemovedInvariant(conns, nextId, userId, platform);
  }

  lemma {:induction false} RemovedInvariant(conns: seq<PlatformConnection>, nextId: int, userId: int, platform: string)
    requires TableInvariant(conns, nextId)
    ensures TableInvariant(Removed(conns, userId, platform), nextId)
  {
    if conns != [] {
      assert TableInvariant(conns[1..], nextId) by {
        assert forall i :: 0 <= i < |conns[1..]| ==> conns[1..][i] == conns[i + 1];
      }
      RemovedInvariant(conns[1..], nextId, userId, platform);
      if !Matches(conns[0], userId, platform) {
        ConsInvariant(conns, Removed(conns[1..], userId, platform), nextId);
      }
    }
  }

  /** The first row of a table in front of any invariant subset of the other rows keeps the invariant. */
  lemma ConsInvariant(conns: seq<PlatformConnection>, rest: seq<PlatformConnection>, nextId: int)
    requires conns != []
    requires TableInvariant(conns, nextId) && TableInvariant(rest, nextId)
    requires forall c :: c in rest ==> c in conns[1..]
    ensures TableInvariant([conns[0]] + rest, nextId)
  {
    var r := [conns[0]] + rest;
    forall j | 0 < j < |r| ensures !Matches(r[j], r[0].userId, r[0].platform) && r[0].id != r[j].id {
      assert r[j] in rest;
      var i := IndexOf(conns[1..], r[j]);
      assert conns[i + 1] == r[j];
    }
    assert forall j :: 0 < j < |r| ==> r[j] == rest[j - 1];
  }
}
