/** The URL record of api/models/url.go and the unique index the
    collection declares on `short_code`. The collection is an in-memory
    table from short code to record; MongoDB's default unique index on
    `_id` is kept as well, because the redirect handler updates by `_id`. */
module Models {

  import opened Wrappers

  /** Go's `int64`, the type of the click counter. */
  newtype int64 = x: int | -0x8000_0000_0000_0000 <= x < 0x8000_0000_0000_0000

  const MaxInt64: int64 := 0x7FFF_FFFF_FFFF_FFFF

  /** A `primitive.ObjectID`, abstracted to a number. */
  type ObjectId = nat

  /** A `time.Time`, abstracted to an instant on an integer clock. */
  type Time = int

  /** One shortened URL. `ExpiresAt`, `UserID` and `LastClickedAt` are
      pointers in Go and may be absent; the other fields are always there. */
  datatype URL = URL(
    id: ObjectId,
    shortCode: string,
    shortURL: string,
    longURL: string,
    createdAt: Time,
    expiresAt: Option<Time>,
    userId: Option<ObjectId>,
    clicks: int64,
    lastClickedAt: Option<Time>)

  /** The collection: at most one record per short code, which is how the
      unique index on `short_code` is represented. */
  type Table = map<string, URL>

  /** The collection's indexes hold: every record sits under its own short
      code (so no two records share one) and no two records share an `_id`. */
  ghost predicate Indexed(table: Table) {
    && (forall c :: c in table ==> table[c].shortCode == c)
    && (forall c, d :: c in table && d in table && c != d ==> table[c].id != table[d].id)
  }

  predicate IdInUse(table: Table, id: ObjectId) {
    exists c :: c in table && table[c].id == id
  }

  /** A record as the shorten handler builds it: the given fields, no clicks
      yet, never clicked, and no expiry or owner. */
  function NewURL(id: ObjectId, shortCode: string, shortURL: string, longURL: string, now: Time): (u: URL)
    ensures u.id == id && u.shortCode == shortCode && u.shortURL == shortURL
    ensures u.longURL == longURL && u.createdAt == now
    ensures u.clicks == 0 && u.lastClickedAt.None?
    ensures u.expiresAt.None? && u.userId.None?
  {
    URL(id, shortCode, shortURL, longURL, now, None, None, 0, None)
  }

  /** `InsertOne` against the unique indexes: a record whose short code or
      `_id` is already taken is rejected and the table is left as it was. */
  function InsertOne(table: Table, u: URL): (r: Option<Table>)
    ensures r.None? <==> u.shortCode in table || IdInUse(table, u.id)
    ensures r.Some? ==> r.value == table[u.shortCode := u]
  {
    if u.shortCode in table || IdInUse(table, u.id) then None
    else Some(table[u.shortCode := u])
  }

  /** An accepted insert keeps both indexes intact. */
  lemma InsertKeepsIndexed(table: Table, u: URL)
    requires Indexed(table)
    requires InsertOne(table, u).Some?
    ensures Indexed(InsertOne(table, u).value)
    ensures InsertOne(table, u).value.Keys == table.Keys + {u.shortCode}
    ensures |InsertOne(table, u).value| == |table| + 1
  {
  }

  /** A second record with a short code already in the table is rejected,
      whatever its other fields. */
  lemma DuplicateCodeRejected(table: Table, u: URL, v: URL)
    requires InsertOne(table, u).Some?
    requires v.shortCode == u.shortCode
    ensures InsertOne(InsertOne(table, u).value, v).None?
  {
  }

  /** No record present in both states of the table has fewer clicks in
      the second. */
  ghost predicate ClicksNeverDecrease(before: Table, after: Table) {
    forall c :: c in before && c in after ==> before[c].clicks <= after[c].clicks
  }

  /** The record after one recorded redirect: one more click, the click
      time set, every other field as it was. */
  function Clicked(u: URL, now: Time): (v: URL)
    requires u.clicks < MaxInt64
    ensures v.clicks as int == u.clicks as int + 1
    ensures v.lastClickedAt == Some(now)
    ensures v.(clicks := u.clicks, lastClickedAt := u.lastClickedAt) == u
  {
    u.(clicks := u.clicks + 1, lastClickedAt := Some(now))
  }

  /** The record after a redirect at each instant of `times`, in order;
      the count saturates where the int64 update would be refused. */
  function ClickedAt(u: URL, times: seq<Time>): URL
    decreases |times|
  {
    if times == [] then u
    else
      var v := if u.clicks < MaxInt64 then Clicked(u, times[0]) else u;
      ClickedAt(v, times[1..])
  }

  /** N redirects of a fresh record give N clicks and the time of the last
      one. */
  lemma {:induction false} ClicksCountRedirects(u: URL, times: seq<Time>)
    requires u.clicks == 0 && u.lastClickedAt.None?
    requires |times| < MaxInt64 as int
    ensures ClickedAt(u, times).clicks as int == |times|
    ensures times != [] ==> ClickedAt(u, times).lastClickedAt == Some(times[|times| - 1])
    ensures times == [] ==> ClickedAt(u, times).lastClickedAt.None?
    ensures ClickedAt(u, times).(clicks := 0, lastClickedAt := None) == u
  {
    ClickedAtGeneral(u, times);
  }

  lemma {:induction false} ClickedAtGeneral(u: URL, times: seq<Time>)
    requires u.clicks >= 0 && u.clicks as int + |times| <= MaxInt64 as int
    ensures ClickedAt(u, times).clicks as int == u.clicks as int + |times|
    ensures times != [] ==> ClickedAt(u, times).lastClickedAt == Some(times[|times| - 1])
    ensures times == [] ==> ClickedAt(u, times).lastClickedAt == u.lastClickedAt
    ensures ClickedAt(u, times).(clicks := u.clicks, lastClickedAt := u.lastClickedAt) == u
    decreases |times|
  {
    if times != [] {
      var v := Clicked(u, times[0]);
      ClickedAtGeneral(v, times[1..]);
      if |times| > 1 {
        assert times[1..][|times[1..]| - 1] == times[|times| - 1];
      }
    }
  }
}
