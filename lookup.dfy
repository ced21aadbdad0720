/** The upcoming-birthday lookup: the raw SQL query as a pure function over
    the tables, and the cache-aside protocol around it, with the cache as a
    map from key to stored result. */
module BirthdayLookup {
  import opened Wrappers
  import opened Dates
  import opened Schema

  /** A user row with the aggregated `contacts` column of the query. */
  datatype UserWithContacts = UserWithContacts(user: User, contacts: seq<Contact>)

  /** The inner join with `MessagePreferences` and the WHERE clause: some
      preferences row of the user enables `daysAhead`. */
  predicate Subscribed(db: Db, userId: UserId, daysAhead: int)
  {
    exists i :: 0 <= i < |db.prefs| && db.prefs[i].userId == userId && Enabled(db.prefs[i], daysAhead)
  }

  /** `filtered_contacts` joined to one user: that user's contacts whose
      birthday falls on the target's month and day, in any year. */
  function ContactsOn(cs: seq<Contact>, userId: UserId, target: Date): (r: seq<Contact>)
    ensures forall c :: c in r <==> c in cs && c.userId == userId && SameMonthDay(c.birthday, target)
    ensures |r| <= |cs|
  {
    if cs == [] then []
    else
      (if cs[0].userId == userId && SameMonthDay(cs[0].birthday, target) then [cs[0]] else [])
        + ContactsOn(cs[1..], userId, target)
  }

  /** The query restricted to the rows of `users`, grouped by user. */
  function QueryUsers(users: seq<User>, db: Db, daysAhead: int, target: Date): (r: seq<UserWithContacts>)
    ensures |r| <= |users|
    ensures forall e :: e in r ==>
      e.user in users && Subscribed(db, e.user.id, daysAhead)
      && e.contacts == ContactsOn(db.contacts, e.user.id, target)
    ensures forall u :: u in users && Subscribed(db, u.id, daysAhead) ==>
      UserWithContacts(u, ContactsOn(db.contacts, u.id, target)) in r
  {
    if users == [] then []
    else
      var rest := QueryUsers(users[1..], db, daysAhead, target);
      if Subscribed(db, users[0].id, daysAhead)
      then [UserWithContacts(users[0], ContactsOn(db.contacts, users[0].id, target))] + rest
      else rest
  }

  /** The raw query of the lookup: every user whose preferences enable
      `daysAhead`, with the contacts whose birthday's month and day are the
      target's (an empty list when there are none). */
  function BirthdayQuery(db: Db, daysAhead: int, target: Date): (r: seq<UserWithContacts>)
  {
    QueryUsers(db.users, db, daysAhead, target)
  }

  /** Every returned user has an enabling preferences row, and every returned
      contact is that user's and falls on the target's month and day. */
  lemma QuerySound(db: Db, daysAhead: int, target: Date)
    ensures forall e :: e in BirthdayQuery(db, daysAhead, target) ==>
      && e.user in db.users
      && (exists p :: p in db.prefs && p.userId == e.user.id && Enabled(p, daysAhead))
      && forall c :: c in e.contacts ==>
           c in db.contacts && c.userId == e.user.id && SameMonthDay(c.birthday, target)
  {
    forall e | e in BirthdayQuery(db, daysAhead, target)
      ensures exists p :: p in db.prefs && p.userId == e.user.id && Enabled(p, daysAhead)
    {
      var i :| 0 <= i < |db.prefs| && db.prefs[i].userId == e.user.id && Enabled(db.prefs[i], daysAhead);
      assert db.prefs[i] in db.prefs;
    }
  }

  /** Every user with an enabling preferences row is returned, with all of
      their contacts that fall on the target's month and day; a user without
      such contacts comes back with an empty list. */
  lemma QueryComplete(db: Db, daysAhead: int, target: Date, u: User)
    requires u in db.users
    requires exists p :: p in db.prefs && p.userId == u.id && Enabled(p, daysAhead)
    ensures exists e :: (e in BirthdayQuery(db, daysAhead, target) && e.user == u
      && forall c :: c in e.contacts <==> c in db.contacts && c.userId == u.id && SameMonthDay(c.birthday, target))
    ensures (forall c :: c in db.contacts && c.userId == u.id ==> !SameMonthDay(c.birthday, target)) ==>
      UserWithContacts(u, []) in BirthdayQuery(db, daysAhead, target)
  {
    var p :| p in db.prefs && p.userId == u.id && Enabled(p, daysAhead);
    var i :| 0 <= i < |db.prefs| && db.prefs[i] == p;
    assert Subscribed(db, u.id, daysAhead);
    var e := UserWithContacts(u, ContactsOn(db.contacts, u.id, target));
    assert e in BirthdayQuery(db, daysAhead, target);
    var cs := ContactsOn(db.contacts, u.id, target);
    assert |cs| > 0 ==> cs[0] in cs;
  }

  /** A user without a preferences row is never returned. */
  lemma QueryNeedsPreferences(db: Db, daysAhead: int, target: Date, u: User)
    requires forall p :: p in db.prefs ==> p.userId != u.id
    ensures forall e :: e in BirthdayQuery(db, daysAhead, target) ==> e.user != u
  {
    forall e | e in BirthdayQuery(db, daysAhead, target) ensures e.user != u {
      var i :| 0 <= i < |db.prefs| && db.prefs[i].userId == e.user.id && Enabled(db.prefs[i], daysAhead);
      assert db.prefs[i] in db.prefs;
    }
  }

  /** A lead time without a flag matches no row: the query is empty. */
  lemma QueryUnsupportedLeadTime(db: Db, daysAhead: int, target: Date)
    requires !IsLeadTime(daysAhead)
    ensures BirthdayQuery(db, daysAhead, target) == []
  {
    NobodySubscribed(db.users, db, daysAhead, target);
  }

  lemma {:induction false} NobodySubscribed(users: seq<User>, db: Db, daysAhead: int, target: Date)
    requires forall i :: 0 <= i < |users| ==> !Subscribed(db, users[i].id, daysAhead)
    ensures QueryUsers(users, db, daysAhead, target) == []
  {
    if users != [] {
      NobodySubscribed(users[1..], db, daysAhead, target);
    }
  }

  /** No user appears twice in a result. */
  predicate DistinctUsers(r: seq<UserWithContacts>)
  {
    forall i, j :: 0 <= i < j < |r| ==> r[i].user.id != r[j].user.id
  }

  lemma ConsDistinct(h: UserWithContacts, rest: seq<UserWithContacts>)
    requires DistinctUsers(rest)
    requires forall m :: 0 <= m < |rest| ==> rest[m].user.id != h.user.id
    ensures DistinctUsers([h] + rest)
  {
    var r := [h] + rest;
    forall i, j | 0 <= i < j < |r| ensures r[i].user.id != r[j].user.id {
      assert r[j] == rest[j - 1];
      if i > 0 { assert r[i] == rest[i - 1]; }
    }
  }

  /** Grouping by user id returns each user at most once. */
  lemma {:induction false} QueryUsersDistinct(users: seq<User>, db: Db, daysAhead: int, target: Date)
    requires UniqueUserIds(users)
    ensures DistinctUsers(QueryUsers(users, db, daysAhead, target))
  {
    if users != [] {
      var tail := users[1..];
      assert UniqueUserIds(tail);
      QueryUsersDistinct(tail, db, daysAhead, target);
      HeadNotInRest(users, db, daysAhead, target);
      if Subscribed(db, users[0].id, daysAhead) {
        ConsDistinct(UserWithContacts(users[0], ContactsOn(db.contacts, users[0].id, target)),
                     QueryUsers(tail, db, daysAhead, target));
      }
    }
  }

  lemma HeadNotInRest(users: seq<User>, db: Db, daysAhead: int, target: Date)
    requires UniqueUserIds(users) && users != []
    ensures var rest := QueryUsers(users[1..], db, daysAhead, target);
      forall m :: 0 <= m < |rest| ==> rest[m].user.id != users[0].id
  {
    var tail := users[1..];
    var rest := QueryUsers(tail, db, daysAhead, target);
    forall m | 0 <= m < |rest| ensures rest[m].user.id != users[0].id {
      assert rest[m] in rest;
      var k :| 0 <= k < |tail| && tail[k] == rest[m].user;
      assert users[k + 1] == rest[m].user;
    }
  }

  // ---- Cache-aside ----

  /** The cache, as the map from key to the stored (serialised) result. */
  type Cache = map<string, seq<UserWithContacts>>

  /** The prefix of every cache key. */
  const KeyPrefix: string := "birthdays:"

  /** `birthdays:YYYY-MM-DD` of the target date; the lead time takes part
      only through the date. */
  function CacheKey(target: Date): string
    requires Valid(target)
  {
    KeyPrefix + Format(target)
  }

  /** Distinct dates have distinct keys. */
  lemma CacheKeyInjective(a: Date, b: Date)
    requires Valid(a) && Valid(b)
    requires CacheKey(a) == CacheKey(b)
    ensures a == b
  {
    assert Format(a) == CacheKey(a)[10..];
    assert Format(b) == CacheKey(b)[10..];
    FormatInjective(a, b);
  }

  /** The outcome of a lookup: the users returned, the cache afterwards, and
      whether the primary store was queried. */
  datatype Fetch = Fetch(users: seq<UserWithContacts>, cache: Cache, queried: bool)

  /** fetchUsersWithBirthdays: the cached value under the target date's key
      if there is one, otherwise the query's result, written under that key. */
  function Lookup(cache: Cache, db: Db, today: Date, daysAhead: nat): (f: Fetch)
    requires Valid(today)
  {
    var target := AddDays(today, daysAhead);
    var key := CacheKey(target);
    if key in cache then Fetch(cache[key], cache, false)
    else
      var users := BirthdayQuery(db, daysAhead, target);
      Fetch(users, cache[key := users], true)
  }

  /** A hit returns the stored value, does not query the store and leaves
      the cache as it was. */
  lemma LookupHit(cache: Cache, db: Db, today: Date, daysAhead: nat)
    requires Valid(today)
    requires CacheKey(AddDays(today, daysAhead)) in cache
    ensures Lookup(cache, db, today, daysAhead)
         == Fetch(cache[CacheKey(AddDays(today, daysAhead))], cache, false)
  {
  }

  /** A miss queries the store once, returns the query's result and stores
      it under the key, touching no other key. */
  lemma LookupMiss(cache: Cache, db: Db, today: Date, daysAhead: nat)
    requires Valid(today)
    requires CacheKey(AddDays(today, daysAhead)) !in cache
    ensures var target := AddDays(today, daysAhead);
      var f := Lookup(cache, db, today, daysAhead);
      && f.queried
      && f.users == BirthdayQuery(db, daysAhead, target)
      && f.cache.Keys == cache.Keys + {CacheKey(target)}
      && f.cache[CacheKey(target)] == f.users
      && forall k :: k in cache ==> f.cache[k] == cache[k]
  {
  }

  /** Looking the same date up again right away hits, returns an equal
      value, and does not query the store. */
  lemma LookupTwice(cache: Cache, db: Db, db': Db, today: Date, daysAhead: nat)
    requires Valid(today)
    ensures var first := Lookup(cache, db, today, daysAhead);
      Lookup(first.cache, db', today, daysAhead) == Fetch(first.users, first.cache, false)
  {
  }

  /** The key leaves the lead time out, so a hit returns what was stored for
      the date even when it was computed for another lead time: a result
      stored for tomorrow with lead time 1 is returned tomorrow for lead
      time 0, although the query for lead time 0 would return nobody. */
  lemma StaleHitAcrossLeadTimes()
    ensures var today := Date(2024, 5, 3);
      var tomorrow := Date(2024, 5, 4);
      var u := User("u1", None, "+15550100", Some(true), "UTC", None, None);
      var db := Db([u], [], [MessagePreferences(1, false, true, false, false, false, "u1")], 0, 2);
      var first := Lookup(map[], db, today, 1);
      var second := Lookup(first.cache, db, tomorrow, 0);
      && first.users == [UserWithContacts(u, [])]
      && second.users == [UserWithContacts(u, [])]
      && BirthdayQuery(db, 0, tomorrow) == []
  {
    var today := Date(2024, 5, 3);
    var tomorrow := Date(2024, 5, 4);
    var u := User("u1", None, "+15550100", Some(true), "UTC", None, None);
    var p := MessagePreferences(1, false, true, false, false, false, "u1");
    var db := Db([u], [], [p], 0, 2);
    assert AddDays(today, 1) == tomorrow;
    assert AddDays(tomorrow, 0) == tomorrow;
    assert Subscribed(db, "u1", 1) by { assert db.prefs[0] == p; }
    assert !Subscribed(db, "u1", 0);
    assert BirthdayQuery(db, 1, tomorrow) == [UserWithContacts(u, [])];
  }

  /** The lookup service: the cache connection and a count of the queries
      sent to the primary store. */
  class DataService {
    var cache: Cache
    var queries: nat

    /** getCachedBirthdays: the parsed value under the key, or null. */
    method GetCachedBirthdays(dateKey: string) returns (r: Option<seq<UserWithContacts>>)
      ensures r.Some? <==> dateKey in cache
      ensures r.Some? ==> r.value == cache[dateKey]
    {
      if dateKey in cache {
        r := Some(cache[dateKey]);
      } else {
        r := None;
      }
    }

    /** fetchUsersWithBirthdays, for the day `today` of the server clock. */
    method FetchUsersWithBirthdays(db: Db, today: Date, daysAhead: nat) returns (users: seq<UserWithContacts>)
      requires Valid(today)
      modifies this
      ensures var f := Lookup(old(cache), db, today, daysAhead);
        && users == f.users
        && cache == f.cache
        && queries == old(queries) + (if f.queried then 1 else 0)
    {
      var target := AddDays(today, daysAhead);
      var dateKey := CacheKey(target);
      var cached := GetCachedBirthdays(dateKey);
      if cached.None? {
        users := BirthdayQuery(db, daysAhead, target);
        queries := queries + 1;
        cache := cache[dateKey := users];
      } else {
        users := cached.value;
      }
    }
  }
}
