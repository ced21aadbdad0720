/** The tool handlers the agent calls: each changes one kind of row in the
    store and returns a short confirmation. The pure `...Effect` functions say
    what each handler does to a snapshot of the store; the `Store` class
    performs the same updates in place. */
module AgentTools {
  import opened Wrappers
  import opened Text
  import opened Dates
  import opened Schema

  /** `{ type: 'tool_result', output }`, what every handler returns. */
  datatype ToolResult = ToolResult(output: string)

  /** The `input` object a handler reads its fields from. A property the
      object does not have reads as `undefined`, here `None`. */
  datatype ToolArgs = ToolArgs(
    name: Option<string>,
    birthday: Option<string>,
    newBirthday: Option<string>,
    timezone: Option<string>,
    cadence: Option<seq<int>>)

  /** What a handler reads from a JSON text handed over as its `input`: a
      string has none of these properties. */
  const Undecoded: ToolArgs := ToolArgs(None, None, None, None, None)

  const UndefinedText: string := "undefined"

  /** A template literal writes an undefined value as `undefined`. */
  function Shown(v: Option<string>): string
  {
    if v.Some? then v.value else UndefinedText
  }

  /** `new Date(v)`: an undefined value gives an invalid date. */
  function ParseArg(v: Option<string>): Option<Date>
  {
    if v.Some? then Parse(v.value) else None
  }

  const NameField: string := "name"
  const IncludesName: string := "includes"

  /** What a handler returns, and the store it leaves behind. */
  datatype Effect = Effect(result: Result<ToolResult, Failure>, db: Db)

  // ---- Contacts ----

  /** The `where: { userId, name }` filter of removeBirthday and editBirthday;
      an undefined name is no condition at all. */
  predicate Targets(c: Contact, userId: UserId, name: Option<string>)
  {
    c.userId == userId && (name.None? || c.name == name.value)
  }

  /** The contacts left after deleting every row the filter selects. */
  function RemoveMatching(cs: seq<Contact>, userId: UserId, name: Option<string>): (r: seq<Contact>)
    ensures forall c :: c in r <==> c in cs && !Targets(c, userId, name)
    ensures |r| <= |cs|
  {
    if cs == [] then []
    else (if Targets(cs[0], userId, name) then [] else [cs[0]]) + RemoveMatching(cs[1..], userId, name)
  }

  /** Deleting the same rows a second time deletes nothing more. */
  lemma {:induction false} RemoveMatchingIdempotent(cs: seq<Contact>, userId: UserId, name: Option<string>)
    ensures RemoveMatching(RemoveMatching(cs, userId, name), userId, name) == RemoveMatching(cs, userId, name)
  {
    if cs != [] {
      RemoveMatchingIdempotent(cs[1..], userId, name);
      var rest := RemoveMatching(cs[1..], userId, name);
      if !Targets(cs[0], userId, name) {
        var x := [cs[0]] + rest;
        assert x[0] == cs[0] && x[1..] == rest;
        assert RemoveMatching(x, userId, name) == [cs[0]] + RemoveMatching(rest, userId, name);
      } else {
        assert RemoveMatching(cs, userId, name) == rest;
      }
    }
  }

  /** The contacts after `updateMany` sets the birthday of every selected row. */
  function SetBirthday(cs: seq<Contact>, userId: UserId, name: Option<string>, date: Date): (r: seq<Contact>)
    ensures |r| == |cs|
    ensures forall i :: 0 <= i < |cs| ==>
      && r[i].id == cs[i].id && r[i].name == cs[i].name && r[i].userId == cs[i].userId
      && r[i].phoneNumber == cs[i].phoneNumber
      && r[i].birthday == if Targets(cs[i], userId, name) then date else cs[i].birthday
  {
    if cs == [] then []
    else
      [if Targets(cs[0], userId, name) then cs[0].(birthday := date) else cs[0]]
        + SetBirthday(cs[1..], userId, name, date)
  }

  const AddedPrefix: string := "Added birthday for "
  const OnWord: string := " on "
  const RemovedPrefix: string := "Removed birthday for "
  const EditedPrefix: string := "Edited birthday for "
  const ToWord: string := " to "

  function AddedText(name: string, birthday: string): string
  {
    AddedPrefix + name + OnWord + birthday
  }

  function RemovedText(name: string): string
  {
    RemovedPrefix + name
  }

  function EditedText(name: string, birthday: string): string
  {
    EditedPrefix + name + ToWord + birthday
  }

  /** The confirmations name the contact and repeat the date text as given. */
  lemma ContactTextsMentionInputs(name: string, birthday: string)
    ensures Contains(AddedText(name, birthday), name) && Contains(AddedText(name, birthday), birthday)
    ensures Contains(RemovedText(name), name)
    ensures Contains(EditedText(name, birthday), name) && Contains(EditedText(name, birthday), birthday)
  {
    ContainsMiddle(AddedPrefix, name, OnWord + birthday);
    assert AddedPrefix + name + (OnWord + birthday) == AddedText(name, birthday);
    ContainsMiddle(AddedPrefix + name + OnWord, birthday, []);
    assert AddedPrefix + name + OnWord + birthday + [] == AddedText(name, birthday);
    ContainsMiddle(RemovedPrefix, name, []);
    assert RemovedPrefix + name + [] == RemovedText(name);
    ContainsMiddle(EditedPrefix, name, ToWord + birthday);
    assert EditedPrefix + name + (ToWord + birthday) == EditedText(name, birthday);
    ContainsMiddle(EditedPrefix + name + ToWord, birthday, []);
    assert EditedPrefix + name + ToWord + birthday + [] == EditedText(name, birthday);
  }

  /** add_birthday: creates one contact for the user, with the next id. An
      invalid date and a missing name are rejected before anything is
      written. */
  function AddBirthdayEffect(db: Db, args: ToolArgs, userId: UserId): (e: Effect)
    ensures e.result.Ok? <==> ParseArg(args.birthday).Some? && args.name.Some? && HasUser(db.users, userId)
    ensures e.result.Err? ==> e.db == db
    ensures e.result.Ok? ==>
      && e.result.value.output == AddedText(args.name.value, args.birthday.value)
      && |e.db.contacts| == |db.contacts| + 1
      && e.db.contacts[..|db.contacts|] == db.contacts
      && var c := e.db.contacts[|db.contacts|];
         c.name == args.name.value && c.userId == userId && Some(c.birthday) == ParseArg(args.birthday)
    ensures e.db.users == db.users && e.db.prefs == db.prefs
    ensures ValidDb(db) ==> ValidDb(e.db)
  {
    match ParseArg(args.birthday)
    case None => Effect(Err(InvalidDate(Shown(args.birthday))), db)
    case Some(d) =>
      if args.name.None? then Effect(Err(MissingArgument(NameField)), db)
      else if !HasUser(db.users, userId) then Effect(Err(RecordNotFound(userId)), db)
      else
        var c := Contact(db.nextContactId, args.name.value, None, d, userId);
        Effect(Ok(ToolResult(AddedText(args.name.value, args.birthday.value))),
               db.(contacts := db.contacts + [c], nextContactId := db.nextContactId + 1))
  }

  /** remove_birthday: deletes every contact of the user with that name, and
      only those; it never fails. */
  function RemoveBirthdayEffect(db: Db, args: ToolArgs, userId: UserId): (e: Effect)
    ensures e.result == Ok(ToolResult(RemovedText(Shown(args.name))))
    ensures forall c :: c in e.db.contacts <==> c in db.contacts && !Targets(c, userId, args.name)
    ensures e.db.users == db.users && e.db.prefs == db.prefs
    ensures e.db.nextContactId == db.nextContactId && e.db.nextPrefsId == db.nextPrefsId
    ensures ValidDb(db) ==> ValidDb(e.db)
  {
    var r := RemoveMatching(db.contacts, userId, args.name);
    assert forall i :: 0 <= i < |r| ==> r[i] in db.contacts;
    assert UniqueContactIds(db.contacts) ==> UniqueContactIds(r) by {
      if UniqueContactIds(db.contacts) { SubsetKeepsUniqueIds(db.contacts, userId, args.name); }
    }
    Effect(Ok(ToolResult(RemovedText(Shown(args.name)))), db.(contacts := r))
  }

  /** With no name, the filter is the user alone: every contact of the user
      is deleted, and the confirmation names `undefined`. */
  lemma RemoveWithoutNameRemovesAll(db: Db, args: ToolArgs, userId: UserId)
    requires args.name.None?
    ensures var e := RemoveBirthdayEffect(db, args, userId);
      && e.result == Ok(ToolResult(RemovedText(UndefinedText)))
      && forall c :: c in e.db.contacts <==> c in db.contacts && c.userId != userId
  {
  }

  lemma {:induction false} SubsetKeepsUniqueIds(cs: seq<Contact>, userId: UserId, name: Option<string>)
    requires UniqueContactIds(cs)
    ensures UniqueContactIds(RemoveMatching(cs, userId, name))
  {
    if cs != [] {
      SubsetKeepsUniqueIds(cs[1..], userId, name);
      var rest := RemoveMatching(cs[1..], userId, name);
      assert forall c :: c in rest ==> c in cs[1..];
      assert forall c :: c in cs[1..] ==> c.id != cs[0].id;
    }
  }

  /** Removing the same name twice leaves the store as removing it once. */
  lemma RemoveBirthdayIdempotent(db: Db, args: ToolArgs, userId: UserId)
    ensures RemoveBirthdayEffect(RemoveBirthdayEffect(db, args, userId).db, args, userId)
         == RemoveBirthdayEffect(db, args, userId)
  {
    RemoveMatchingIdempotent(db.contacts, userId, args.name);
  }

  /** edit_birthday: sets the birthday of every contact of the user with that
      name; ids, names, order and every other contact stay as they were. */
  function EditBirthdayEffect(db: Db, args: ToolArgs, userId: UserId): (e: Effect)
    ensures e.result.Ok? <==> ParseArg(args.newBirthday).Some?
    ensures e.result.Err? ==> e.db == db
    ensures e.result.Ok? ==>
      && e.result.value.output == EditedText(Shown(args.name), args.newBirthday.value)
      && |e.db.contacts| == |db.contacts|
      && forall i :: 0 <= i < |db.contacts| ==>
           && e.db.contacts[i] == db.contacts[i].(birthday := e.db.contacts[i].birthday)
           && (Targets(db.contacts[i], userId, args.name) ==> Some(e.db.contacts[i].birthday) == ParseArg(args.newBirthday))
           && (!Targets(db.contacts[i], userId, args.name) ==> e.db.contacts[i] == db.contacts[i])
    ensures e.db.users == db.users && e.db.prefs == db.prefs
    ensures ValidDb(db) ==> ValidDb(e.db)
  {
    match ParseArg(args.newBirthday)
    case None => Effect(Err(InvalidDate(Shown(args.newBirthday))), db)
    case Some(d) =>
      var r := SetBirthday(db.contacts, userId, args.name, d);
      Effect(Ok(ToolResult(EditedText(Shown(args.name), args.newBirthday.value))), db.(contacts := r))
  }

  // ---- Users ----

  const StoppedText: string := "Reminders have been stopped"
  const StartedText: string := "Reminders have been started"
  const UnsubscribedText: string := "User has been unsubscribed"
  const TimezonePrefix: string := "Timezone changed to "

  function TimezoneText(timezone: string): (r: string)
    ensures Contains(r, timezone)
  {
    ContainsMiddle(TimezonePrefix, timezone, []);
    assert TimezonePrefix + timezone + [] == TimezonePrefix + timezone;
    TimezonePrefix + timezone
  }

  /** The one field an update of a user row writes; an undefined time zone
      writes nothing. */
  datatype UserPatch = SetPaid(paid: bool) | SetTimeZone(timeZone: Option<string>)

  function Patched(u: User, p: UserPatch): User
  {
    match p
    case SetPaid(b) => u.(paid := Some(b))
    case SetTimeZone(tz) => if tz.Some? then u.(timeZone := tz.value) else u
  }

  /** The users after `user.update({ where: { id } })` writes the patch. */
  function PatchUsers(us: seq<User>, id: UserId, p: UserPatch): (r: seq<User>)
    ensures |r| == |us|
    ensures forall i :: 0 <= i < |us| ==> r[i].id == us[i].id
    ensures forall i :: 0 <= i < |us| ==> r[i] == if us[i].id == id then Patched(us[i], p) else us[i]
  {
    if us == [] then [] else [if us[0].id == id then Patched(us[0], p) else us[0]] + PatchUsers(us[1..], id, p)
  }

  lemma PatchUsersKeepsIds(us: seq<User>, id: UserId, p: UserPatch)
    ensures forall x :: HasUser(us, x) <==> HasUser(PatchUsers(us, id, p), x)
    ensures UniqueUserIds(us) <==> UniqueUserIds(PatchUsers(us, id, p))
  {
    var r := PatchUsers(us, id, p);
    forall x | HasUser(us, x) ensures HasUser(r, x) {
      var i :| 0 <= i < |us| && us[i].id == x;
      assert r[i].id == x;
    }
    forall x | HasUser(r, x) ensures HasUser(us, x) {
      var i :| 0 <= i < |r| && r[i].id == x;
      assert us[i].id == x;
    }
  }

  lemma PatchKeepsValid(db: Db, userId: UserId, p: UserPatch)
    ensures ValidDb(db) ==> ValidDb(db.(users := PatchUsers(db.users, userId, p)))
  {
    PatchUsersKeepsIds(db.users, userId, p);
  }

  /** A handler that writes one field of the caller's user row: the update
      throws when there is no such row. */
  function UpdateUserEffect(db: Db, userId: UserId, p: UserPatch, output: string): (e: Effect)
    ensures e.result.Ok? <==> HasUser(db.users, userId)
    ensures e.result.Ok? ==> e.result.value.output == output
    ensures e.result.Err? ==> e.db == db
    ensures e.db.contacts == db.contacts && e.db.prefs == db.prefs
    ensures e.db.nextContactId == db.nextContactId && e.db.nextPrefsId == db.nextPrefsId
    ensures |e.db.users| == |db.users|
    ensures forall i :: 0 <= i < |db.users| ==>
      e.db.users[i] == if db.users[i].id == userId then Patched(db.users[i], p) else db.users[i]
    ensures ValidDb(db) ==> ValidDb(e.db)
  {
    if !HasUser(db.users, userId) then Effect(Err(RecordNotFound(userId)), db)
    else
      PatchKeepsValid(db, userId, p);
      Effect(Ok(ToolResult(output)), db.(users := PatchUsers(db.users, userId, p)))
  }

  /** stop_sending: the user's `paid` becomes false. */
  function StopSendingEffect(db: Db, userId: UserId): (e: Effect)
  {
    UpdateUserEffect(db, userId, SetPaid(false), StoppedText)
  }

  /** start_sending: the user's `paid` becomes true. */
  function StartSendingEffect(db: Db, userId: UserId): (e: Effect)
  {
    UpdateUserEffect(db, userId, SetPaid(true), StartedText)
  }

  /** unsubscribe: the user's `paid` becomes false, as for stop_sending. */
  function UnsubscribeEffect(db: Db, userId: UserId): (e: Effect)
  {
    UpdateUserEffect(db, userId, SetPaid(false), UnsubscribedText)
  }

  /** change_timezone: the user's `timeZone` becomes the given text; an
      undefined one writes nothing. */
  function ChangeTimezoneEffect(db: Db, args: ToolArgs, userId: UserId): (e: Effect)
  {
    UpdateUserEffect(db, userId, SetTimeZone(args.timezone), TimezoneText(Shown(args.timezone)))
  }

  /** With no time zone, change_timezone still needs the user's row, but
      writes nothing, and confirms a change to `undefined`. */
  lemma ChangeTimezoneWithoutZone(db: Db, args: ToolArgs, userId: UserId)
    requires args.timezone.None?
    ensures var e := ChangeTimezoneEffect(db, args, userId);
      && e.db == db
      && (e.result.Ok? <==> HasUser(db.users, userId))
      && (e.result.Ok? ==> e.result.value.output == TimezoneText(UndefinedText))
  {
    var e := ChangeTimezoneEffect(db, args, userId);
    assert e.db.users == db.users;
  }

  // ---- Message preferences ----

  /** The five flags set from membership in the cadence array. */
  function WithCadence(p: MessagePreferences, cadence: seq<int>): (r: MessagePreferences)
    ensures r.id == p.id && r.userId == p.userId
    ensures forall k :: Enabled(r, k) <==> IsLeadTime(k) && k in cadence
  {
    p.(daysAhead0 := 0 in cadence, daysAhead1 := 1 in cadence, daysAhead2 := 2 in cadence,
       daysAhead3 := 3 in cadence, daysAhead7 := 7 in cadence)
  }

  /** The flags depend only on which lead times the cadence names: not on
      its order, its duplicates or its other numbers. */
  lemma CadenceIgnoresOrderAndDuplicates(p: MessagePreferences, a: seq<int>, b: seq<int>)
    requires forall k :: IsLeadTime(k) ==> (k in a <==> k in b)
    ensures WithCadence(p, a) == WithCadence(p, b)
  {
    assert IsLeadTime(0) && IsLeadTime(1) && IsLeadTime(2) && IsLeadTime(3) && IsLeadTime(7);
  }

  /** The position of the user's preferences row, as `findUnique({ where: { userId } })`. */
  function PrefsIndex(ps: seq<MessagePreferences>, userId: UserId): (r: Option<nat>)
    ensures r.Some? ==> r.value < |ps| && ps[r.value].userId == userId
    ensures r.None? ==> forall i :: 0 <= i < |ps| ==> ps[i].userId != userId
  {
    if ps == [] then None
    else if ps[0].userId == userId then Some(0)
    else match PrefsIndex(ps[1..], userId)
      case None => None
      case Some(i) => Some(i + 1)
  }

  const CadencePrefix: string := "Cadence edited to "
  const ListSeparator: string := ", "

  function CadenceOutput(cadence: seq<int>): string
  {
    CadencePrefix + Join(IntsToStrings(cadence), ListSeparator)
  }

  /** The confirmation lists every number of the cadence array. */
  lemma CadenceOutputMentions(cadence: seq<int>)
    ensures forall k :: k in cadence ==> Contains(CadenceOutput(cadence), IntToString(k))
  {
    var parts := IntsToStrings(cadence);
    JoinContainsParts(parts, ListSeparator);
    forall k | k in cadence ensures Contains(CadenceOutput(cadence), IntToString(k)) {
      var i :| 0 <= i < |cadence| && cadence[i] == k;
      assert parts[i] == IntToString(k);
      ContainsAfter(CadencePrefix, Join(parts, ListSeparator), parts[i]);
    }
  }

  /** edit_cadence: updates the user's preferences row, or creates one when
      there is none; creating a row for a user that does not exist violates
      the foreign key. */
  function EditCadenceEffect(db: Db, args: ToolArgs, userId: UserId): (e: Effect)
    ensures e.result.Err? <==> args.cadence.None? || (PrefsIndex(db.prefs, userId).None? && !HasUser(db.users, userId))
    ensures e.result.Err? ==> e.db == db
    ensures e.result.Ok? ==> e.result.value.output == CadenceOutput(args.cadence.value)
    ensures e.db.users == db.users && e.db.contacts == db.contacts
    ensures forall p :: p in db.prefs && p.userId != userId ==> p in e.db.prefs
    ensures forall p :: p in e.db.prefs && p.userId != userId ==> p in db.prefs
    ensures e.result.Ok? ==> exists i :: (0 <= i < |e.db.prefs| && e.db.prefs[i].userId == userId
      && forall k :: Enabled(e.db.prefs[i], k) <==> IsLeadTime(k) && k in args.cadence.value)
  {
    if args.cadence.None? then Effect(Err(UndefinedProperty(IncludesName)), db)
    else
    match PrefsIndex(db.prefs, userId)
    case Some(i) =>
      var ps := db.prefs[i := WithCadence(db.prefs[i], args.cadence.value)];
      assert forall p :: p in db.prefs && p.userId != userId ==> p in ps by {
        forall p | p in db.prefs && p.userId != userId ensures p in ps {
          var j :| 0 <= j < |db.prefs| && db.prefs[j] == p;
          assert ps[j] == p;
        }
      }
      assert ps[i].userId == userId;
      Effect(Ok(ToolResult(CadenceOutput(args.cadence.value))), db.(prefs := ps))
    case None =>
      if !HasUser(db.users, userId) then Effect(Err(ForeignKeyViolation(userId)), db)
      else
        var p := WithCadence(MessagePreferences(db.nextPrefsId, false, false, false, false, false, userId), args.cadence.value);
        var ps := db.prefs + [p];
        assert ps[|db.prefs|] == p;
        Effect(Ok(ToolResult(CadenceOutput(args.cadence.value))), db.(prefs := ps, nextPrefsId := db.nextPrefsId + 1))
  }

  /** edit_cadence keeps the store's constraints: one row per user, and
      every row's owner exists. */
  lemma EditCadencePreservesValid(db: Db, args: ToolArgs, userId: UserId)
    requires ValidDb(db)
    ensures ValidDb(EditCadenceEffect(db, args, userId).db)
  {
    if args.cadence.None? { return; }
    match PrefsIndex(db.prefs, userId)
    case Some(i) =>
      PrefsUpdateKeepsValid(db, i, WithCadence(db.prefs[i], args.cadence.value));
    case None =>
      if HasUser(db.users, userId) {
        var p := WithCadence(MessagePreferences(db.nextPrefsId, false, false, false, false, false, userId), args.cadence.value);
        PrefsAppendKeepsValid(db, p);
      }
  }

  /** Rewriting a preferences row's flags keeps the constraints. */
  lemma PrefsUpdateKeepsValid(db: Db, i: nat, p: MessagePreferences)
    requires ValidDb(db) && i < |db.prefs|
    requires p.id == db.prefs[i].id && p.userId == db.prefs[i].userId
    ensures ValidDb(db.(prefs := db.prefs[i := p]))
  {
    var ps := db.prefs[i := p];
    assert forall j :: 0 <= j < |ps| ==> ps[j].id == db.prefs[j].id && ps[j].userId == db.prefs[j].userId;
  }

  /** Creating the row of a user who has none, under the next id, keeps the
      constraints. */
  lemma PrefsAppendKeepsValid(db: Db, p: MessagePreferences)
    requires ValidDb(db)
    requires p.id == db.nextPrefsId && HasUser(db.users, p.userId)
    requires forall j :: 0 <= j < |db.prefs| ==> db.prefs[j].userId != p.userId
    ensures ValidDb(db.(prefs := db.prefs + [p], nextPrefsId := db.nextPrefsId + 1))
  {
    var ps := db.prefs + [p];
    assert forall j :: 0 <= j < |db.prefs| ==> ps[j] == db.prefs[j];
    assert ps[|db.prefs|] == p;
  }

  /** After edit_cadence the user has exactly one preferences row. */
  lemma EditCadenceLeavesOneRow(db: Db, args: ToolArgs, userId: UserId)
    requires ValidDb(db)
    requires EditCadenceEffect(db, args, userId).result.Ok?
    ensures var ps := EditCadenceEffect(db, args, userId).db.prefs;
      exists i :: 0 <= i < |ps| && ps[i].userId == userId
        && forall j :: 0 <= j < |ps| && j != i ==> ps[j].userId != userId
  {
    var ps := EditCadenceEffect(db, args, userId).db.prefs;
    var i :| 0 <= i < |ps| && ps[i].userId == userId
      && forall k :: Enabled(ps[i], k) <==> IsLeadTime(k) && k in args.cadence.value;
    EditCadencePreservesValid(db, args, userId);
    forall j | 0 <= j < |ps| && j != i ensures ps[j].userId != userId {
      if j < i { assert ps[j].userId != ps[i].userId; } else { assert ps[i].userId != ps[j].userId; }
    }
  }

  /** Editing the cadence twice with the same array leaves the store as
      editing it once. */
  lemma EditCadenceIdempotent(db: Db, args: ToolArgs, userId: UserId)
    requires ValidDb(db)
    ensures var once := EditCadenceEffect(db, args, userId);
      EditCadenceEffect(once.db, args, userId) == once
  {
    var once := EditCadenceEffect(db, args, userId);
    EditCadencePreservesValid(db, args, userId);
    if args.cadence.None? { return; }
    match PrefsIndex(db.prefs, userId)
    case Some(i) =>
      var ps := once.db.prefs;
      PrefsIndexUnique(ps, userId, i);
      assert WithCadence(ps[i], args.cadence.value) == ps[i];
      assert ps[i := ps[i]] == ps;
    case None =>
      if HasUser(db.users, userId) {
        var ps := once.db.prefs;
        PrefsIndexUnique(ps, userId, |db.prefs|);
        assert WithCadence(ps[|db.prefs|], args.cadence.value) == ps[|db.prefs|];
        assert ps[|db.prefs| := ps[|db.prefs|]] == ps;
      }
  }

  /** With a unique owner column, the lookup finds the one row of that owner. */
  lemma {:induction false} PrefsIndexUnique(ps: seq<MessagePreferences>, userId: UserId, i: nat)
    requires UniquePrefs(ps)
    requires i < |ps| && ps[i].userId == userId
    ensures PrefsIndex(ps, userId) == Some(i)
  {
    if i > 0 {
      assert ps[0].userId != userId;
      PrefsIndexUnique(ps[1..], userId, i - 1);
    }
  }

  // ---- The store, updated in place ----

  /** The store's tables as mutable state. Each handler method performs the
      update its `...Effect` function describes. */
  class Store {
    var users: seq<User>
    var contacts: seq<Contact>
    var prefs: seq<MessagePreferences>
    var nextContactId: nat
    var nextPrefsId: nat

    function Snapshot(): Db
      reads this
    {
      Db(users, contacts, prefs, nextContactId, nextPrefsId)
    }

    ghost predicate Valid()
      reads this
    {
      ValidDb(Snapshot())
    }

    method AddBirthday(args: ToolArgs, userId: UserId) returns (r: Result<ToolResult, Failure>)
      requires Valid()
      modifies this
      ensures Valid()
      ensures Effect(r, Snapshot()) == AddBirthdayEffect(old(Snapshot()), args, userId)
    {
      var parsed := ParseArg(args.birthday);
      if parsed.None? {
        return Err(InvalidDate(Shown(args.birthday)));
      }
      if args.name.None? {
        return Err(MissingArgument(NameField));
      }
      if !HasUser(users, userId) {
        return Err(RecordNotFound(userId));
      }
      contacts := contacts + [Contact(nextContactId, args.name.value, None, parsed.value, userId)];
      nextContactId := nextContactId + 1;
      r := Ok(ToolResult(AddedText(args.name.value, args.birthday.value)));
    }

    method RemoveBirthday(args: ToolArgs, userId: UserId) returns (r: Result<ToolResult, Failure>)
      requires Valid()
      modifies this
      ensures Valid()
      ensures Effect(r, Snapshot()) == RemoveBirthdayEffect(old(Snapshot()), args, userId)
    {
      contacts := RemoveMatching(contacts, userId, args.name);
      r := Ok(ToolResult(RemovedText(Shown(args.name))));
      assert Snapshot() == RemoveBirthdayEffect(old(Snapshot()), args, userId).db;
    }

    method EditBirthday(args: ToolArgs, userId: UserId) returns (r: Result<ToolResult, Failure>)
      requires Valid()
      modifies this
      ensures Valid()
      ensures Effect(r, Snapshot()) == EditBirthdayEffect(old(Snapshot()), args, userId)
    {
      var parsed := ParseArg(args.newBirthday);
      if parsed.None? {
        return Err(InvalidDate(Shown(args.newBirthday)));
      }
      contacts := SetBirthday(contacts, userId, args.name, parsed.value);
      r := Ok(ToolResult(EditedText(Shown(args.name), args.newBirthday.value)));
    }

    /** `user.update({ where: { id: userId }, data })` with one field. */
    method UpdateUser(userId: UserId, p: UserPatch, output: string) returns (r: Result<ToolResult, Failure>)
      requires Valid()
      modifies this
      ensures Valid()
      ensures Effect(r, Snapshot()) == UpdateUserEffect(old(Snapshot()), userId, p, output)
    {
      ghost var e := UpdateUserEffect(Snapshot(), userId, p, output);
      if !HasUser(users, userId) {
        return Err(RecordNotFound(userId));
      }
      users := PatchUsers(users, userId, p);
      assert Snapshot() == e.db;
      r := Ok(ToolResult(output));
    }

    method StopSending(userId: UserId) returns (r: Result<ToolResult, Failure>)
      requires Valid()
      modifies this
      ensures Valid()
      ensures Effect(r, Snapshot()) == StopSendingEffect(old(Snapshot()), userId)
    {
      r := UpdateUser(userId, SetPaid(false), StoppedText);
    }

    method StartSending(userId: UserId) returns (r: Result<ToolResult, Failure>)
      requires Valid()
      modifies this
      ensures Valid()
      ensures Effect(r, Snapshot()) == StartSendingEffect(old(Snapshot()), userId)
    {
      r := UpdateUser(userId, SetPaid(true), StartedText);
    }

    method Unsubscribe(userId: UserId) returns (r: Result<ToolResult, Failure>)
      requires Valid()
      modifies this
      ensures Valid()
      ensures Effect(r, Snapshot()) == UnsubscribeEffect(old(Snapshot()), userId)
    {
      r := UpdateUser(userId, SetPaid(false), UnsubscribedText);
    }

    method ChangeTimezone(args: ToolArgs, userId: UserId) returns (r: Result<ToolResult, Failure>)
      requires Valid()
      modifies this
      ensures Valid()
      ensures Effect(r, Snapshot()) == ChangeTimezoneEffect(old(Snapshot()), args, userId)
    {
      r := UpdateUser(userId, SetTimeZone(args.timezone), TimezoneText(Shown(args.timezone)));
    }

    method EditCadence(args: ToolArgs, userId: UserId) returns (r: Result<ToolResult, Failure>)
      requires Valid()
      modifies this
      ensures Valid()
      ensures Effect(r, Snapshot()) == EditCadenceEffect(old(Snapshot()), args, userId)
    {
      ghost var e := EditCadenceEffect(Snapshot(), args, userId);
      EditCadencePreservesValid(Snapshot(), args, userId);
      if args.cadence.None? {
        return Err(UndefinedProperty(IncludesName));
      }
      var existing := PrefsIndex(prefs, userId);
      if existing.Some? {
        prefs := prefs[existing.value := WithCadence(prefs[existing.value], args.cadence.value)];
      } else {
        if !HasUser(users, userId) {
          return Err(ForeignKeyViolation(userId));
        }
        prefs := prefs + [WithCadence(MessagePreferences(nextPrefsId, false, false, false, false, false, userId), args.cadence.value)];
        nextPrefsId := nextPrefsId + 1;
      }
      assert Snapshot() == e.db;
      r := Ok(ToolResult(CadenceOutput(args.cadence.value)));
    }
  }
}
