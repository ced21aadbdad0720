/** The rows of the primary store that the core reads and writes: users,
    their contacts and their one-per-user message preferences, together
    with the store's id counters and the errors its operations raise. */
module Schema {
  import opened Wrappers
  import opened Dates

  type UserId = string

  datatype User = User(
    id: UserId,
    name: Option<string>,
    phone: string,
    paid: Option<bool>,
    timeZone: string,
    stripeId: Option<string>,
    email: Option<string>)

  datatype Contact = Contact(
    id: nat,
    name: string,
    phoneNumber: Option<string>,
    birthday: Date,
    userId: UserId)

  datatype MessagePreferences = MessagePreferences(
    id: nat,
    daysAhead0: bool,
    daysAhead1: bool,
    daysAhead2: bool,
    daysAhead3: bool,
    daysAhead7: bool,
    userId: UserId)

  /** The lead times, in days, that a preferences row has a flag for. */
  predicate IsLeadTime(k: int)
  {
    k == 0 || k == 1 || k == 2 || k == 3 || k == 7
  }

  type LeadTime = k: nat | IsLeadTime(k)

  /** Whether `p` asks for reminders `daysAhead` days in advance: the flag
      for that lead time, and false for any number that has no flag. */
  predicate Enabled(p: MessagePreferences, daysAhead: int)
  {
    || (daysAhead == 0 && p.daysAhead0)
    || (daysAhead == 1 && p.daysAhead1)
    || (daysAhead == 2 && p.daysAhead2)
    || (daysAhead == 3 && p.daysAhead3)
    || (daysAhead == 7 && p.daysAhead7)
  }

  /** The tables of the store, with the next value of each autoincrement id. */
  datatype Db = Db(
    users: seq<User>,
    contacts: seq<Contact>,
    prefs: seq<MessagePreferences>,
    nextContactId: nat,
    nextPrefsId: nat)

  predicate HasUser(users: seq<User>, id: UserId)
  {
    exists i :: 0 <= i < |users| && users[i].id == id
  }

  predicate UniqueUserIds(users: seq<User>)
  {
    forall i, j :: 0 <= i < j < |users| ==> users[i].id != users[j].id
  }

  predicate UniqueContactIds(cs: seq<Contact>)
  {
    forall i, j :: 0 <= i < j < |cs| ==> cs[i].id != cs[j].id
  }

  /** The unique constraint on `MessagePreferences.userId` and the primary
      key on its id. */
  predicate UniquePrefs(ps: seq<MessagePreferences>)
  {
    forall i, j :: 0 <= i < j < |ps| ==> ps[i].userId != ps[j].userId && ps[i].id != ps[j].id
  }

  /** The constraints the database enforces: primary keys, the unique owner
      of a preferences row, foreign keys to users, ids below their counters,
      and birthdays that are calendar dates. */
  predicate ValidDb(db: Db)
  {
    && UniqueUserIds(db.users)
    && UniqueContactIds(db.contacts)
    && UniquePrefs(db.prefs)
    && (forall i :: 0 <= i < |db.contacts| ==>
          db.contacts[i].id < db.nextContactId && Valid(db.contacts[i].birthday)
          && HasUser(db.users, db.contacts[i].userId))
    && (forall i :: 0 <= i < |db.prefs| ==>
          db.prefs[i].id < db.nextPrefsId && HasUser(db.users, db.prefs[i].userId))
  }

  /** What an operation of the store or of the runtime throws. */
  datatype Failure =
    | RecordNotFound(userId: UserId)       // an update or a nested connect found no user row
    | ForeignKeyViolation(userId: UserId)  // a row was created for a user that does not exist
    | InvalidDate(text: string)            // `new Date(text)` gave an invalid date
    | NotAFunction(name: string)           // a handler that the service does not define was called
    | MissingToolCall                      // a `tool_calls` stop came without any tool call
    | MissingContent                       // a message row was created without its required text
    | CompletionFailed                     // the language-model request threw or gave no choice
    | MissingArgument(field: string)       // a create left a required column without a value
    | UndefinedProperty(property: string)  // a method was called on `undefined` (a TypeError)
}
