/** The hourly reminder batch: for each lead time it looks the users up,
    keeps those whose local hour is the send hour, and posts one text per
    returned contact to the user's own phone. A failed post produces one
    operator email and the batch goes on. The text gateway is an oracle that
    gives the outcome of the n-th post; the clock gives each time zone's
    current hour. */
module RecurringMessages {
  import opened Wrappers
  import opened Text
  import opened Dates
  import opened Schema
  import opened BirthdayLookup
  import opened AgentTools

  /** The local hour at which reminders go out. */
  const SendHour: int := 17

  /** The lead times of one run, in the order the run processes them. */
  const RunLeadTimes: seq<LeadTime> := [0, 1, 2, 3, 7]

  const Greeting: string := "Hey, there. Just a reminder that "

  const Today: string := "today is "
  const Tomorrow: string := "tomorrow is "
  const InTwoDays: string := "in 2 days it's "
  const InThreeDays: string := "in 3 days it's "
  const InAWeek: string := "in a week it's "
  const BirthdaySuffix: string := "'s birthday."

  /** The part of each template that names the lead time. */
  function Phrase(lead: LeadTime): string
  {
    if lead == 0 then Today
    else if lead == 1 then Tomorrow
    else if lead == 2 then InTwoDays
    else if lead == 3 then InThreeDays
    else InAWeek
  }

  /** The reminder for a contact's birthday `lead` days ahead. */
  function ReminderText(lead: LeadTime, contactName: string): string
  {
    Greeting + Phrase(lead) + contactName + BirthdaySuffix
  }

  /** The text names the lead time and the contact: two reminders are equal
      only for the same lead time and the same name. */
  lemma {:induction false} ReminderTextInjective(j: LeadTime, k: LeadTime, a: string, b: string)
    requires ReminderText(j, a) == ReminderText(k, b)
    ensures j == k && a == b
  {
    var s := ReminderText(j, a);
    assert |Greeting| == 33;
    assert s[35] == Phrase(j)[2] && s[36] == Phrase(j)[3];
    assert ReminderText(k, b)[35] == Phrase(k)[2] && ReminderText(k, b)[36] == Phrase(k)[3];
    PhraseTagInjective(j, k);
    var n := |Greeting + Phrase(j)|;
    assert s[n..|s| - 12] == a;
    assert ReminderText(k, b)[n..|s| - 12] == b;
  }

  /** The lead time a phrase's third and fourth characters stand for. */
  function TagLead(c2: char, c3: char): LeadTime
  {
    if c2 == 'd' then 0
    else if c2 == 'm' then 1
    else if c3 == '2' then 2
    else if c3 == '3' then 3
    else 7
  }

  /** The third and fourth characters of the phrases tell them apart. */
  lemma {:induction false} PhraseTagInjective(j: LeadTime, k: LeadTime)
    requires Phrase(j)[2] == Phrase(k)[2] && Phrase(j)[3] == Phrase(k)[3]
    ensures j == k
  {
    forall l: LeadTime
      ensures TagLead(Phrase(l)[2], Phrase(l)[3]) == l
    {
      if l == 0 {
        assert Phrase(l) == Today;
        assert Today[2] == 'd';
      } else if l == 1 {
        assert Phrase(l) == Tomorrow;
        assert Tomorrow[2] == 'm';
      } else if l == 2 {
        assert Phrase(l) == InTwoDays;
        assert InTwoDays[2] == ' ' && InTwoDays[3] == '2';
      } else if l == 3 {
        assert Phrase(l) == InThreeDays;
        assert InThreeDays[2] == ' ' && InThreeDays[3] == '3';
      } else {
        assert IsLeadTime(l);
        assert Phrase(l) == InAWeek;
        assert InAWeek[2] == ' ' && InAWeek[3] == 'a';
      }
    }
  }

  /** The JSON body of a post to the text gateway. */
  datatype TextRequest = TextRequest(addresses: seq<string>, message: string)

  datatype Email = Email(from: string, to: string, subject: string, html: string)

  /** What became of one post: a 2xx response, another status, or an error
      thrown by `fetch`. */
  datatype SendOutcome = Delivered | Rejected(statusText: string) | Threw(message: string)

  /** The outcome of the n-th post the service makes. */
  type Transport = nat -> SendOutcome

  const RejectedPrefix: string := "Failed to send message: "

  /** The `message` of the error the catch block receives. */
  function ErrorDetail(o: SendOutcome): string
    requires !o.Delivered?
  {
    match o
    case Rejected(statusText) => RejectedPrefix + statusText
    case Threw(message) => message
  }

  /** A nullable name as a template literal writes it. */
  function DisplayName(name: Option<string>): string
  {
    match name
    case Some(n) => n
    case None => "null"
  }

  /** The fixed parts of the operator alert. */
  const AlertFrom: string := "info@daysoftheyear.me"
  const AlertTo: string := "areebk@umich.edu, anniesha51@gmail.com"
  const AlertSubject: string := "Message failed to send!"
  const AlertOpen: string := "<p>Error: daysoftheyear didn't send a birthday message to <strong>"
  const AlertForUser: string := " for user "
  const AlertDetails: string := "</strong>!</p><p>Error details: "
  const AlertClose: string := "</p>"

  /** The operator alert for a text that did not go out. */
  function FailureEmail(user: User, contact: Contact, detail: string): Email
  {
    Email(AlertFrom, AlertTo, AlertSubject,
      AlertOpen + contact.name + AlertForUser + DisplayName(user.name) + AlertDetails + detail + AlertClose)
  }

  /** The alert names the contact, the user and the error. */
  lemma {:induction false} FailureEmailMentions(user: User, contact: Contact, detail: string)
    ensures var html := FailureEmail(user, contact, detail).html;
      Contains(html, contact.name) && Contains(html, DisplayName(user.name)) && Contains(html, detail)
  {
    var pre := AlertOpen;
    var mid := AlertDetails;
    var html := FailureEmail(user, contact, detail).html;
    assert html == pre + contact.name + (AlertForUser + DisplayName(user.name) + mid + detail + AlertClose);
    ContainsMiddle(pre, contact.name, AlertForUser + DisplayName(user.name) + mid + detail + AlertClose);
    assert html == (pre + contact.name + AlertForUser) + DisplayName(user.name) + (mid + detail + AlertClose);
    ContainsMiddle(pre + contact.name + AlertForUser, DisplayName(user.name), mid + detail + AlertClose);
    assert html == (pre + contact.name + AlertForUser + DisplayName(user.name) + mid) + detail + AlertClose;
    ContainsMiddle(pre + contact.name + AlertForUser + DisplayName(user.name) + mid, detail, AlertClose);
  }

  /** One send attempt: for whom, about whom, and what was posted. */
  datatype Attempt = Attempt(user: User, contact: Contact, request: TextRequest)

  function AttemptFor(u: User, c: Contact, lead: LeadTime): Attempt
  {
    Attempt(u, c, TextRequest([u.phone], ReminderText(lead, c.name)))
  }

  /** The attempts for one user's contacts, in order. */
  function AttemptsFor(u: User, cs: seq<Contact>, lead: LeadTime): (r: seq<Attempt>)
    ensures |r| == |cs|
  {
    if cs == [] then []
    else AttemptsFor(u, cs[..|cs| - 1], lead) + [AttemptFor(u, cs[|cs| - 1], lead)]
  }

  /** One attempt per contact, and nothing else. */
  lemma {:induction false} AttemptsForMembers(u: User, cs: seq<Contact>, lead: LeadTime)
    ensures forall a :: a in AttemptsFor(u, cs, lead) ==> exists c :: c in cs && a == AttemptFor(u, c, lead)
    ensures forall c :: c in cs ==> AttemptFor(u, c, lead) in AttemptsFor(u, cs, lead)
  {
    if cs != [] {
      var init := cs[..|cs| - 1];
      AttemptsForMembers(u, init, lead);
      forall a | a in AttemptsFor(u, cs, lead)
        ensures exists c :: c in cs && a == AttemptFor(u, c, lead)
      {
        if a in AttemptsFor(u, init, lead) {
          var c :| c in init && a == AttemptFor(u, c, lead);
          assert c in cs;
        } else {
          assert cs[|cs| - 1] in cs;
        }
      }
      forall c | c in cs
        ensures AttemptFor(u, c, lead) in AttemptsFor(u, cs, lead)
      {
        if c != cs[|cs| - 1] {
          var i :| 0 <= i < |cs| && cs[i] == c;
          assert c in init by { assert init[i] == c; }
        }
      }
    }
  }

  /** Whether the user's local hour, by their time zone, is the send hour. */
  predicate AtSendHour(u: User, hourOf: string -> int)
  {
    hourOf(u.timeZone) == SendHour
  }

  lemma AttemptsForSnoc(u: User, cs: seq<Contact>, j: nat, lead: LeadTime)
    requires j < |cs|
    ensures AttemptsFor(u, cs[..j + 1], lead) == AttemptsFor(u, cs[..j], lead) + [AttemptFor(u, cs[j], lead)]
  {
    assert cs[..j + 1][..j] == cs[..j];
  }

  /** The number of (user, contact) pairs of users at the send hour. */
  function DuePairs(users: seq<UserWithContacts>, hourOf: string -> int): nat
  {
    if users == [] then 0
    else
      var last := users[|users| - 1];
      DuePairs(users[..|users| - 1], hourOf) + (if AtSendHour(last.user, hourOf) then |last.contacts| else 0)
  }

  /** The attempts of one lead time over the looked-up users, in the order
      of the nested loops. */
  function Planned(users: seq<UserWithContacts>, hourOf: string -> int, lead: LeadTime): seq<Attempt>
  {
    if users == [] then []
    else
      var last := users[|users| - 1];
      Planned(users[..|users| - 1], hourOf, lead)
        + (if AtSendHour(last.user, hourOf) then AttemptsFor(last.user, last.contacts, lead) else [])
  }

  lemma PlannedSnoc(users: seq<UserWithContacts>, i: nat, hourOf: string -> int, lead: LeadTime)
    requires i < |users|
    ensures Planned(users[..i + 1], hourOf, lead) == Planned(users[..i], hourOf, lead)
      + (if AtSendHour(users[i].user, hourOf) then AttemptsFor(users[i].user, users[i].contacts, lead) else [])
  {
    assert users[..i + 1][..i] == users[..i];
  }

  /** One attempt per (user, contact) pair of the users at the send hour. */
  lemma {:induction false} PlannedCount(users: seq<UserWithContacts>, hourOf: string -> int, lead: LeadTime)
    ensures |Planned(users, hourOf, lead)| == DuePairs(users, hourOf)
  {
    if users != [] {
      PlannedCount(users[..|users| - 1], hourOf, lead);
    }
  }

  /** Every attempt is for a user at the send hour and one of that user's
      returned contacts, and posts that lead time's text with the contact's
      name to the user's own phone. */
  lemma {:induction false} PlannedSound(users: seq<UserWithContacts>, hourOf: string -> int, lead: LeadTime)
    ensures forall a :: a in Planned(users, hourOf, lead) ==>
      && AtSendHour(a.user, hourOf)
      && a.request == TextRequest([a.user.phone], ReminderText(lead, a.contact.name))
      && exists e :: e in users && e.user == a.user && a.contact in e.contacts
  {
    if users != [] {
      var init := users[..|users| - 1];
      var last := users[|users| - 1];
      PlannedSound(init, hourOf, lead);
      forall a | a in Planned(users, hourOf, lead)
        ensures AtSendHour(a.user, hourOf)
        ensures a.request == TextRequest([a.user.phone], ReminderText(lead, a.contact.name))
        ensures exists e :: e in users && e.user == a.user && a.contact in e.contacts
      {
        if a in Planned(init, hourOf, lead) {
          var e :| e in init && e.user == a.user && a.contact in e.contacts;
          assert e in users;
        } else {
          AttemptsForMembers(last.user, last.contacts, lead);
          var c :| c in last.contacts && a == AttemptFor(last.user, c, lead);
          assert last in users;
        }
      }
    }
  }

  /** Every contact of every user at the send hour gets its attempt. */
  lemma {:induction false} PlannedComplete(users: seq<UserWithContacts>, hourOf: string -> int, lead: LeadTime)
    ensures forall e, c :: e in users && c in e.contacts && AtSendHour(e.user, hourOf) ==>
      AttemptFor(e.user, c, lead) in Planned(users, hourOf, lead)
  {
    if users != [] {
      var init := users[..|users| - 1];
      var last := users[|users| - 1];
      PlannedComplete(init, hourOf, lead);
      forall e, c | e in users && c in e.contacts && AtSendHour(e.user, hourOf)
        ensures AttemptFor(e.user, c, lead) in Planned(users, hourOf, lead)
      {
        if e in init {
        } else {
          assert e == last;
          AttemptsForMembers(last.user, last.contacts, lead);
        }
      }
    }
  }

  /** The requests of a sequence of attempts. */
  function Requests(plan: seq<Attempt>): (r: seq<TextRequest>)
    ensures |r| == |plan|
  {
    if plan == [] then [] else Requests(plan[..|plan| - 1]) + [plan[|plan| - 1].request]
  }

  lemma {:induction false} RequestsAppend(a: seq<Attempt>, b: seq<Attempt>)
    ensures Requests(a + b) == Requests(a) + Requests(b)
    decreases |b|
  {
    if b == [] {
      assert a + b == a;
    } else {
      var init := b[..|b| - 1];
      assert (a + b)[..|a + b| - 1] == a + init;
      RequestsAppend(a, init);
    }
  }

  // ---- What the batch reads of a user ----

  /** The user columns the batch reads: the id the query joins on, the phone
      it posts to and the time zone it takes the hour of. */
  predicate SameReminderFields(u: User, v: User)
  {
    u.id == v.id && u.phone == v.phone && u.timeZone == v.timeZone
  }

  /** Two looked-up lists that differ at most in columns the batch does not
      read. */
  predicate SameButUnread(xs: seq<UserWithContacts>, ys: seq<UserWithContacts>)
  {
    && |xs| == |ys|
    && forall i :: 0 <= i < |xs| ==> xs[i].contacts == ys[i].contacts && SameReminderFields(xs[i].user, ys[i].user)
  }

  /** The posts for one user's contacts depend on the user's phone only. */
  lemma {:induction false} AttemptsForRequests(u: User, v: User, cs: seq<Contact>, lead: LeadTime)
    requires u.phone == v.phone
    ensures Requests(AttemptsFor(u, cs, lead)) == Requests(AttemptsFor(v, cs, lead))
  {
    if cs != [] {
      var init := cs[..|cs| - 1];
      AttemptsForRequests(u, v, init, lead);
      RequestsAppend(AttemptsFor(u, init, lead), [AttemptFor(u, cs[|cs| - 1], lead)]);
      RequestsAppend(AttemptsFor(v, init, lead), [AttemptFor(v, cs[|cs| - 1], lead)]);
    }
  }

  /** The posts of one lead time are the same for two looked-up lists that
      differ only in columns the batch does not read. */
  lemma {:induction false} PlannedRequestsAgree(xs: seq<UserWithContacts>, ys: seq<UserWithContacts>,
                                                hourOf: string -> int, lead: LeadTime)
    requires SameButUnread(xs, ys)
    ensures Requests(Planned(xs, hourOf, lead)) == Requests(Planned(ys, hourOf, lead))
  {
    if xs != [] {
      var n := |xs| - 1;
      assert SameButUnread(xs[..n], ys[..n]);
      PlannedRequestsAgree(xs[..n], ys[..n], hourOf, lead);
      var a := if AtSendHour(xs[n].user, hourOf) then AttemptsFor(xs[n].user, xs[n].contacts, lead) else [];
      var b := if AtSendHour(ys[n].user, hourOf) then AttemptsFor(ys[n].user, ys[n].contacts, lead) else [];
      AttemptsForRequests(xs[n].user, ys[n].user, xs[n].contacts, lead);
      RequestsAppend(Planned(xs[..n], hourOf, lead), a);
      RequestsAppend(Planned(ys[..n], hourOf, lead), b);
    }
  }

  /** The query over two user lists that agree on what the batch reads, with
      the same contacts and preferences, returns lists that agree too. */
  lemma {:induction false} QueryUsersAgree(us: seq<User>, vs: seq<User>, db: Db, db': Db, daysAhead: int, target: Date)
    requires |us| == |vs| && forall i :: 0 <= i < |us| ==> SameReminderFields(us[i], vs[i])
    requires db'.contacts == db.contacts && db'.prefs == db.prefs
    ensures SameButUnread(QueryUsers(us, db, daysAhead, target), QueryUsers(vs, db', daysAhead, target))
  {
    if us != [] {
      var u, v := us[0], vs[0];
      assert SameReminderFields(u, v);
      QueryUsersAgree(us[1..], vs[1..], db, db', daysAhead, target);
      var rest := QueryUsers(us[1..], db, daysAhead, target);
      var rest' := QueryUsers(vs[1..], db', daysAhead, target);
      if Subscribed(db, u.id, daysAhead) {
        assert Subscribed(db', v.id, daysAhead);
        ConsAgree(UserWithContacts(u, ContactsOn(db.contacts, u.id, target)), rest,
                  UserWithContacts(v, ContactsOn(db'.contacts, v.id, target)), rest');
      } else {
        assert !Subscribed(db', v.id, daysAhead);
      }
    }
  }

  lemma ConsAgree(x: UserWithContacts, xs: seq<UserWithContacts>, y: UserWithContacts, ys: seq<UserWithContacts>)
    requires SameButUnread(xs, ys)
    requires x.contacts == y.contacts && SameReminderFields(x.user, y.user)
    ensures SameButUnread([x] + xs, [y] + ys)
  {
  }

  /** Writing the user's `paid` flag, as stop_sending, start_sending and
      unsubscribe do, changes none of the posts the batch makes for any lead
      time and any target date: neither the query nor the batch reads it. */
  lemma PaidIsNotRead(db: Db, userId: UserId, paid: bool, output: string,
                      lead: LeadTime, target: Date, hourOf: string -> int)
    ensures var after := UpdateUserEffect(db, userId, SetPaid(paid), output).db;
      Requests(Planned(BirthdayQuery(after, lead, target), hourOf, lead))
        == Requests(Planned(BirthdayQuery(db, lead, target), hourOf, lead))
  {
    var after := UpdateUserEffect(db, userId, SetPaid(paid), output).db;
    QueryUsersAgree(after.users, db.users, after, db, lead, target);
    PlannedRequestsAgree(BirthdayQuery(after, lead, target), BirthdayQuery(db, lead, target), hourOf, lead);
  }

  /** stop_sending and unsubscribe leave every post of the batch in place. */
  lemma StopSendingKeepsReminders(db: Db, userId: UserId, lead: LeadTime, target: Date, hourOf: string -> int)
    ensures Requests(Planned(BirthdayQuery(StopSendingEffect(db, userId).db, lead, target), hourOf, lead))
         == Requests(Planned(BirthdayQuery(db, lead, target), hourOf, lead))
    ensures Requests(Planned(BirthdayQuery(UnsubscribeEffect(db, userId).db, lead, target), hourOf, lead))
         == Requests(Planned(BirthdayQuery(db, lead, target), hourOf, lead))
  {
    PaidIsNotRead(db, userId, false, StoppedText, lead, target, hourOf);
    PaidIsNotRead(db, userId, false, UnsubscribedText, lead, target, hourOf);
  }

  predicate DeliveredAt(transport: Transport, n: nat)
  {
    transport(n).Delivered?
  }

  /** The emails one attempt produces, given the outcome of its post. */
  function Alert(a: Attempt, o: SendOutcome): seq<Email>
  {
    if o.Delivered? then [] else [FailureEmail(a.user, a.contact, ErrorDetail(o))]
  }

  /** The operator emails of a sequence of attempts whose first post is the
      `start`-th: one for each attempt the transport did not deliver. */
  function FailureEmails(plan: seq<Attempt>, start: nat, transport: Transport): seq<Email>
  {
    if plan == [] then []
    else
      var k := |plan| - 1;
      FailureEmails(plan[..k], start, transport) + Alert(plan[k], transport(start + k))
  }

  lemma {:induction false} FailureEmailsSnoc(plan: seq<Attempt>, a: Attempt, start: nat, transport: Transport)
    ensures FailureEmails(plan + [a], start, transport)
         == FailureEmails(plan, start, transport) + Alert(a, transport(start + |plan|))
  {
    assert (plan + [a])[..|plan|] == plan;
  }

  /** Each email is the alert for an attempt that was not delivered. */
  lemma {:induction false} FailureEmailsSound(plan: seq<Attempt>, start: nat, transport: Transport)
    ensures forall m :: m in FailureEmails(plan, start, transport) ==>
      exists k :: 0 <= k < |plan| && !DeliveredAt(transport, start + k)
        && m == FailureEmail(plan[k].user, plan[k].contact, ErrorDetail(transport(start + k)))
  {
    if plan != [] {
      var k := |plan| - 1;
      FailureEmailsSound(plan[..k], start, transport);
    }
  }

  /** Each attempt that was not delivered has its alert. */
  lemma {:induction false} FailureEmailsComplete(plan: seq<Attempt>, start: nat, transport: Transport)
    ensures forall k :: 0 <= k < |plan| && !DeliveredAt(transport, start + k) ==>
      FailureEmail(plan[k].user, plan[k].contact, ErrorDetail(transport(start + k))) in FailureEmails(plan, start, transport)
  {
    if plan != [] {
      var n := |plan| - 1;
      FailureEmailsComplete(plan[..n], start, transport);
    }
  }

  /** A successful post produces no email: when every post is delivered
      there are none. */
  lemma {:induction false} AllDeliveredNoEmails(plan: seq<Attempt>, start: nat, transport: Transport)
    requires forall n :: start <= n < start + |plan| ==> DeliveredAt(transport, n)
    ensures FailureEmails(plan, start, transport) == []
  {
    if plan != [] {
      var k := |plan| - 1;
      assert transport(start + k).Delivered? by {
        assert DeliveredAt(transport, start + k);
      }
      AllDeliveredNoEmails(plan[..k], start, transport);
    }
  }

  /** The lookups of a run over some lead times, each seeing the cache the
      previous one left. */
  function Fetches(cache: Cache, db: Db, today: Date, leads: seq<LeadTime>): (r: seq<Fetch>)
    requires Valid(today)
    ensures |r| == |leads|
    decreases |leads|
  {
    if leads == [] then []
    else
      var f := Lookup(cache, db, today, leads[0]);
      [f] + Fetches(f.cache, db, today, leads[1..])
  }

  /** The cache after a run's lookups. */
  function CacheAfter(cache: Cache, fetches: seq<Fetch>): Cache
  {
    if fetches == [] then cache else fetches[|fetches| - 1].cache
  }

  /** The attempts of a run over some lead times, given their lookups, in
      the order they are made. */
  function RunAttempts(fetches: seq<Fetch>, leads: seq<LeadTime>, hourOf: string -> int): seq<Attempt>
    requires |fetches| == |leads|
    decreases |leads|
  {
    if leads == [] then []
    else Planned(fetches[0].users, hourOf, leads[0]) + RunAttempts(fetches[1..], leads[1..], hourOf)
  }

  /** The operator emails of a run whose first post is the `start`-th: each
      lead time's, its posts numbered after the previous lead time's. */
  function RunEmails(fetches: seq<Fetch>, leads: seq<LeadTime>, hourOf: string -> int, transport: Transport, start: nat): seq<Email>
    requires |fetches| == |leads|
    decreases |leads|
  {
    if leads == [] then []
    else
      var plan := Planned(fetches[0].users, hourOf, leads[0]);
      FailureEmails(plan, start, transport) + RunEmails(fetches[1..], leads[1..], hourOf, transport, start + |plan|)
  }

  /** How many of a run's lookups queried the store. */
  function RunQueries(fetches: seq<Fetch>): nat
  {
    if fetches == [] then 0 else (if fetches[0].queried then 1 else 0) + RunQueries(fetches[1..])
  }

  /** Every attempt of a run goes to a user at the send hour, is addressed to
      that user's own phone and carries the template of one of the run's lead
      times with the contact's name. */
  lemma {:induction false} RunAttemptsShape(fetches: seq<Fetch>, leads: seq<LeadTime>, hourOf: string -> int)
    requires |fetches| == |leads|
    ensures forall a :: a in RunAttempts(fetches, leads, hourOf) ==>
      && AtSendHour(a.user, hourOf)
      && a.request.addresses == [a.user.phone]
      && exists k :: k in leads && a.request.message == ReminderText(k, a.contact.name)
    decreases |leads|
  {
    if leads != [] {
      PlannedSound(fetches[0].users, hourOf, leads[0]);
      RunAttemptsShape(fetches[1..], leads[1..], hourOf);
      forall a | a in RunAttempts(fetches[1..], leads[1..], hourOf)
        ensures exists k :: k in leads && a.request.message == ReminderText(k, a.contact.name)
      {
        var k :| k in leads[1..] && a.request.message == ReminderText(k, a.contact.name);
        assert k in leads;
      }
      assert leads[0] in leads;
    }
  }

  /** The cache key a run's lookup for a lead time reads. */
  function DueKey(today: Date, lead: LeadTime): string
    requires Valid(today)
  {
    CacheKey(AddDays(today, lead))
  }


  /** The keys a run's lookups read, in order. */
  function DueKeys(today: Date, leads: seq<LeadTime>): (ks: seq<string>)
    requires Valid(today)
    ensures |ks| == |leads|
    ensures forall i :: 0 <= i < |leads| ==> ks[i] == DueKey(today, leads[i])
  {
    if leads == [] then [] else [DueKey(today, leads[0])] + DueKeys(today, leads[1..])
  }

  /** For keys read one after another from a cache holding `keys`, each read
      writing its key, whether each read misses. */
  function Misses(keys: set<string>, ks: seq<string>): (qs: seq<bool>)
    ensures |qs| == |ks|
    decreases |ks|
  {
    if ks == [] then [] else [ks[0] !in keys] + Misses(keys + {ks[0]}, ks[1..])
  }

  function Count(qs: seq<bool>): nat
  {
    if qs == [] then 0 else (if qs[0] then 1 else 0) + Count(qs[1..])
  }

  /** A read misses exactly when its key was neither in the cache at the
      start nor read before. */
  lemma {:induction false} MissesIndex(keys: set<string>, ks: seq<string>)
    ensures forall i :: 0 <= i < |ks| ==>
      (Misses(keys, ks)[i] <==> ks[i] !in keys && forall j :: 0 <= j < i ==> ks[j] != ks[i])
    decreases |ks|
  {
    if ks != [] {
      var rest := ks[1..];
      MissesIndex(keys + {ks[0]}, rest);
      forall i | 1 <= i < |ks|
        ensures Misses(keys, ks)[i] <==> ks[i] !in keys && forall j :: 0 <= j < i ==> ks[j] != ks[i]
      {
        assert Misses(keys, ks)[i] == Misses(keys + {ks[0]}, rest)[i - 1];
        assert ks[i] == rest[i - 1];
        assert forall j :: 0 <= j < i - 1 ==> rest[j] == ks[j + 1];
      }
    }
  }

  /** At most one miss per read; none when every key is cached; one per
      read when no key is cached and the keys are distinct. */
  lemma {:induction false} MissesCount(keys: set<string>, ks: seq<string>)
    ensures Count(Misses(keys, ks)) <= |ks|
    ensures (forall i :: 0 <= i < |ks| ==> ks[i] in keys) ==> Count(Misses(keys, ks)) == 0
    ensures (forall i :: 0 <= i < |ks| ==> ks[i] !in keys)
            && (forall i, j :: 0 <= i < j < |ks| ==> ks[i] != ks[j])
            ==> Count(Misses(keys, ks)) == |ks|
    decreases |ks|
  {
    if ks != [] {
      var rest := ks[1..];
      var keys' := keys + {ks[0]};
      MissesCount(keys', rest);
      assert forall i :: 0 <= i < |rest| ==> rest[i] == ks[i + 1];
      if forall i :: 0 <= i < |ks| ==> ks[i] in keys {
        assert ks[0] in keys && keys' == keys;
      }
      if (forall i :: 0 <= i < |ks| ==> ks[i] !in keys) && (forall i, j :: 0 <= i < j < |ks| ==> ks[i] != ks[j]) {
        assert forall i :: 0 <= i < |rest| ==> rest[i] != ks[0] && rest[i] !in keys;
      }
    }
  }

  /** A lookup queries exactly when its key is missing, and leaves its key
      in the cache. */
  lemma LookupKeys(cache: Cache, db: Db, today: Date, lead: LeadTime)
    requires Valid(today)
    ensures var f := Lookup(cache, db, today, lead);
      && (f.queried <==> DueKey(today, lead) !in cache)
      && f.cache.Keys == cache.Keys + {DueKey(today, lead)}
  {
  }

  /** A run's lookups query the store exactly at the misses of its keys. */
  lemma {:induction false} FetchesFollowMisses(cache: Cache, db: Db, today: Date, leads: seq<LeadTime>)
    requires Valid(today)
    ensures var fetches := Fetches(cache, db, today, leads);
      forall i :: 0 <= i < |leads| ==> fetches[i].queried == Misses(cache.Keys, DueKeys(today, leads))[i]
    decreases |leads|
  {
    if leads != [] {
      var fetches := Fetches(cache, db, today, leads);
      FetchesStep(cache, db, today, leads);
      var f := fetches[0];
      LookupKeys(cache, db, today, leads[0]);
      var ks := DueKeys(today, leads);
      assert ks[1..] == DueKeys(today, leads[1..]);
      FetchesFollowMisses(f.cache, db, today, leads[1..]);
      var qs := Misses(cache.Keys, ks);
      assert qs[1..] == Misses(f.cache.Keys, ks[1..]);
      forall i | 1 <= i < |leads| ensures fetches[i].queried == qs[i] {
        assert fetches[i] == fetches[1..][i - 1] && qs[i] == qs[1..][i - 1];
      }
    }
  }

  /** The number of a run's queries is the number of misses of its keys. */
  lemma {:induction false} RunQueriesAreMisses(cache: Cache, db: Db, today: Date, leads: seq<LeadTime>)
    requires Valid(today)
    ensures RunQueries(Fetches(cache, db, today, leads)) == Count(Misses(cache.Keys, DueKeys(today, leads)))
    decreases |leads|
  {
    if leads != [] {
      var fetches := Fetches(cache, db, today, leads);
      FetchesStep(cache, db, today, leads);
      var f := fetches[0];
      LookupKeys(cache, db, today, leads[0]);
      var ks := DueKeys(today, leads);
      assert ks[1..] == DueKeys(today, leads[1..]);
      RunQueriesAreMisses(f.cache, db, today, leads[1..]);
    }
  }

  /** The i-th lookup of a run queries the store exactly when its key was
      neither in the cache the run started with nor the key of an earlier
      lookup of the run. */
  lemma FetchQueriedIffMiss(cache: Cache, db: Db, today: Date, leads: seq<LeadTime>)
    requires Valid(today)
    ensures var fetches := Fetches(cache, db, today, leads);
      var ks := DueKeys(today, leads);
      forall i :: 0 <= i < |leads| ==>
        (fetches[i].queried <==> ks[i] !in cache && forall j :: 0 <= j < i ==> ks[j] != ks[i])
  {
    FetchesFollowMisses(cache, db, today, leads);
    MissesIndex(cache.Keys, DueKeys(today, leads));
  }

  /** A run queries the store at most once per lead time; not at all when
      every key is cached; and once per lead time when no key is cached
      and the keys are distinct. */
  lemma RunQueriesCount(cache: Cache, db: Db, today: Date, leads: seq<LeadTime>)
    requires Valid(today)
    ensures var q := RunQueries(Fetches(cache, db, today, leads));
      var ks := DueKeys(today, leads);
      && q <= |leads|
      && ((forall i :: 0 <= i < |ks| ==> ks[i] in cache) ==> q == 0)
      && ((forall i :: 0 <= i < |ks| ==> ks[i] !in cache)
          && (forall i, j :: 0 <= i < j < |ks| ==> ks[i] != ks[j])
          ==> q == |leads|)
  {
    RunQueriesAreMisses(cache, db, today, leads);
    MissesCount(cache.Keys, DueKeys(today, leads));
  }

  /** Lead times in increasing order read distinct keys. */
  lemma DistinctDueKeys(today: Date, leads: seq<LeadTime>)
    requires Valid(today)
    requires forall i, j :: 0 <= i < j < |leads| ==> leads[i] < leads[j]
    ensures var ks := DueKeys(today, leads);
      forall i, j :: 0 <= i < j < |ks| ==> ks[i] != ks[j]
  {
    var ks := DueKeys(today, leads);
    forall i, j | 0 <= i < j < |ks| ensures ks[i] != ks[j] {
      var a, b := AddDays(today, leads[i]), AddDays(today, leads[j]);
      AddDaysDistinct(today, leads[i], leads[j]);
      if ks[i] == ks[j] {
        assert CacheKey(a) == ks[i] && CacheKey(b) == ks[j];
        CacheKeyInjective(a, b);
      }
    }
  }

  /** A run that starts with an empty cache queries the store once for each
      of its lead times when they increase, as the batch's do: their target
      dates, and so their keys, are all different. */
  lemma FreshRunQueriesEach(db: Db, today: Date, leads: seq<LeadTime>)
    requires Valid(today)
    requires forall i, j :: 0 <= i < j < |leads| ==> leads[i] < leads[j]
    ensures RunQueries(Fetches(map[], db, today, leads)) == |leads|
  {
    DistinctDueKeys(today, leads);
    RunQueriesCount(map[], db, today, leads);
  }

  /** The batch's lead times increase. */
  lemma RunLeadTimesIncrease()
    ensures forall i, j :: 0 <= i < j < |RunLeadTimes| ==> RunLeadTimes[i] < RunLeadTimes[j]
  {
  }

  /** `m` is the alert for the `k`-th of `attempts`, whose post (the
      `start + k`-th) was not delivered. */
  predicate AlertOf(m: Email, attempts: seq<Attempt>, start: nat, transport: Transport)
  {
    exists k :: 0 <= k < |attempts| && !DeliveredAt(transport, start + k)
      && m == FailureEmail(attempts[k].user, attempts[k].contact, ErrorDetail(transport(start + k)))
  }

  lemma AlertOfPrefix(m: Email, plan: seq<Attempt>, more: seq<Attempt>, start: nat, transport: Transport)
    requires AlertOf(m, plan, start, transport)
    ensures AlertOf(m, plan + more, start, transport)
  {
    var k :| 0 <= k < |plan| && !DeliveredAt(transport, start + k)
      && m == FailureEmail(plan[k].user, plan[k].contact, ErrorDetail(transport(start + k)));
    assert (plan + more)[k] == plan[k];
  }

  lemma AlertOfSuffix(m: Email, plan: seq<Attempt>, more: seq<Attempt>, start: nat, transport: Transport)
    requires AlertOf(m, more, start + |plan|, transport)
    ensures AlertOf(m, plan + more, start, transport)
  {
    var j :| 0 <= j < |more| && !DeliveredAt(transport, start + |plan| + j)
      && m == FailureEmail(more[j].user, more[j].contact, ErrorDetail(transport(start + |plan| + j)));
    var k := |plan| + j;
    assert (plan + more)[k] == more[j];
    assert start + k == start + |plan| + j;
  }

  /** Every email of a run is the alert for one of its attempts whose post
      was not delivered, numbered from `start` in the order they are made. */
  lemma {:induction false} RunEmailsSound(fetches: seq<Fetch>, leads: seq<LeadTime>, hourOf: string -> int,
                                          transport: Transport, start: nat)
    requires |fetches| == |leads|
    ensures forall m :: m in RunEmails(fetches, leads, hourOf, transport, start) ==>
      AlertOf(m, RunAttempts(fetches, leads, hourOf), start, transport)
    decreases |leads|
  {
    if leads != [] {
      var plan := Planned(fetches[0].users, hourOf, leads[0]);
      var more := RunAttempts(fetches[1..], leads[1..], hourOf);
      var rest := RunEmails(fetches[1..], leads[1..], hourOf, transport, start + |plan|);
      assert RunAttempts(fetches, leads, hourOf) == plan + more;
      assert RunEmails(fetches, leads, hourOf, transport, start) == FailureEmails(plan, start, transport) + rest;
      FailureEmailsSound(plan, start, transport);
      RunEmailsSound(fetches[1..], leads[1..], hourOf, transport, start + |plan|);
      forall m | m in RunEmails(fetches, leads, hourOf, transport, start)
        ensures AlertOf(m, plan + more, start, transport)
      {
        if m in FailureEmails(plan, start, transport) {
          AlertOfPrefix(m, plan, more, start, transport);
        } else {
          AlertOfSuffix(m, plan, more, start, transport);
        }
      }
    }
  }

  /** When every post a run makes is delivered, the run sends no email. */
  lemma RunAllDelivered(fetches: seq<Fetch>, leads: seq<LeadTime>, hourOf: string -> int,
                        transport: Transport, start: nat)
    requires |fetches| == |leads|
    requires forall n :: start <= n < start + |RunAttempts(fetches, leads, hourOf)| ==> DeliveredAt(transport, n)
    ensures RunEmails(fetches, leads, hourOf, transport, start) == []
  {
    RunEmailsSound(fetches, leads, hourOf, transport, start);
    var emails := RunEmails(fetches, leads, hourOf, transport, start);
    if emails != [] {
      HeadIsMember(emails);
      assert false;
    }
  }

  lemma HeadIsMember<T>(s: seq<T>)
    requires s != []
    ensures s[0] in s
  {
  }

  /** On a cache miss, every attempt is for a contact of that user whose
      birthday falls on the target's month and day, and the user's
      preferences enable the lead time. */
  lemma {:induction false} MissAttemptsAreDue(cache: Cache, db: Db, today: Date, hourOf: string -> int, lead: LeadTime)
    requires Valid(today)
    requires CacheKey(AddDays(today, lead)) !in cache
    ensures var f := Lookup(cache, db, today, lead);
      forall a :: a in Planned(f.users, hourOf, lead) ==>
        && a.contact in db.contacts && a.contact.userId == a.user.id
        && SameMonthDay(a.contact.birthday, AddDays(today, lead))
        && Subscribed(db, a.user.id, lead)
  {
    var f := Lookup(cache, db, today, lead);
    PlannedSound(f.users, hourOf, lead);
    forall a | a in Planned(f.users, hourOf, lead)
      ensures a.contact in db.contacts && a.contact.userId == a.user.id
      ensures SameMonthDay(a.contact.birthday, AddDays(today, lead))
      ensures Subscribed(db, a.user.id, lead)
    {
      var e :| e in f.users && e.user == a.user && a.contact in e.contacts;
      assert e in QueryUsers(db.users, db, lead, AddDays(today, lead));
    }
  }

  /** The lookups of a run start with the first lead time's and go on with
      the cache it leaves. */
  lemma {:induction false} FetchesStep(cache: Cache, db: Db, today: Date, leads: seq<LeadTime>)
    requires Valid(today) && leads != []
    ensures var fetches := Fetches(cache, db, today, leads);
      && fetches[0] == Lookup(cache, db, today, leads[0])
      && fetches[1..] == Fetches(fetches[0].cache, db, today, leads[1..])
      && CacheAfter(cache, fetches) == CacheAfter(fetches[0].cache, fetches[1..])
  {
  }

  /** Splitting off the first lead time of a run: its posts come first. */
  lemma {:induction false} RunAttemptsStep(tail: seq<Fetch>, rest: seq<LeadTime>, hourOf: string -> int,
                                           sent: seq<TextRequest>)
    requires |tail| == |rest| && rest != []
    ensures sent + Requests(RunAttempts(tail, rest, hourOf))
         == (sent + Requests(Planned(tail[0].users, hourOf, rest[0]))) + Requests(RunAttempts(tail[1..], rest[1..], hourOf))
  {
    var plan := Planned(tail[0].users, hourOf, rest[0]);
    var more := RunAttempts(tail[1..], rest[1..], hourOf);
    assert RunAttempts(tail, rest, hourOf) == plan + more;
    RequestsAppend(plan, more);
  }

  /** Splitting off the first lead time of a run: its emails come first, and
      the rest of the run numbers its posts after the first lead time's. */
  lemma {:induction false} RunEmailsStep(tail: seq<Fetch>, rest: seq<LeadTime>, hourOf: string -> int,
                                         transport: Transport, sent: seq<TextRequest>, emails: seq<Email>)
    requires |tail| == |rest| && rest != []
    ensures var plan := Planned(tail[0].users, hourOf, rest[0]);
      emails + RunEmails(tail, rest, hourOf, transport, |sent|)
        == (emails + FailureEmails(plan, |sent|, transport))
          + RunEmails(tail[1..], rest[1..], hourOf, transport, |sent + Requests(plan)|)
  {
    var plan := Planned(tail[0].users, hourOf, rest[0]);
    var fe := FailureEmails(plan, |sent|, transport);
    var later := RunEmails(tail[1..], rest[1..], hourOf, transport, |sent| + |plan|);
    assert RunEmails(tail, rest, hourOf, transport, |sent|) == fe + later;
    assert |sent + Requests(plan)| == |sent| + |plan|;
    AppendAssoc(emails, fe, later);
  }

  /** One more post extends both logs by that attempt's request and alert. */
  lemma LogStep(sent0: seq<TextRequest>, emails0: seq<Email>, plan: seq<Attempt>, next: Attempt,
                start: nat, transport: Transport,
                s0: seq<TextRequest>, e0: seq<Email>, s1: seq<TextRequest>, e1: seq<Email>)
    requires s0 == sent0 + Requests(plan) && e0 == emails0 + FailureEmails(plan, start, transport)
    requires |sent0| == start
    requires s1 == s0 + [next.request] && e1 == e0 + Alert(next, transport(|s0|))
    ensures s1 == sent0 + Requests(plan + [next])
    ensures e1 == emails0 + FailureEmails(plan + [next], start, transport)
  {
    RequestsAppend(plan, [next]);
    FailureEmailsSnoc(plan, next, start, transport);
  }

  /** The reminder service: the lookup it calls and the logs of what it
      posted to the text gateway and of the operator emails it sent. */
  class ReminderService {
    const data: DataService
    var sent: seq<TextRequest>
    var emails: seq<Email>

    constructor (data: DataService)
      ensures this.data == data && sent == [] && emails == []
    {
      this.data := data;
      sent := [];
      emails := [];
    }

    /** sendTextMessage: one post; on failure one operator email. */
    method SendTextMessage(user: User, contact: Contact, content: string, transport: Transport)
      modifies this`sent, this`emails
      ensures sent == old(sent) + [TextRequest([user.phone], content)]
      ensures emails == old(emails) + Alert(Attempt(user, contact, TextRequest([user.phone], content)), transport(|old(sent)|))
    {
      var outcome := transport(|sent|);
      sent := sent + [TextRequest([user.phone], content)];
      if !outcome.Delivered? {
        emails := emails + [FailureEmail(user, contact, ErrorDetail(outcome))];
      }
    }

    /** sendMessagesForUpcomingBirthdays for one lead time. */
    method SendMessagesForUpcomingBirthdays(db: Db, today: Date, lead: LeadTime, hourOf: string -> int, transport: Transport)
      requires Valid(today)
      modifies this`sent, this`emails, data
      ensures var f := Lookup(old(data.cache), db, today, lead);
        var plan := Planned(f.users, hourOf, lead);
        && data.cache == f.cache
        && data.queries == old(data.queries) + (if f.queried then 1 else 0)
        && sent == old(sent) + Requests(plan)
        && emails == old(emails) + FailureEmails(plan, |old(sent)|, transport)
    {
      var users := data.FetchUsersWithBirthdays(db, today, lead);
      ghost var start := |old(sent)|;
      var i := 0;
      ghost var plan: seq<Attempt> := [];
      while i < |users|
        invariant 0 <= i <= |users|
        invariant plan == Planned(users[..i], hourOf, lead)
        invariant sent == old(sent) + Requests(plan)
        invariant emails == old(emails) + FailureEmails(plan, start, transport)
        modifies this`sent, this`emails
      {
        var user := users[i].user;
        var contacts := users[i].contacts;
        PlannedSnoc(users, i, hourOf, lead);
        if hourOf(user.timeZone) == SendHour {
          ghost var done := plan;
          var j := 0;
          while j < |contacts|
            invariant 0 <= j <= |contacts|
            invariant plan == done + AttemptsFor(user, contacts[..j], lead)
            invariant sent == old(sent) + Requests(plan)
            invariant emails == old(emails) + FailureEmails(plan, start, transport)
            modifies this`sent, this`emails
          {
            var contact := contacts[j];
            ghost var next := AttemptFor(user, contact, lead);
            AttemptsForSnoc(user, contacts, j, lead);
            ghost var s0, e0 := sent, emails;
            SendTextMessage(user, contact, ReminderText(lead, contact.name), transport);
            LogStep(old(sent), old(emails), plan, next, start, transport, s0, e0, sent, emails);
            AppendAssoc(done, AttemptsFor(user, contacts[..j], lead), [next]);
            plan := plan + [next];
            j := j + 1;
          }
          assert contacts[..j] == contacts;
        }
        i := i + 1;
      }
      assert users[..i] == users;
    }

    /** processBirthdayMessages: the five lead times in turn. However each
        post turns out, every planned post of every lead time is made. */
    method ProcessBirthdayMessages(db: Db, today: Date, hourOf: string -> int, transport: Transport)
      requires Valid(today)
      modifies this`sent, this`emails, data
      ensures var fetches := Fetches(old(data.cache), db, today, RunLeadTimes);
        && data.cache == CacheAfter(old(data.cache), fetches)
        && data.queries == old(data.queries) + RunQueries(fetches)
        && sent == old(sent) + Requests(RunAttempts(fetches, RunLeadTimes, hourOf))
        && emails == old(emails) + RunEmails(fetches, RunLeadTimes, hourOf, transport, |old(sent)|)
    {
      ghost var tail := Fetches(data.cache, db, today, RunLeadTimes);
      ghost var allSent := sent + Requests(RunAttempts(tail, RunLeadTimes, hourOf));
      ghost var allEmails := emails + RunEmails(tail, RunLeadTimes, hourOf, transport, |sent|);
      ghost var allQueries := data.queries + RunQueries(tail);
      ghost var rest := RunLeadTimes;
      FetchesStep(data.cache, db, today, rest);
      RunAttemptsStep(tail, rest, hourOf, sent);
      RunEmailsStep(tail, rest, hourOf, transport, sent, emails);
      SendMessagesForUpcomingBirthdays(db, today, 0, hourOf, transport);
      tail, rest := tail[1..], rest[1..];
      assert allQueries == data.queries + RunQueries(tail);
      assert rest == [1, 2, 3, 7];
      FetchesStep(data.cache, db, today, rest);
      RunAttemptsStep(tail, rest, hourOf, sent);
      RunEmailsStep(tail, rest, hourOf, transport, sent, emails);
      SendMessagesForUpcomingBirthdays(db, today, 1, hourOf, transport);
      tail, rest := tail[1..], rest[1..];
      assert allQueries == data.queries + RunQueries(tail);
      assert rest == [2, 3, 7];
      FetchesStep(data.cache, db, today, rest);
      RunAttemptsStep(tail, rest, hourOf, sent);
      RunEmailsStep(tail, rest, hourOf, transport, sent, emails);
      SendMessagesForUpcomingBirthdays(db, today, 2, hourOf, transport);
      tail, rest := tail[1..], rest[1..];
      assert allQueries == data.queries + RunQueries(tail);
      assert rest == [3, 7];
      FetchesStep(data.cache, db, today, rest);
      RunAttemptsStep(tail, rest, hourOf, sent);
      RunEmailsStep(tail, rest, hourOf, transport, sent, emails);
      SendMessagesForUpcomingBirthdays(db, today, 3, hourOf, transport);
      tail, rest := tail[1..], rest[1..];
      assert allQueries == data.queries + RunQueries(tail);
      assert rest == [7];
      FetchesStep(data.cache, db, today, rest);
      RunAttemptsStep(tail, rest, hourOf, sent);
      RunEmailsStep(tail, rest, hourOf, transport, sent, emails);
      SendMessagesForUpcomingBirthdays(db, today, 7, hourOf, transport);
      tail, rest := tail[1..], rest[1..];
      assert allQueries == data.queries + RunQueries(tail);
      assert rest == [];
    }
  }
}
