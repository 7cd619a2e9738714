/**
 What the activities of the timeline say. Mail that arrives is shared by its direction, its subject
 and its time only; its text is kept for the owner of the mailbox. Mail that is taken over later is
 told with its text, cut at 2000 characters.
 */
module ActivityTexts {
  import opened Wrappers
  import opened Text
  import opened CrmTables
  import opened EmailSync
  import opened EmailSyncProofs
  import opened IngestedContent
  import opened SenderSuggestions
  import opened Suggestions
  import opened ProcessedMail

  // ----- what is shared -----

  /** How the first line of a recorded mail reads. */
  predicate Announces(line: string, direction: string) {
    if direction == "outbound" then line == "Outbound email"
    else if direction == "inbound" then line == "Inbound email"
    else line == "Email"
  }

  /** The subject stands, trimmed, on what follows; without one nothing follows. */
  predicate NamesSubject(rest: seq<string>, subject: string) {
    if Trim(subject) == "" then rest == [] else rest != [] && Join(rest) == "Subject: " + Trim(subject)
  }

  /** What the organization sees of a mail: its direction, its subject and when it was sent. */
  ghost predicate Shares(a: Activity, m: Message) {
    && Announces(Lines(a.body)[0], m.direction) && NamesSubject(Lines(a.body)[1..], m.subject)
    && a.occurredAt == m.sentAt
  }

  lemma {:induction false} JoinOfLines(s: string)
    ensures Join(Lines(s)) == s
  {
    if s != "" {
      JoinOfLines(s[1..]);
      var rest := Lines(s[1..]);
      if s[0] == '\n' {
        assert ([""] + rest)[1..] == rest && "" + "\n" + s[1..] == s;
      } else {
        assert Lines(s) == [[s[0]] + rest[0]] + rest[1..];
        JoinOfCons([s[0]], rest);
        assert [s[0]] + s[1..] == s;
      }
    }
  }

  lemma JoinOfCons(front: string, lines: seq<string>)
    requires lines != []
    ensures Join([front + lines[0]] + lines[1..]) == front + Join(lines)
  {
    var longer := [front + lines[0]] + lines[1..];
    assert longer[1..] == lines[1..];
    if |lines| > 1 {
      Associates(front, lines[0], "\n" + Join(lines[1..]));
      Associates(lines[0], "\n", Join(lines[1..]));
      Associates(front + lines[0], "\n", Join(lines[1..]));
    }
  }

  lemma Associates(a: string, b: string, c: string)
    ensures (a + b) + c == a + (b + c)
  {
  }

  lemma SharedAfter(about: string, subject: string)
    requires '\n' !in about && subject != ""
    ensures Lines(about + "\nSubject: " + subject)[0] == about
    ensures Lines(about + "\nSubject: " + subject)[1..] != []
    ensures Join(Lines(about + "\nSubject: " + subject)[1..]) == "Subject: " + subject
  {
    var second := "Subject: " + subject;
    assert about + "\nSubject: " + subject == about + "\n" + second;
    LinesOfConcat(about, second);
    OneLine(about);
    JoinOfLines(second);
    assert ([about] + Lines(second))[1..] == Lines(second);
  }

  lemma RecordedShares(m: Message)
    ensures Shares(Recorded(m), m)
  {
    var about := if m.direction == "outbound" then "Outbound email"
                 else if m.direction == "inbound" then "Inbound email" else "Email";
    if Trim(m.subject) != "" {
      SharedAfter(about, Trim(m.subject));
    } else {
      OneLine(about);
    }
  }

  /** The activity of a mail is new, tells what is shared of it, and is the only new one. */
  ghost predicate SharedRow(t: Tables, after: Tables, id: Id, m: Message) {
    && id !in t.activities && id in after.activities && Shares(after.activities[id], m)
    && after.activities == t.activities[id := after.activities[id]]
  }

  /**
   Any outcome of a fetched message: when people are recorded, its activity tells what is shared, even
   when the message then fails; otherwise the activities are as before.
   */
  lemma ProcessedMailIsShared(w: World, db: Db, account: Account, m: Message)
    requires ValidWorld(w) && Idle(db) && FreshIds(w, db.durable, db.next)
    ensures var r := Process(w, db, account, m);
            if if r.Ok? then r.value.linked else r.db.durable != db.durable
            then SharedRow(db.durable, r.db.durable, w.uuid(db.next), m)
            else r.db.durable.activities == db.durable.activities
  {
    ProcessEffect(w, db, account, m);
    RecordedShares(m);
  }

  /** A processed mail was recorded as this activity. */
  ghost predicate PublishedAs(w: World, db: Db, account: Account, m: Message, a: Activity) {
    && ValidWorld(w) && Idle(db) && FreshIds(w, db.durable, db.next)
    && Process(w, db, account, m).Ok? && Process(w, db, account, m).value.linked
    && w.uuid(db.next) in Process(w, db, account, m).db.durable.activities
    && Process(w, db, account, m).db.durable.activities[w.uuid(db.next)] == a
  }

  lemma PublishedShares(w: World, db: Db, account: Account, m: Message, a: Activity)
    requires PublishedAs(w, db, account, m, a)
    ensures Shares(a, m)
  {
    ProcessedMailIsShared(w, db, account, m);
  }

  lemma {:induction false} JoinAfter(line: string, rest: seq<string>)
    ensures Join([line] + rest) == if rest == [] then line else line + "\n" + Join(rest)
  {
    assert ([line] + rest)[1..] == rest;
  }

  /** Direction, subject and time leave one activity only. */
  lemma SharedIsOne(a: Activity, b: Activity, m: Message, n: Message)
    requires Shares(a, m) && Shares(b, n)
    requires m.direction == n.direction && m.subject == n.subject && m.sentAt == n.sentAt
    ensures a == b
  {
    JoinOfLines(a.body);
    JoinOfLines(b.body);
    JoinAfter(Lines(a.body)[0], Lines(a.body)[1..]);
    JoinAfter(Lines(b.body)[0], Lines(b.body)[1..]);
    assert Lines(a.body) == [Lines(a.body)[0]] + Lines(a.body)[1..];
    assert Lines(b.body) == [Lines(b.body)[0]] + Lines(b.body)[1..];
  }

  /** In any two states, the organization sees the same of mails that agree in direction, subject and time. */
  lemma TextIsNotShared(w: World, db: Db, account: Account, m: Message, a: Activity,
                        other: Db, box: Account, n: Message, b: Activity)
    requires PublishedAs(w, db, account, m, a) && PublishedAs(w, other, box, n, b)
    requires m.direction == n.direction && m.subject == n.subject && m.sentAt == n.sentAt
    ensures a == b
  {
    PublishedShares(w, db, account, m, a);
    PublishedShares(w, other, box, n, b);
    SharedIsOne(a, b, m, n);
  }

  // ----- what is private -----

  /** Subject and text with a blank line between them; nothing or a blank line where one is missing. */
  predicate HoldsText(held: string, subject: string, text: string) {
    held == subject + "\n\n" + text || ((subject == "" || text == "") && held == subject + text)
  }

  /** The owner of the mailbox keeps the whole mail under its activity; without an owner or a text nobody does. */
  ghost predicate OwnerKeeps(t: Tables, after: Tables, account: Account, m: Message, id: Id) {
    var subject, text := Trim(m.subject), Trim(m.body);
    if account.owner != "" && (subject != "" || text != "") then
      && id in after.details && HoldsText(after.details[id], subject, text)
      && after.details == t.details[id := after.details[id]]
    else after.details == t.details
  }

  lemma PrivateBodyHolds(m: Message)
    ensures PrivateBody(m) == "" <==> Trim(m.subject) == "" && Trim(m.body) == ""
    ensures HoldsText(PrivateBody(m), Trim(m.subject), Trim(m.body))
  {
    var subject, text := Trim(m.subject), Trim(m.body);
    if m.body != "" {
      assert subject == "" ==> "" + text == text && subject + text == text;
    }
  }

  lemma RecordedMailIsKept(w: World, db: Db, account: Account, m: Message)
    requires ValidWorld(w) && Idle(db) && FreshIds(w, db.durable, db.next)
    requires Process(w, db, account, m).Ok? && Process(w, db, account, m).value.linked
    ensures OwnerKeeps(db.durable, Process(w, db, account, m).db.durable, account, m, w.uuid(db.next))
  {
    ProcessedMailExactly(w, db, account, m);
    PrivateBodyHolds(m);
  }

  lemma UnlinkedTimeline(w: World, db: Db, account: Account, m: Message)
    requires ValidWorld(w) && db.inTx
    ensures var r := LinkEmailToTimeline(w, db, account, m);
            r.Ok? && !r.value.linked ==> r.db.inTx && r.db.next == db.next && r.db.view == db.view
  {
    TimelineStages(w, db, account, m);
    MatchPeopleReads(w, db, RelevantEmails(account, m), {});
  }

  lemma UnlinkedKeepsDetails(w: World, db: Db, account: Account, m: Message)
    requires ValidWorld(w) && db.inTx && FreshIds(w, db.view, db.next)
    ensures var r := RecordAndSuggest(w, db, account, m);
            r.Ok? && !r.value.linked ==> r.db.view.details == db.view.details
  {
    UnlinkedTimeline(w, db, account, m);
    var link := LinkEmailToTimeline(w, db, account, m);
    if link.Ok? && !link.value.linked {
      EntitiesAddNoDeal(w, link.db, account, m);
    }
  }

  lemma InsideKeepsDetails(w: World, db: Db, account: Account, m: Message)
    requires ValidWorld(w) && db.inTx && FreshIds(w, db.view, db.next)
    ensures var r := ProcessNoTx(w, db, account, m);
            r.Ok? && !r.value.linked ==> r.db.view.details == db.view.details
  {
    StoredFresh(w, db, m);
    var up := UpsertEmailMessage(w, db, m);
    if up.Ok? && up.value {
      UnlinkedKeepsDetails(w, up.db, account, m);
    }
  }

  lemma UnrecordedKeepsDetails(w: World, db: Db, account: Account, m: Message)
    requires ValidWorld(w) && Idle(db) && FreshIds(w, db.durable, db.next)
    ensures var r := Process(w, db, account, m);
            r.Ok? && !r.value.linked ==> r.db.durable.details == db.durable.details
  {
    var begun := Begin(w, db);
    if begun.Ok? {
      InsideKeepsDetails(w, begun.db, account, m);
      ProcessNoTxEffect(w, begun.db, account, m);
      FinishOutcome(w, ProcessNoTx(w, begun.db, account, m));
    }
  }

  /**
   Any outcome of a fetched message: the owner of the mailbox keeps it when it was recorded, and
   otherwise nobody's texts change.
   */
  lemma ProcessedMailIsKept(w: World, db: Db, account: Account, m: Message)
    requires ValidWorld(w) && Idle(db) && FreshIds(w, db.durable, db.next)
    ensures var r := Process(w, db, account, m);
            if r.Ok? && r.value.linked then OwnerKeeps(db.durable, r.db.durable, account, m, w.uuid(db.next))
            else r.db.durable.details == db.durable.details
  {
    var r := Process(w, db, account, m);
    if r.Ok? && r.value.linked {
      RecordedMailIsKept(w, db, account, m);
    } else if r.Ok? {
      UnrecordedKeepsDetails(w, db, account, m);
    } else {
      ProcessEffect(w, db, account, m);
    }
  }

  // ----- what is told of mail that is taken over -----

  /** The text as it is, or its first characters with an ellipsis, 2000 in all. */
  predicate IsCut(cut: string, text: string) {
    if |text| <= 2000 then cut == text
    else |cut| == 2000 && cut[1999] == '\U{2026}' && cut[..1999] == text[..1999]
  }

  /** What an activity tells of a mail that was stored before: its subject, its text up to 2000 characters, and its time. */
  ghost predicate Recalls(a: Activity, m: Message) {
    && a.occurredAt == m.sentAt
    && exists cut :: IsCut(cut, Trim(m.body)) && HoldsText(a.body, Trim(m.subject), cut)
  }

  lemma HistoricalRecalls(m: Message)
    ensures Recalls(HistoricalActivity(m), m)
  {
    var subject, text := Trim(m.subject), Trim(m.body);
    var cut := TruncatePromptText(text, 2000);
    assert IsCut(cut, text);
    assert m.body == "" ==> cut == "" && subject + cut == subject;
    assert HoldsText(HistoricalBody(m), subject, cut);
  }
}
