# Verified model of crme

Dafny 4.11 model of the parts of crme whose correctness spans many steps: mail ingestion and the
life of a suggestion, the assistant's JSON scanner and entity ranking, login artefacts and
organization membership, the in-memory rate limiter, and three pieces of the frontend.
`dafny verify dfyconfig.toml` checks the whole project.

## How it is organised

| files | what they hold |
|---|---|
| `Wrappers`, `Text` | options; the parts of Go's `strings` package that the CRM rests on |
| `CrmTables`, `CrmQueries` | the tables an organization sees, the outside world as an oracle (which store call fails, which ids the database hands out, in which order a Go map is walked), and one function for each statement; what the reading statements answer |
| `EmailSync`, `OrganizationSync`, `Suggestions` | mail ingestion, the sync over all organizations and the suggestion use cases as functions of the database state |
| `CrmStore`, `EmailService`, `SyncService`, `SuggestionService` | the same as objects with loops and updates in place; each method is proved equal to its function, failures included, and the requests state what that means for the tables |
| `EmailSyncProofs`, `IngestedContent`, `SenderSuggestions`, `ProcessedMail`, `ActivityTexts`, `TimelineRuns`, `MailFolders`, `MailCursors`, `FetchedMail`, `LostMail`, `SyncAccounting`, `FailureTraces`, `HistoricalMail`, `Acceptance`, `AcceptanceConditions`, `GrantedRequests`, `RefusedContacts`, `Runs`, `SuggestionRuns`, `SuggestionTargets`, `Reopening`, `AddressOwners`, `Replay`, `ContactRoundTrip`, `SuggestionBody`, `SuggestionRoundTrip` | what is proved about them |
| `ConcreteWorlds` | an outside world for the inputs at which a promise fails |
| `JsonScanner`, `PendingAction`, `EntityRanking` | the assistant |
| `AuthTables`, `AuthService`, `AuthRuns`, `AuthAnswers` | links, sessions, housekeeping |
| `Membership`, `MembershipService`, `MembershipRuns`, `MembershipEffects` | members, roles, invitations |
| `RateLimiter`, `RateLimiterRuns` | the sliding window |
| `CrmShell`, `PagedList`, `Dashboard` | the frontend |

A database state has a `view`, what the running transaction reads, and a `durable` part, what a
rollback leaves behind. Any store call may fail. A failed statement aborts its transaction, as
Postgres does: an error that the service ignores still makes the commit fail.

## Where the code differs from what it promises

* **A message that fails can leave a trace.** `begin` always starts on the pool
  (`internal/adapters/postgres/store.go:226-236`), so `CreateActivity` and `AddPersonEmail` commit
  on their own even inside `WithinTx`. When a later call of the same message fails, the rollback
  takes the message back but not its activity. `FailureTraces.AllOrNothingIff` is the exact
  condition: a message leaves no trace, however calls fail, if and only if it is stored already or
  nobody answers to its addresses. `FailureTraces.FailureLeavesActivity` names the failing call for
  every other message, `FailureTraces.FailingInputExists` exhibits one, and
  `OrganizationSyncs.SyncReportMatchesTables` and `Runs.OrphansOverRuns` count the activities left behind.
* **Mail that failed can be lost.** A folder's cursor moves after its messages whatever became of
  them (`internal/usecase/email.go:230-246`), and the server is asked for mail from the day before
  the cursor only (`internal/adapters/email/imap.go:65-67`). `LostMail.MailIsLostIff` is the exact
  condition: mail whose processing failed is lost if and only if it arrived earlier than the day
  before the sync. `LostMail.LostMailExists` exhibits a mail that one failing call loses.
* **Accepting a contact fails under row-level security** when some stored message of the address has
  no activity yet: the activity is created in a transaction of its own, where the policy of
  `migrations/030_enforce_org_consistency_on_links.sql:63-72` cannot see the person just created.
  `AcceptanceConditions.AcceptCreatesContactIff` is the exact condition. The mail that suggested a
  contact is such a message: `RefusedContacts.OwnMailRefuses` says that it stands in the way of the
  contact it suggested until it has an activity, and `RefusedContacts.RefusedInputExists` exhibits
  the first mail of a stranger, who could be accepted without the policy.
* **An empty field of a suggestion can be filled by the sender**: the further lines of his name, of
  his address and of the subject, and the quoted context, are parsed like the header. The printed lines around them
  never are. A field that was not found stays empty if and only if the first of the sender's own
  lines with its label, if there is one, has nothing after the colon. A further line of the name or of
  the address even takes the place of a field that was found. A name or a phone that spans lines is read back up to
  its first line; the pattern for phones finds such ones (`internal/usecase/email.go:534`).
  `SuggestionRoundTrip.RoundTripIff` and `SuggestionRoundTrip.SubjectFillsEmptyField`.
* **Reopening a suggestion can double it.** Mail asks whether a prompt of the kind and title is open
  before it adds one, reopening does not (`internal/usecase/suggestions.go:79-112`).
  `SuggestionRuns.OneOpenPromptOverRuns` and `SuggestionRuns.StepKeepsOneOpenIff` are the exact
  condition, and `SuggestionRuns.DoubledPromptExists` exhibits tables.
* **The last owner can demote himself** by accepting an invitation to his own organization, because
  the accepting statement overwrites the role. `MembershipRuns.OwnersOverRuns` and
  `MembershipRuns.LastOwnerDemotedByInvitation`.
* **Linking a suggestion to a person adds an address without looking it up**. The unique indexes
  (`migrations/019_harden_organization_constraints.sql:30-32`) look at people's own columns and at
  added addresses separately, so two people come to answer to an address that is the column of the
  one and is added to the other. `AddressOwners.OnePersonOverRuns` and
  `AddressOwners.StepKeepsOnePersonIff` are the exact condition, `AddressOwners.SharedByColumn` says
  what the indexes leave of it, and `AddressOwners.SharedAddressExists` exhibits tables.
* **"Previous" can be without effect** after the list of later tasks has shrunk, because the pager
  steps back from the page number it kept. `Dashboard.PreviousMovesIff`.
* **Tasks that share an id are lost** from the dashboard. `Dashboard.PartitionIff`.

## Model

| member | source | states |
|---|---|---|
| EmailSyncProofs.ProcessEffect | internal/usecase/email.go:287-320 | one fetched message, any store call failing: it is new and leaves exactly the rows it reports, or stored already and changes nothing, or failed and changes nothing but an activity already committed |
| OrganizationSyncs.SyncReportMatchesTables | internal/usecase/email.go:186-253 | over a whole sync of the mailboxes of all organizations, any call failing anywhere: new messages, suggestions and linked messages of the report are the growth of all organizations' tables together; activities grow by the linked messages plus the orphans, and orphans are at most the errors; an organization without a mailbox keeps its tables |
| OrganizationSyncs.MailboxBalanced | internal/usecase/email.go:196-253 | one mailbox changes the tables of its own organization only, by what it adds to the report |
| FetchedMail.EveryMailboxIsFetched | internal/usecase/email.go:196-247 | when no call fails, for every mailbox of a sync whose secret resolves and every folder that the listing chooses, or the inbox when it cannot be listed: each message the server answers to the cursor stored before that mailbox is in its organization's tables after the sync, and the folder's cursor is set |
| FetchedMail.ListedOnceIsFetched | internal/usecase/email.go:196-247 | a mailbox that the sync has not reached before is asked from the cursors that were stored before the sync |
| FetchedMail.SiteMailboxIsTaken | internal/usecase/email.go:196-253 | one mailbox, when no call fails: without its secret nothing changes but one error; otherwise the stored messages grow by exactly what is answered for its folders, only cursors of its folders move, errors grow by what is not answered, and other organizations' tables stay |
| FetchedMail.MailboxSkipped | internal/usecase/email.go:200-219 | whichever calls fail, a mailbox whose secret does not resolve, or whose cursors cannot be read, leaves the tables as they were |
| FetchedMail.ErrorsExactly | internal/usecase/email.go:196-251 | whichever calls fail, there is a report exactly if the mailboxes could be listed, and its errors are one for each secret that does not resolve, listing, reading of cursors, folder, message and marking that fails, no more and no less |
| FailureTraces.AllOrNothingIff | internal/adapters/postgres/tx.go:9-34 | for any state, mailbox and message: however store calls fail, a failed message leaves the durable tables as they were, if and only if it is stored already or nobody answers to its addresses |
| FailureTraces.StrangersLeaveNoTrace | internal/usecase/email.go:322-337 | mail whose addresses lead to nobody never leaves a trace when it fails |
| FailureTraces.FailureLeavesActivity | internal/adapters/postgres/crm.go:351-370 | for every other message, when only the call after the recording fails, the message is rolled back and an activity no message points at stays |
| FailureTraces.FailingInputExists | internal/adapters/postgres/store.go:226-236 | such a message exists, for a mailbox with an owner |
| Runs.StepEvolves | internal/usecase/suggestions.go:86-287 | every step, failed or not, keeps messages, pointers and activities, never shares an activity between messages, and adds orphans only when it failed |
| Runs.ActivityPointersOverRuns | internal/usecase/suggestions.go:289-332 | over every run of all steps, failures included, a pointer once set never changes, no two messages share an activity, and an activity of the run is pointed to by a message if and only if no failed step left it behind |
| Runs.OrphansOverRuns | internal/adapters/postgres/store.go:226-236 | over every run the activities that no message points at are those of before and those recorded by failed steps, no more and no less |
| Runs.FailedStepLeaves | internal/usecase/suggestions.go:86-287 | a failed step takes its mail back and leaves what it recorded: a fetch the activity of its message exactly if that was recorded, accepting and linking a contact those of older messages, any other step nothing |
| HistoricalMail.LinkHistoricalEmailsEffect | internal/usecase/suggestions.go:289-332 | on success the newest messages of the address, at most 200, were linked one by one, creating the missing activities only; a failure leaves activities at most |
| HistoricalMail.HistoryTaken | internal/usecase/suggestions.go:289-332 | the last touch is then the latest of the old one and of all messages that mention the address, however many; with at most 200 each is linked, and as many activities were created as messages had none |
| HistoricalMail.TouchRowsLatest | internal/adapters/postgres/ai_email.go:179-182 | touching in any order ends in the maximum, and changes nothing else of anybody |
| CrmQueries.ListedAreNewest | internal/adapters/postgres/ai_email.go:148-155 | the listing holds as many messages that mention the address as the limit admits, each once, newest first, and none left out is newer than one of them |
| Acceptance.AcceptEffect | internal/usecase/suggestions.go:114-205 | accepting changes the tables in the way of the prompt's kind, and answers with the record: an existing one only if the address or the domain leads to it, a new one, with its whole history and employer, only if none does; a failed acceptance leaves activities at most |
| Acceptance.AcceptTakesHistory | internal/usecase/suggestions.go:136-164 | the created person's last touch is the latest of all messages of the address, and with at most 200 of them each is linked to him |
| Acceptance.EmployerExactly | internal/usecase/suggestions.go:153-159 | in a transaction that goes on, one employment is added, with a company of the address's domain, if and only if there is such a company |
| Acceptance.LinkToPersonEffect | internal/usecase/suggestions.go:207-251 | linking adds the address, takes over the newest history and links the employer; a failed one leaves at most the added address and activities |
| Acceptance.LinkTakesHistory | internal/usecase/suggestions.go:220-251 | the person's last touch is the latest of the old one and of all messages of the address, and with at most 200 of them each is linked to him |
| Runs.LinkCompanyEffect | internal/usecase/suggestions.go:253-287 | linking to a company adds the domain and accepts the prompt, or does nothing |
| AcceptanceConditions.AcceptCreatesContactIff | migrations/030_enforce_org_consistency_on_links.sql:63-72 | without failing calls a contact is created if and only if nobody answers, the mail names somebody, and under row-level security every message the history lists has its activity, for any number of messages |
| AcceptanceConditions.AcceptCreatesContactOfFew | internal/usecase/suggestions.go:127-164 | with at most 200 messages of the address, that is every message that mentions it |
| GrantedRequests.AcceptedIff | internal/usecase/suggestions.go:114-205 | when no call fails, a suggestion is accepted exactly if it is open and, for a contact, names an address that somebody answers to or whose person can be created; for a deal, names the deal and a stored activity; for a company, names a domain that a company owns or that leaves a name |
| GrantedRequests.LinkedToPersonIff | internal/usecase/suggestions.go:207-251 | when no call fails, linking to a person goes well exactly for a contact suggestion that names an address, a stored person, and an address the unique indexes admit |
| GrantedRequests.LinkedToCompanyIff | internal/usecase/suggestions.go:253-287 | when no call fails, linking to a company goes well exactly for a company suggestion that names a domain and a stored company |
| GrantedRequests.LinkedCompanyOwns | internal/usecase/suggestions.go:266-287 | the linked company is found by the domain afterwards |
| Suggestions.CompanyIsNamed | internal/usecase/suggestions.go:193-195 | a created company is named by its domain without ".com" or ".de" at the end |
| RefusedContacts.OwnMailRefuses | internal/usecase/suggestions.go:136-164 | with policies and no failing call, whatever happened since a mail suggested its sender: as long as that mail has no activity, and at most 200 messages mention the address, accepting the suggestion creates nobody |
| RefusedContacts.NamedStrangerRefused | migrations/030_enforce_org_consistency_on_links.sql:63-72 | the first mail of a stranger with a name is refused at once under the policies, and accepted without them |
| RefusedContacts.RefusedInputExists | migrations/030_enforce_org_consistency_on_links.sql:63-72 | a world, empty tables and a mail for which that happens |
| SuggestionRuns.OneOpenPromptOverRuns | internal/usecase/email.go:366-406 | over every run, failures included, at most one prompt of each kind and title is open throughout, if and only if no prompt is reopened while another one of its kind and title is open |
| SuggestionRuns.StepKeepsOneOpenIff | internal/usecase/suggestions.go:79-112 | the same for one step of any kind, failed or not |
| SuggestionRuns.DoubledPromptExists | internal/usecase/suggestions.go:79-84 | tables with a dismissed and an open prompt for which reopening breaks the rule |
| SuggestionRuns.SuppressionLasts | internal/adapters/postgres/ai_email.go:32-46 | over every run that does not lift it, a suppression stays and no prompt of its kind and target is created; that reopening lifts it is Reopening.ReopenedExactly |
| SuggestionRuns.NeverAskAgain | internal/usecase/suggestions.go:86-99 | suppressing a prompt has that effect for its own target, stored or named by its text |
| Reopening.SuppressedExactly | internal/usecase/suggestions.go:86-99 | declining, whichever call fails: it goes well exactly if the prompt is stored, has a target and no call fails; then the prompt is dismissed and its own suppression is the only one added; a failure of the second statement leaves the suppression, any other nothing |
| Reopening.ReopenedExactly | internal/usecase/suggestions.go:101-112 | reopening, whichever call fails: it goes well exactly if the prompt is stored and no call fails; then the prompt is open and the suppressions are those of before without its own; a failure of the second statement leaves the suppression lifted, any other nothing |
| Reopening.ResolvedExactly | internal/usecase/suggestions.go:79-84 | setting a status goes well exactly if the prompt is stored and the call does not fail; then that prompt has it and nothing else changes |
| Reopening.ReopenedStaysLifted | internal/usecase/suggestions.go:101-112 | over every run that does not decline the contact again, he is then not suppressed |
| Reopening.ReopenedIsSuggestedAgain | internal/usecase/suggestions.go:101-112 | after any such run a processed new mail of the contact, with nobody answering to his address and no open suggestion of him, suggests him again |
| Reopening.DeclinedThenReopened | internal/usecase/suggestions.go:86-112 | a contact declined, reopened and dismissed is suggested again by his next mail |
| AddressOwners.OnePersonOverRuns | internal/usecase/suggestions.go:127-251 | over every run, failures included, at most one person answers to an address throughout, if and only if no suggestion is linked to a person while somebody else answers to its address |
| AddressOwners.StepKeepsOnePersonIff | internal/usecase/suggestions.go:220-251 | the same for one step of any kind, failed or not |
| AddressOwners.SharedByColumn | migrations/019_harden_organization_constraints.sql:30-32 | what the unique indexes leave of it: the address is the other person's column, and the person linked to has a column of his own |
| AddressOwners.LinkedKeepsOnePersonIff | internal/usecase/suggestions.go:207-251 | a successful link keeps the rule if and only if nobody else answered to the address before |
| AddressOwners.SharedAddressExists | internal/adapters/postgres/crm.go:74-93 | tables, a suggestion and a person for which linking breaks the rule |
| AddressOwners.DeletedIsForgotten | internal/adapters/postgres/crm.go:26-46 | deleting a person goes well exactly if the call does; then he answers to no address and is linked and employed nowhere, everybody else and everything else is as before |
| Replay.ReplayIsHarmless | internal/usecase/email.go:302-320 | without failures, any message sequence with repeats ends in the same tables and report as its first occurrences |
| IngestedContent.RelevantEmailsMeans | internal/usecase/email.go:629-646 | the relevant addresses are the normalised ones of sender and recipients without the mailbox's own, each once |
| IngestedContent.RelevantAreMentioned | internal/usecase/email.go:629-646 | with trimmed addresses, recording and the listing of a history agree on whom a mail concerns, but for the mailbox's own address |
| IngestedContent.MatchedRepresent | internal/usecase/email.go:322-334 | everybody matched answers to a relevant address, and each such address that somebody answers to has somebody matched |
| ProcessedMail.ProcessedMailExactly | internal/usecase/email.go:302-406 | a processed message is recorded for people who answer to its addresses, with somebody for each answered one; its activity is linked to exactly them, and exactly they are touched, by the later of the old time and the mail's; each deal of these people has an open link prompt, and every link prompt added asks about one of them and this activity |
| ActivityTexts.ProcessedMailIsShared | internal/usecase/email.go:605-616 | any outcome of a fetched message: when it is recorded, even if it then fails, the one new activity tells the direction on its first line, the trimmed subject on the rest unless it is blank, and the time of the mail, and nothing else; otherwise no activity changes |
| ActivityTexts.TextIsNotShared | internal/usecase/email.go:336-342 | mails that agree in direction, subject and time are recorded as the same activity, whatever their texts |
| ActivityTexts.ProcessedMailIsKept | internal/usecase/email.go:340-350 | any outcome: the owner's details of the activity hold the trimmed subject and the trimmed text, a blank line between them, if the mail was recorded, the mailbox has an owner and there is a text; otherwise nobody's details change |
| ActivityTexts.HistoricalRecalls | internal/usecase/suggestions.go:306-313 | the activity of mail that is taken over later tells the trimmed subject, the trimmed text cut at 2000 characters with an ellipsis, and the time of the mail |
| TimelineRuns.TimelineOverRuns | internal/usecase/suggestions.go:289-332 | over every run of all steps, failures included, no activity is lost or rewritten, and every message that points at an activity is told by it, as it arrived or as it was taken over, if that held before |
| TimelineRuns.TextStaysPrivate | internal/usecase/email.go:336-353 | a mail that was recorded on arrival points, after any run, at an activity that tells its direction, subject and time only |
| GrantedRequests.RecordedIffAnswered | internal/usecase/email.go:302-337 | when no call fails, a new message is processed, and recorded exactly if somebody answers to one of its relevant addresses |
| IngestedContent.DealLinksExactly | internal/usecase/email.go:366-406 | each deal of the people ends with an open link prompt, and every prompt added asks about one of them and this activity, for any order |
| SenderSuggestions.SenderSuggestedExactly | internal/usecase/email.go:415-482 | a processed new message adds a contact prompt and a company prompt about its sender exactly when the tables before call for it, with exactly these rows; a declined contact also stops the company |
| SenderSuggestions.ProvidersAreNoCompanies | internal/usecase/email.go:588-603 | mail from an address at one of the fifteen mail providers suggests no company |
| SuggestionTargets.ContactAims | internal/usecase/suggestions.go:334-350 | a suggested contact is open, dated by the mail and about the sender's address, and without its stored target about the first address found in its title and text |
| SuggestionTargets.CompanyAims | internal/usecase/suggestions.go:334-350 | a suggested company is about the sender's domain, with its stored target and without |
| SuggestionTargets.DealLinkAims | internal/usecase/email.go:380-404 | a suggested link is about the recorded activity and the deal, and is titled by the deal's name or id |
| EmailSync.DomainFollowsAt | internal/usecase/email.go:588-594 | the domain of an address is what follows the first at sign, trimmed and in lower case; without one there is none |
| MailFolders.FoldersChosen | internal/usecase/email.go:255-285 | exactly one inbox comes first, then every available sent folder, no other, and no two the same up to case |
| MailCursors.CursorOfFolder | internal/usecase/email.go:223-247 | a cursor moves if and only if the folder was fetched and the marking call goes well, whatever became of the messages, and no other cursor moves |
| MailCursors.MarkedMailAskedAgainIff | internal/adapters/email/imap.go:65-67 | mail of a marked folder, stored or not, is asked for by the next sync if and only if it arrived on the day before the mark or later; otherwise, over any later syncs of any mailboxes whose clock does not run back, never |
| LostMail.StoredIff | internal/usecase/email.go:230-243 | after a batch an id is stored if and only if it was before or processing succeeded for a message with it |
| LostMail.MailIsLostIff | internal/usecase/email.go:223-247 | a fetched message is neither stored nor ever asked for again if and only if it was not stored before, its processing failed, and it arrived earlier than the day before the mark |
| LostMail.LostMailExists | internal/usecase/email.go:230-246 | a mailbox, a mail that arrived two days before the mark and one failing call, for which the cursor moves and however the syncs go on the mail is lost |
| ContactRoundTrip.MailBecomesPerson | internal/usecase/email.go:415-482 | a mail that suggested its sender, any run after it, and an acceptance that creates a person: his first and last name are the words of the first line of the sender's name, he carries the title, profile and phone that stood in the text of the mail unless a further line of that name or of the address takes their place, and he takes over the history of the address |
| ContactRoundTrip.MailReachesPerson | internal/usecase/suggestions.go:289-332 | the mail that suggested him is then, with at most 200 messages of the address, linked to him |
| ContactRoundTrip.AcceptedPersonCarries | internal/usecase/suggestions.go:127-164 | the same for any stored prompt with the printed body |
| SuggestionRoundTrip.ParseAfterPrint | internal/usecase/email.go:505-532 | for every mail, the parser returns the first line of the enrichment value when there is one, unless a further line of the name or address carries the label of another field and is returned instead; where nothing was found it returns what the first of the sender's own lines with the label says |
| SuggestionRoundTrip.RoundTripIff | internal/usecase/suggestions.go:376-385 | a value that was not found makes the round trip if and only if the first of the sender's own lines with the label, if any, has nothing after its colon; a value that was found if and only if it is on one line, or, where a further line of the name or address carries the label, the first such line says the same |
| SuggestionRoundTrip.SubjectFillsEmptyField | internal/usecase/email.go:505-532 | a subject with a labelled second line fills any field that was not found |
| SuggestionBody.ShownIsPrinted | internal/usecase/email.go:505-532 | address, domain, website, subject and quoted context stand on lines of their own in the suggestion, if they are one line |
| SuggestionBody.ParsePromptField | internal/usecase/suggestions.go:376-385 | the scan over the lines returns the field on the first line that carries the label |
| SuggestionBody.NameParses | internal/usecase/suggestions.go:364-374 | a name can be parsed if and only if the name field is not empty |
| SuggestionBody.NameIsSplit | internal/usecase/suggestions.go:364-374 | first and last name together split into the words of the name |
| EmailIngestion.RelevantEmails | internal/usecase/email.go:629-646 | the loop with its set of seen addresses collects exactly the addresses of the specification |
| EmailIngestion.SyncFolders | internal/usecase/email.go:255-285 | the loops choose exactly the folders of the specification |
| EmailIngestion.EmailService.MatchPeople | internal/usecase/email.go:322-334 | the loop over addresses collects the people of the specification, failures included |
| EmailIngestion.EmailService.TouchAll | internal/usecase/email.go:354-358 | the loop over people touches them as the specification does, stopping at the first failure |
| EmailIngestion.EmailService.CollectDeals | internal/usecase/email.go:370-379 | the nested loops collect each deal of the people once |
| EmailIngestion.EmailService.PromptEach | internal/usecase/email.go:380-405 | the loop creates the prompts that are not open yet, and counts them |
| EmailIngestion.EmailService.Process | internal/usecase/email.go:287-300 | afterwards the message is stored, or the mail, the people and the prompts are as before, and everything is if nobody answers to its addresses |
| EmailIngestion.EmailService.SyncMessages | internal/usecase/email.go:230-243 | the loop over messages, with its report |
| SyncServices.SyncService.SyncAccounts | internal/usecase/email.go:186-253 | the loops over mailboxes, folders and messages leave tables of all organizations whose growth is what the report says |
| SuggestionHandling.SuggestionService.SuppressPrompt | internal/usecase/suggestions.go:86-99 | on success the prompt is dismissed and its own suppression added, on a failure at most the suppression |
| SuggestionHandling.SuggestionService.UnsuppressPrompt | internal/usecase/suggestions.go:101-112 | on success the prompt is open and its own suppression gone, all others as before, on a failure at most the suppression is gone |
| SuggestionHandling.SuggestionService.LinkHistoricalEmails | internal/usecase/suggestions.go:289-332 | on success the loop has taken over the newest history of the address |
| SuggestionHandling.SuggestionService.Accept | internal/usecase/suggestions.go:114-125 | on success the tables changed in the way of the prompt's kind, with the created person's whole history; a failure leaves activities at most |
| SuggestionHandling.SuggestionService.LinkToPerson | internal/usecase/suggestions.go:207-251 | on success the person has the address and its history; one person per address survives, failed or not, exactly unless somebody else answers to it |
| CrmQueries.PersonFound | internal/adapters/postgres/crm.go:63-73 | looking an address up finds somebody who answers by column or by added address, and nobody only if nobody does, in any order of the rows |
| CrmQueries.CompanyFound | internal/adapters/postgres/crm.go:176-186 | looking a domain up finds a company that owns it, and none only if none does |
| CrmQueries.PromptSeenWhileOpen | internal/adapters/postgres/ai_email.go:26-30 | a prompt is found by kind and title from its creation until it is resolved |
| CrmQueries.SuppressionSeenUntilLifted | internal/adapters/postgres/ai_email.go:32-46 | a suppression is found in every spelling of its target until it is lifted in any, and the answers about all others stay |
| JsonScanner.JsonObjectsInText | internal/usecase/ai.go:826-868 | the loop over bytes returns the objects of the automaton's fold |
| JsonScanner.ObjectsOfPassage | internal/usecase/ai.go:826-868 | for every passage of prose, quotations and JSON objects, with any white space and escapes of sections 2 to 7 of RFC 8259, exactly the printed objects are returned, in order |
| JsonScanner.PrintTransparent | internal/usecase/ai.go:832-866 | a printed value inside an object brings the automaton back to where it was |
| JsonScanner.StringCloses | internal/usecase/ai.go:834-847 | a string is left at its closing quotation mark and at no other |
| JsonScanner.RescanFindsItself | internal/usecase/ai.go:826-868 | whatever the text, every string returned is one complete object: scanning it finds it and nothing else |
| JsonScanner.FoundInOrder | internal/usecase/ai.go:851-864 | whatever the text, the objects are disjoint pieces of it in the order they stand in |
| PendingActions.FirstObject | internal/usecase/ai.go:756-790 | the second copy of the automaton stops at the first object of the scanner, or finds none when it finds none |
| PendingActions.ExtractPendingAction | internal/usecase/ai.go:742-792 | the action is the decoded first object after key, colon and brace, if it names a command |
| PendingActions.PrintedActionIsRecovered | internal/usecase/ai.go:742-792 | a printed object after the first "pending_action" key, whatever surrounds it: the action it decodes to is recovered if and only if it has a command, and no other ever is |
| EntityRanking.RankAssistantEntityMatches | internal/usecase/ai.go:569-606 | for every order of the map: distinct keys, each with its first best candidate, the all-tokens rule, all survivors when at most eight and eight otherwise |
| EntityRanking.CollectBest | internal/usecase/ai.go:577-597 | the map holds the first best candidate of every key with a match, and the best score is attained |
| EntityRanking.CountTokens | internal/usecase/ai.go:580-586 | the inner loop counts the tokens that occur |
| EntityRanking.ScoreMeans | internal/usecase/ai.go:580-589 | the full score means every token occurs, and zero means none does |
| EntityRanking.ScoreCounts | internal/usecase/ai.go:579-586 | the score is the number of the tokens that occur |
| EntityRanking.OccursIff | internal/usecase/ai.go:579-583 | a token without a space occurs exactly if it occurs in the title or in the subtitle, in lower case |
| EntityRanking.SameKeyIff | internal/usecase/ai.go:578-578 | two candidates have one key exactly if they have the same kind and id, for kinds without a colon |
| EntityRanking.ListKept | internal/usecase/ai.go:598-604 | the pass over the map keeps what passes the filter, each key once, in any order |
| EntityRanking.DedupeEntityRefs | internal/usecase/ai.go:687-705 | the first usable reference of each key, up to eight |
| EntityRanking.FirstsAreDistinct | internal/usecase/ai.go:687-705 | those are distinct, usable, and miss no usable key |
| AuthRuns.SweepsAreUnobservable | internal/adapters/postgres/housekeeping.go:10-23 | housekeeping at any moments of any run, whole or cut short, changes no answer of link consumption, session lookup or login |
| AuthRuns.LogoutNoticesOnlyExpired | internal/adapters/postgres/store.go:358-367 | the one answer left out differs only for a session that had expired and was swept |
| AuthRuns.LinkIsSingleUse | internal/usecase/auth.go:65-87 | over every run, faults and housekeeping included, one link opens at most one session |
| AuthRuns.DeadForever | internal/adapters/postgres/store.go:349-376 | a session that expired, was revoked or was swept is never recognised again |
| AuthRuns.LoggedOutForever | internal/usecase/auth.go:107-116 | in particular after a logout |
| AuthRuns.LoginOpensIff | internal/usecase/auth.go:65-87 | without failures a session opens if and only if the link is open and its address has an active user, and it is that user's |
| AuthRuns.RequestedLinkSpeaks | internal/adapters/postgres/store.go:321-343 | from the request on, over every run, a link logs in nobody but the address it was sent to |
| AuthRuns.SessionIdentifiesUser | internal/adapters/postgres/store.go:344-376 | from the login on, over every run, a session answers for nobody but the user whose address the link was for |
| AuthRuns.RequestedLinkIdentifies | internal/usecase/auth.go:65-105 | from the request of a link, over every run, every session that a login with it opens answers for nobody but the address asked for and its user |
| AuthAnswers.RecognisedIff | internal/adapters/postgres/store.go:349-376 | session lookup and validation answer with the row's user and address if and only if the row is stored, unexpired and not revoked and its user is active; they change nothing but the time of last use of such a row |
| AuthAnswers.LoginIsRecognised | internal/usecase/auth.go:65-105 | after a login that opened a session, over every run with housekeeping and failing calls, every lookup and validation that goes well answers the user and the address of the link for thirty days, until the session is logged out or the user switched off |
| AuthAnswers.RequestedLinkLogsIn | internal/usecase/auth.go:34-87 | after a link was asked for, over every run, for fifteen minutes, the first login that reaches it opens a session if its address has an active user and the login's calls go well |
| AuthAnswers.RevokedIff | internal/adapters/postgres/store.go:358-367 | a logout finds exactly the stored sessions that were not revoked, and revokes that one only |
| AuthAnswers.LogoutEnds | internal/usecase/auth.go:107-116 | logging out of a recognised session answers that it did, and the session is never recognised again |
| AuthAnswers.SweptExactly | internal/adapters/postgres/housekeeping.go:10-23 | housekeeping deletes exactly the consumed or expired links and the sessions that expired or were revoked before the retention |
| AuthServices.AuthStore.CreateMagicLink | internal/adapters/postgres/store.go:321-324 | inserts a link unless its hash is taken |
| AuthServices.AuthStore.ConsumeMagicLink | internal/adapters/postgres/store.go:325-343 | marks an open link as consumed and returns its address |
| AuthServices.AuthStore.CreateSession | internal/adapters/postgres/store.go:344-347 | inserts a session unless its hash is taken |
| AuthServices.AuthStore.ValidateSession | internal/adapters/postgres/store.go:349-356 | answers the address if and only if the session is stored, unexpired and not revoked and its user is active, and notes the time |
| AuthServices.AuthStore.UserBySession | internal/adapters/postgres/store.go:369-376 | the same, with the user, for exactly these sessions |
| AuthServices.AuthStore.RevokeSession | internal/adapters/postgres/store.go:358-367 | revokes exactly a stored session that was not revoked before, and says so |
| AuthServices.AuthStore.CleanupAuthArtifacts | internal/adapters/postgres/housekeeping.go:10-23 | deletes spent rows and reports how many |
| AuthServices.AuthService.VerifyMagicLink | internal/usecase/auth.go:65-87 | without a fault a session opens if and only if the link is open and its address has an active user; it answers, no other session changes, and a consumed link never opens again |
| MembershipRuns.OwnersOverRuns | internal/usecase/auth.go:237-276 | over every sequential run every organization has an owner throughout if and only if no last owner accepts an invitation to his own organization |
| MembershipRuns.StepKeepsOwnersIff | internal/adapters/postgres/store.go:395-456 | the same for one step of any kind |
| MembershipRuns.LastOwnerDemotedByInvitation | internal/adapters/postgres/store.go:496-520 | inviting the last owner's address and accepting leaves no owner |
| MembershipRuns.AcceptedAtMostOnce | internal/adapters/postgres/store.go:496-520 | over every run an invitation changes a membership at most once |
| MembershipRuns.ResendReplacesToken | internal/usecase/auth.go:331-359 | after a resend the replaced token is useless in every run that follows |
| MembershipRuns.AcceptNeedsCurrentToken | internal/usecase/auth.go:368-394 | an invitation is accepted if and only if the token is its current one, the address is its own, and it is neither expired nor accepted |
| MembershipEffects.RemoveExactly | internal/usecase/auth.go:261-276 | removing a member is granted if and only if the actor is owner or admin, the seat is taken, the user is not the only owner and no call fails; then that seat is gone and all else as before, otherwise nothing changes |
| MembershipEffects.ChangeRoleExactly | internal/usecase/auth.go:237-259 | changing a role is granted likewise for a text that names a role, and to the only owner if it names owner; then the seat holds the named role and all else is as before |
| MembershipEffects.CreateExactly | internal/adapters/postgres/store.go:395-409 | a new organization is created if and only if its id is free and no call fails; then its creator is its owner and no other seat changes |
| MembershipEffects.InviteExactly | internal/usecase/auth.go:278-319 | inviting is granted if and only if the actor is owner or admin, the address is one, the role is not owner, and organization, id and token admit it; then exactly that invitation is stored, for seven days |
| MembershipEffects.ResendExactly | internal/usecase/auth.go:331-359 | sending again is granted if and only if the actor is owner or admin and the invitation is the organization's and not accepted; then it has the new token and seven more days |
| MembershipEffects.JoinExactly | internal/usecase/auth.go:368-394 | joining is granted if and only if the token is of an open invitation to the address; then the user's seat holds its role, it is marked, and all else is as before |
| MembershipEffects.InvitedIsLetIn | internal/usecase/auth.go:278-394 | over every run after an invitation, the first who joins with its token, under its address and in time, gets the seat with the role |
| MembershipServices.OnlyOwner | internal/usecase/auth.go:401-412 | the counting loop says whether the set of owners is the target alone |
| MembershipServices.MembershipService.EnsureNotLastOwner | internal/usecase/auth.go:396-416 | refuses exactly for the last owner, or when the list cannot be read |
| MembershipServices.MembershipService.UpdateOrganizationMemberRole | internal/usecase/auth.go:237-259 | the check that counts owners refuses exactly for the only owner; when granted, the seat holds the role that the text names, and all other seats are as before |
| MembershipServices.MembershipService.RemoveOrganizationMember | internal/usecase/auth.go:261-276 | granted if and only if the actor manages members, the seat is taken and the user is not the only owner; then the seat is gone and all others are as before, otherwise nothing changes |
| MembershipServices.OrganizationStore.ListOrganizationMembers | internal/adapters/postgres/store.go:411-426 | every member once, in some order |
| MembershipServices.OrganizationStore.CreateOrganizationWithOwner | internal/adapters/postgres/store.go:395-409 | an organization together with its owner |
| MembershipServices.OrganizationStore.AcceptOrganizationInvitation | internal/adapters/postgres/store.go:496-520 | overwrites the role and marks the invitation, for an open invitation only |
| MembershipServices.OrganizationStore.UpdateOrganizationInvitationToken | internal/adapters/postgres/store.go:490-494 | a new token for an invitation not accepted yet |
| RateLimiter.Compact | internal/adapters/httpapi/ratelimit.go:28-34 | the compaction over its own backing array leaves exactly the hits later than the cutoff, in order |
| RateLimiter.Append | internal/adapters/httpapi/ratelimit.go:39-39 | appending in place, or into a larger copy |
| RateLimiter.MemoryRateLimiter.Allow | internal/adapters/httpapi/ratelimit.go:22-41 | one decision on the key's hits; other keys keep theirs; a disabled limiter allows everything |
| RateLimiterRuns.LimiterFollowsRule | internal/adapters/httpapi/ratelimit.go:22-41 | for a clock that does not run backwards the answers are exactly those of the rule that counts accepted hits in the window |
| RateLimiterRuns.WindowsNeverOverflow | internal/adapters/httpapi/ratelimit.go:22-41 | no window of the length, wherever it lies, holds more than the maximum of accepted hits of a key |
| RateLimiterRuns.RefusedIffFull | internal/adapters/httpapi/ratelimit.go:35-38 | a call is refused if and only if its window is full |
| RateLimiterRuns.KeysAreIndependent | internal/adapters/httpapi/ratelimit.go:22-41 | what a key is told depends on its own calls only, for any clock |
| CrmShells.AlwaysExplained | frontend/src/hooks/use-crm-shell.ts:23-52 | under every interleaving each phase is explained by the newest request |
| CrmShells.ReadyShowsNewest | frontend/src/hooks/use-crm-shell.ts:23-66 | when ready, user, organizations and workspaces all come from the newest request, and so does the choice unless the setter has replaced it since |
| CrmShells.LoadingIffUnsettled | frontend/src/hooks/use-crm-shell.ts:24-26 | loading exactly while the newest request is not settled |
| CrmShells.AnswersCount | frontend/src/hooks/use-crm-shell.ts:23-52 | whatever the newest request was answered is what the shell shows: its user, its workspaces and that it is ready, or its failure; and the newest request is the load asked for last |
| CrmShells.OvertakenIsIgnored | frontend/src/hooks/use-crm-shell.ts:28-51 | an answer to a request that was overtaken changes nothing that is shown |
| CrmShells.WantedIsSelected | frontend/src/hooks/use-crm-shell.ts:28-45 | the newest request selects and remembers the organization the load asked for, or the stored one, if the user belongs to it, else his only one, and asks for its workspaces; else it asks the user to choose |
| CrmShells.LoadIsUnderWay | frontend/src/hooks/use-crm-shell.ts:23-28 | a load is the newest request at once, and waits for its answer |
| CrmShells.Choose | frontend/src/hooks/use-crm-shell.ts:30-32 | the wanted organization if it is the user's, else his only one, else none |
| CrmShells.CrmShell.LoadShell | frontend/src/hooks/use-crm-shell.ts:23-28 | the step up to the first await |
| CrmShells.CrmShell.ResumeWithMe | frontend/src/hooks/use-crm-shell.ts:28-45 | the step after the first answer |
| CrmShells.CrmShell.ResumeWithWorkspaces | frontend/src/hooks/use-crm-shell.ts:45-48 | the step after the second answer |
| CrmShells.CrmShell.ResumeWithError | frontend/src/hooks/use-crm-shell.ts:49-51 | the step after a failure |
| PagedLists.LoadingIffUnsettled | frontend/src/hooks/use-paged-list.ts:27-46 | loading exactly while the newest request is not settled |
| PagedLists.AppliedIncrease | frontend/src/hooks/use-paged-list.ts:35-41 | results reach the list in the order of their requests |
| PagedLists.NeverMixed | frontend/src/hooks/use-paged-list.ts:36-40 | rows, page and next-page flag always belong to the result shown last |
| PagedLists.SettledShowsNewest | frontend/src/hooks/use-paged-list.ts:33-46 | once nothing loads, the newest request is shown or its failure reported |
| PagedLists.ErrorIsNewest | frontend/src/hooks/use-paged-list.ts:42-46 | an error on display is the newest request's own |
| PagedLists.AnswersCount | frontend/src/hooks/use-paged-list.ts:33-46 | whatever the newest request was answered is what the list shows, its rows or its failure, and nothing is loading then; and the newest request is the load asked for last while enabled |
| PagedLists.OvertakenIsIgnored | frontend/src/hooks/use-paged-list.ts:35-44 | an answer to a request that was overtaken changes nothing that is shown |
| PagedLists.LoadIsUnderWay | frontend/src/hooks/use-paged-list.ts:27-32 | a load is under way at once for its page and clears the error; a disabled list loads nothing |
| PagedLists.PagedResource.Load | frontend/src/hooks/use-paged-list.ts:27-33 | the step up to the await |
| PagedLists.PagedResource.ResumeWithPage | frontend/src/hooks/use-paged-list.ts:34-46 | the step after an answer, with a callback that may throw |
| PagedLists.PagedResource.ResumeWithError | frontend/src/hooks/use-paged-list.ts:42-46 | the step after a failure |
| Dashboard.StrictWeakOrder | frontend/src/components/views/dashboard-task-list.tsx:53-62 | the comparator is a strict weak order |
| Dashboard.OrderMeans | frontend/src/components/views/dashboard-task-list.tsx:53-80 | one task comes before another if and only if it is in a better group (overdue, due today, urgent or high, the rest), or in no worse one and more urgent, due earlier with undated last, or newer, in this order |
| Dashboard.SortSorts | frontend/src/components/views/dashboard-task-list.tsx:15-15 | the sorted list is a sorted permutation |
| Dashboard.NowIsPrefix | frontend/src/components/views/dashboard-task-list.tsx:16-16 | the now tasks are a prefix of the sorted open tasks |
| Dashboard.PartitionIff | frontend/src/components/views/dashboard-task-list.tsx:16-18 | now followed by later is the sorted list if and only if no id is shared between them, and is shorter otherwise |
| Dashboard.NothingIsLost | frontend/src/components/views/dashboard-task-list.tsx:13-18 | with unique ids the two groups are a permutation of the open tasks |
| Dashboard.GroupsMean | frontend/src/components/views/dashboard-task-list.tsx:13-18 | a task is among the now tasks if and only if it is open and due today or earlier, or urgent or high; with unique ids it is among the later ones if and only if it is open and not among these |
| Dashboard.PageCount | frontend/src/components/views/dashboard-task-list.tsx:19-20 | the least number of pages that hold the tasks, and at least one |
| Dashboard.CurrentPage | frontend/src/components/views/dashboard-task-list.tsx:21-21 | the page on display is always in range |
| Dashboard.PagesCoverLater | frontend/src/components/views/dashboard-task-list.tsx:19-22 | the pages one after the other are the later tasks, and none is empty |
| Dashboard.NextMoves | frontend/src/components/views/dashboard-task-list.tsx:38-38 | Next always moves the display by one page |
| Dashboard.PreviousMovesIff | frontend/src/components/views/dashboard-task-list.tsx:38-38 | Previous does if and only if the kept page number is in range |

## Left out

- SyncReportMatchesTables: the growth of activities is the linked messages plus the orphans of failed messages, not the linked messages alone, because of the committed activities described above.
- FailedStepLeaves: for a fetch the recorded activity is told from the calls; for accepting and linking a contact it is told from the tables after the step.
- AcceptCreatesContactOfFew: stated for addresses that at most 200 stored messages mention, because beyond that the order among equal sent times decides which are listed; AcceptCreatesContactIff is about the listed ones, for any number.
- HistoryTaken: that every mentioning message is linked is stated up to the limit of 200 messages; beyond it the newest 200 are. The last touch covers all of them.
- ReplayIsHarmless: stated for an iteration order that depends on the elements only, as the code promises nothing more.
- OnePersonOverRuns: addresses are compared after ASCII case folding.
- AcceptedIff: a deal that does not exist any more appears as a failing call.
- SyncAccounts: every mailbox is synced with the access of its organization; one without an owner, which the code syncs with the caller's, is not distinguished.
- AddPersonEmail: the primary flag of an address, which suggestions never set.
- DeletePerson: todos and tags of the person are not among the tables.
- OneOpenPromptOverRuns, SuppressionLasts: prompts that a user writes himself (`internal/usecase/suggestions.go:68-77`) are no step of a run; nothing looks at open prompts or suppressions when one is added.
- MailIsLostIff, MarkedMailAskedAgainIff: days are those of one time zone, and the limit of 100 messages for a fetch is part of what the mail server answers.
- MailBecomesPerson, ParseAfterPrint, RoundTripIff: the patterns of title, profile and website find one line; names, addresses, phones, subjects and quoted text may have any number of lines.
- JsonObjectsInText: text is a sequence of characters standing for bytes; multi-byte UTF-8 sequences contain no structural byte.
- Processing without a unit of work (`UOW` unset) is not modelled; every message runs inside a transaction.
- Use cases other than the sync see one organization's tables, so organization ids and the row-level policies other than the one on activity links do not appear; unique indexes other than those on addresses, and other constraints, appear as failing calls.
- Historical mail of a company, and the listing of mail by domain.
- Statements of one store method that share a transaction (deleting a person, adding an address) count as one call.
- Sent times that are missing: every message has one, so the zero time is not treated specially.
- Sanitizing of mail text, the patterns that enrich a contact, secrets, folder listing and fetching are inputs.
- Non-ASCII case folding and trimming of Unicode white space.
- Text and order of lists, workspaces, audit entries and sent mails.
- Concurrent transactions: a use case runs alone, except that the frontend's requests interleave freely.
- Token hashes are taken as injective and tokens as fresh; the assistant conversations that hang on a deleted session are not part of the model.
- Creating the user of an invited address, and the row-level policies on membership tables.
- The mutex of the rate limiter; `Allow` runs alone.
- Invalid dates and the reading of the clock during a sort: the dashboard's clock is fixed, and a calendar day is given for each time.
- Debouncing of loads in the paged list: a load may come at any time.
- HTTP handlers, the CLI, `ExecuteAction`, CSV import, calendar shorthand, and the CRUD operations without further state.
