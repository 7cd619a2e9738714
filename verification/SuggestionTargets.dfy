/**
 What a suggestion is about: what it is accepted, declined and reopened for. Suggestions carry it;
 those stored before they did are read by their text, and mean the same.
 */
module SuggestionTargets {
  import opened Wrappers
  import opened Text
  import opened CrmTables
  import opened Suggestions
  import EmailSync

  lemma NormalWords()
    ensures Normal("email") == "email" && Normal("domain") == "domain" && Normal("activity") == "activity"
  {
    assert Trimmed("email") && Trimmed("domain") && Trimmed("activity");
    assert Lower("email") == "email" && Lower("domain") == "domain" && Lower("activity") == "activity";
  }

  /** A target that is stored counts. */
  lemma StoredTargetCounts(w: World, p: Prompt)
    requires Normal(p.targetType) != "" && Normal(p.targetIdentifier) != ""
    ensures SuggestionTarget(w, p) == Target(Normal(p.targetType), Normal(p.targetIdentifier))
  {
  }

  lemma AfterPrefix(prefix: string, rest: string)
    ensures TrimPrefix(prefix + rest, prefix) == rest
  {
    assert (prefix + rest)[|prefix|..] == rest;
  }

  lemma TitledCompany(w: World, p: Prompt, d: string)
    requires p.kind == NewCompany && p.targetType == "" && p.title == "New company:" + (" " + d)
    ensures SuggestionTarget(w, p) == Target("domain", Normal(d))
  {
    AfterPrefix("New company:", " " + d);
    assert (" " + d)[1..] == d;
  }

  lemma TitledContact(w: World, p: Prompt, from: string)
    requires p.kind == NewContact && p.targetType == "" && p.title == "New contact:" + (" " + from)
    ensures SuggestionTarget(w, p) == Target("email", Normal(w.findEmail(" " + from + "\n" + p.body)))
  {
    AfterPrefix("New contact:", " " + from);
  }

  /** The same suggestion as it was stored before targets were. */
  function Untargeted(p: Prompt): Prompt {
    p.(targetType := "", targetIdentifier := "")
  }

  /** A suggested contact is about the sender; without its target, about the first address in its title and text. */
  lemma ContactAims(w: World, m: Message, from: string)
    requires from == Normal(m.fromEmail) && from != ""
    ensures var p := EmailSync.ContactPrompt(w, from, m);
            && p.kind == NewContact && p.status.Open? && p.lastTouch == m.sentAt
            && SuggestionTarget(w, p) == Target("email", from)
            && SuggestionTarget(w, Untargeted(p)) == Target("email", Normal(w.findEmail(" " + from + "\n" + p.body)))
  {
    var p := EmailSync.ContactPrompt(w, from, m);
    NormalWords();
    NormalIsStable(m.fromEmail);
    StoredTargetCounts(w, p);
    assert "New contact: " + from == "New contact:" + (" " + from);
    TitledContact(w, Untargeted(p), from);
  }

  lemma DomainIsNormal(email: string)
    ensures Normal(EmailSync.EmailDomain(email)) == EmailSync.EmailDomain(email)
  {
    var at := IndexOf(email, "@");
    if at.Some? {
      NormalIsStable(email[at.value + 1..]);
    }
  }

  /** A suggested company is about the sender's domain, with its target and without. */
  lemma CompanyAims(w: World, m: Message, from: string, d: string)
    requires from == Normal(m.fromEmail) && d == EmailSync.EmailDomain(from) && d != ""
    ensures var p := EmailSync.CompanyPrompt(from, d, m);
            && p.kind == NewCompany && p.status.Open? && p.lastTouch == m.sentAt
            && SuggestionTarget(w, p) == Target("domain", d) == SuggestionTarget(w, Untargeted(p))
  {
    var p := EmailSync.CompanyPrompt(from, d, m);
    NormalWords();
    DomainIsNormal(from);
    StoredTargetCounts(w, p);
    assert "New company: " + d == "New company:" + (" " + d);
    TitledCompany(w, Untargeted(p), d);
  }

  /** A suggested link is about the activity, and names the deal by its name or its id. */
  lemma DealLinkAims(w: World, m: Message, activity: Id, deal: Deal)
    requires activity == Normal(activity) && activity != ""
    ensures var p := EmailSync.DealPrompt(m, activity, deal);
            && p.kind == EmailDealLink && p.deal == Some(deal.id) && p.status.Open? && p.lastTouch == m.sentAt
            && SuggestionTarget(w, p) == Target("activity", activity)
            && p.title == "Link email to deal: " + if Trim(deal.name) != "" then Trim(deal.name) else deal.id
  {
    NormalWords();
    StoredTargetCounts(w, EmailSync.DealPrompt(m, activity, deal));
  }
}
