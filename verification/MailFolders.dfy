/**
 The folders of a mailbox that a sync fetches.
 */
module MailFolders {
  import opened Wrappers
  import opened Text
  import opened EmailSync

  // ----- which folders -----

  /** No two folders are the same up to case. */
  predicate Distinct(q: seq<string>) {
    forall i, j :: 0 <= i < j < |q| ==> !EqualFold(q[i], q[j])
  }

  predicate Listed(q: seq<string>, folder: string) {
    exists i :: 0 <= i < |q| && EqualFold(q[i], folder)
  }

  /** Every folder chosen beyond those before is an available one of the wanted names. */
  ghost predicate FromAvailable(before: seq<string>, q: seq<string>, available: seq<string>, names: seq<string>) {
    before <= q && forall i :: |before| <= i < |q| ==> IsAvailable(q[i], available, names)
  }

  ghost predicate IsAvailable(f: string, available: seq<string>, names: seq<string>) {
    exists a, n :: a in available && n in names && f == Trim(a) && EqualFold(a, n)
  }

  /** The folder is chosen, unless nothing is left of its name. */
  predicate Chosen(q: seq<string>, folder: string) {
    Trim(folder) != "" ==> Listed(q, Trim(folder))
  }

  lemma AddTrimmedMeans(selected: seq<string>, f: string)
    requires Distinct(selected)
    ensures var out := AddTrimmed(selected, f);
            && Distinct(out) && selected <= out && (f != "" ==> Listed(out, f))
            && |out| <= |selected| + 1 && (|out| > |selected| ==> out[|selected|] == f)
  {
    var out := AddTrimmed(selected, f);
    if f != "" && !(exists i :: 0 <= i < |selected| && EqualFold(selected[i], f)) {
      assert out[|selected|] == f && EqualFold(f, f);
    }
  }

  lemma AddFolderMeans(selected: seq<string>, folder: string)
    requires Distinct(selected)
    ensures var out := AddFolder(selected, folder);
            && Distinct(out) && selected <= out && Chosen(out, folder)
            && |out| <= |selected| + 1 && (|out| > |selected| ==> out[|selected|] == Trim(folder))
  {
    AddTrimmedMeans(selected, Trim(folder));
  }

  lemma ChosenLater(q: seq<string>, more: seq<string>, folder: string)
    requires q <= more && Chosen(q, folder)
    ensures Chosen(more, folder)
  {
    if Trim(folder) != "" {
      ListedLater(q, more, Trim(folder));
    }
  }

  lemma ListedLater(q: seq<string>, more: seq<string>, folder: string)
    requires q <= more && Listed(q, folder)
    ensures Listed(more, folder)
  {
    var i :| 0 <= i < |q| && EqualFold(q[i], folder);
    assert more[i] == q[i];
  }

  /** One more folder in front of those a pass adds. */
  lemma FromAvailableCons(selected: seq<string>, next: seq<string>, out: seq<string>, all: seq<string>, names: seq<string>)
    requires selected <= next && FromAvailable(next, out, all, names)
    requires forall i :: |selected| <= i < |next| ==> IsAvailable(next[i], all, names)
    ensures FromAvailable(selected, out, all, names)
  {
    forall i | |selected| <= i < |out| ensures IsAvailable(out[i], all, names) {
      if i < |next| {
        assert out[i] == next[i];
      }
    }
  }

  /** What a pass over the available folders for one wanted name adds. */
  ghost predicate Matched(selected: seq<string>, available: seq<string>, wanted: string, out: seq<string>,
                          all: seq<string>, names: seq<string>) {
    && Distinct(out) && FromAvailable(selected, out, all, names)
    && (forall a :: a in available && EqualFold(a, wanted) ==> Chosen(out, a))
  }

  lemma MatchedCons(selected: seq<string>, next: seq<string>, available: seq<string>, wanted: string, out: seq<string>,
                    all: seq<string>, names: seq<string>)
    requires available != [] && available[0] in all && wanted in names && selected <= next
    requires EqualFold(available[0], wanted) ==> Chosen(next, available[0])
    requires forall i :: |selected| <= i < |next| ==> IsAvailable(next[i], all, names)
    requires Matched(next, available[1..], wanted, out, all, names)
    ensures Matched(selected, available, wanted, out, all, names)
  {
    FromAvailableCons(selected, next, out, all, names);
    if EqualFold(available[0], wanted) {
      ChosenLater(next, out, available[0]);
    }
    assert available == [available[0]] + available[1..];
  }

  lemma MatchedFolder(selected: seq<string>, a: string, wanted: string, all: seq<string>, names: seq<string>)
    requires Distinct(selected) && a in all && wanted in names && EqualFold(a, wanted)
    ensures var next := AddFolder(selected, a);
            && Distinct(next) && selected <= next && Chosen(next, a)
            && forall i :: |selected| <= i < |next| ==> IsAvailable(next[i], all, names)
  {
    AddFolderMeans(selected, a);
  }

  /** The pass over the available folders for one wanted name. */
  lemma {:induction false} AddMatchingMeans(
    selected: seq<string>, available: seq<string>, wanted: string, all: seq<string>, names: seq<string>)
    requires Distinct(selected) && wanted in names && forall a :: a in available ==> a in all
    ensures Matched(selected, available, wanted, AddMatching(selected, available, wanted), all, names)
    decreases |available|
  {
    if available != [] {
      var a := available[0];
      var next := if EqualFold(a, wanted) then AddFolder(selected, a) else selected;
      if EqualFold(a, wanted) {
        MatchedFolder(selected, a, wanted, all, names);
      }
      AddMatchingMeans(next, available[1..], wanted, all, names);
      MatchedCons(selected, next, available, wanted, AddMatching(selected, available, wanted), all, names);
    }
  }

  lemma {:induction false} AddEachMeans(selected: seq<string>, available: seq<string>, wanted: seq<string>, names: seq<string>)
    requires Distinct(selected) && forall n :: n in wanted ==> n in names
    ensures var out := AddEachMatching(selected, available, wanted);
            && Distinct(out) && FromAvailable(selected, out, available, names)
            && (forall a, n :: a in available && n in wanted && EqualFold(a, n) ==> Chosen(out, a))
    decreases |wanted|
  {
    if wanted != [] {
      var next := AddMatching(selected, available, wanted[0]);
      var out := AddEachMatching(selected, available, wanted);
      AddMatchingMeans(selected, available, wanted[0], available, names);
      AddEachMeans(next, available, wanted[1..], names);
      FromAvailableCons(selected, next, out, available, names);
      assert wanted == [wanted[0]] + wanted[1..];
      forall a, n | a in available && n in wanted && EqualFold(a, n) ensures Chosen(out, a) {
        if n == wanted[0] {
          ChosenLater(next, out, a);
        }
      }
    }
  }

  /** The inbox, or its plain name when the server lists none. */
  function Inbox(available: seq<string>): seq<string> {
    var inbox := AddMatching([], available, "INBOX");
    if inbox == [] then AddFolder([], "INBOX") else inbox
  }

  /** At most one folder so far, and it has that name up to case. */
  predicate AtMost(q: seq<string>, name: string) {
    q == [] || (|q| == 1 && EqualFold(q[0], name))
  }

  /** A name without spaces at its ends, and so in any case. */
  predicate PlainName(name: string) {
    name != "" && Trimmed(name)
  }

  lemma SameNameIsTrimmed(folder: string, name: string)
    requires PlainName(name) && EqualFold(folder, name)
    ensures Trim(folder) == folder && folder != ""
  {
    assert |Lower(folder)| == |Lower(name)| == |folder| == |name|;
    assert LowerChar(folder[0]) == LowerChar(name[0]);
    assert LowerChar(folder[|folder| - 1]) == LowerChar(name[|name| - 1]);
  }

  lemma AddSameName(selected: seq<string>, f: string, name: string)
    requires AtMost(selected, name) && EqualFold(f, name)
    ensures AtMost(AddTrimmed(selected, f), name)
  {
    if selected != [] {
      assert EqualFold(selected[0], f);
    }
  }

  lemma {:induction false} MatchedOnce(selected: seq<string>, available: seq<string>, name: string)
    requires PlainName(name) && AtMost(selected, name)
    ensures AtMost(AddMatching(selected, available, name), name)
    decreases |available|
  {
    if available != [] {
      var a := available[0];
      if EqualFold(a, name) {
        SameNameIsTrimmed(a, name);
        AddSameName(selected, a, name);
      }
      MatchedOnce(if EqualFold(a, name) then AddFolder(selected, a) else selected, available[1..], name);
    }
  }

  lemma InboxIsOne(available: seq<string>)
    ensures |Inbox(available)| == 1 && EqualFold(Inbox(available)[0], "INBOX")
  {
    MatchedOnce([], available, "INBOX");
  }

  /**
   The folders to fetch: the inbox first, then every available folder with the name of a sent
   folder; no folder twice, and no other folder.
   */
  lemma FoldersChosen(available: seq<string>)
    ensures var q := SelectFolders(available);
            && |Inbox(available)| == 1 && Inbox(available) <= q && EqualFold(q[0], "INBOX")
            && Distinct(q) && FromAvailable(Inbox(available), q, available, SENT_FOLDERS)
            && (forall a, n :: a in available && n in SENT_FOLDERS && EqualFold(a, n) ==> Chosen(q, a))
  {
    InboxIsOne(available);
    AddMatchingMeans([], available, "INBOX", available, ["INBOX"]);
    AddFolderMeans([], "INBOX");
    AddEachMeans(Inbox(available), available, SENT_FOLDERS, SENT_FOLDERS);
  }
}
