/**
 Recovering a proposed action from a malformed reply: the second copy of the brace
 automaton, which stops at the first object after the "pending_action" key.
 */
module PendingActions {
  import opened Wrappers
  import opened Text
  import opened JsonScanner

  datatype Action = Action(command: string, args: seq<string>)

  const KEY := "\"pending_action\""

  /** Counted from the key: the first brace at or after the first colon. */
  function BraceAfterColon(fromKey: string): (r: Option<nat>)
    ensures r.Some? ==> r.value < |fromKey| && fromKey[r.value] == '{'
  {
    match IndexOf(fromKey, ":")
    case None => None
    case Some(colon) =>
      match IndexOf(fromKey[colon..], "{")
      case None => None
      case Some(brace) =>
        assert fromKey[colon..][brace..brace + 1] == "{";
        assert fromKey[colon + brace] == fromKey[colon..][brace];
        Some(colon + brace)
  }

  /** Where the object starts, if the text has the key, a colon after it, and a brace after that. */
  function ObjectStart(text: string): (r: Option<nat>)
    ensures r.Some? ==> r.value < |text| && text[r.value] == '{'
  {
    match IndexOf(text, KEY)
    case None => None
    case Some(start) =>
      match BraceAfterColon(text[start..])
      case None => None
      case Some(brace) => Some(start + brace)
  }

  /** Go's json.Unmarshal into an action, as far as the caller looks: none on error, or without a command. */
  function Decoded(decode: string -> Option<Action>, raw: string): Option<Action> {
    match decode(raw)
    case None => None
    case Some(action) => if action.command == "" then None else Some(action)
  }

  /** The decoded first object of a text. */
  function FirstObjectDecoded(decode: string -> Option<Action>, text: string): Option<Action> {
    var objects := Objects(text);
    if objects == [] then None else Decoded(decode, objects[0])
  }

  /** The objects found up to a position are the first of all the objects. */
  lemma EarlierObjectsFirst(text: string, i: nat)
    requires i <= |text|
    ensures ObjectsBefore(text, i) <= Objects(text)
  {
    assert text == text[..i] + text[i..];
    ScanOfConcat(Ready(0), text[..i], text[i..]);
    CutOfConcat(text, Found(Ready(0), text[..i]), Found(StateAt(text, i), text[i..]));
  }

  /** The loop: from an opening brace to the brace that closes it. */
  method FirstObject(text: string, from: nat) returns (raw: Option<string>)
    requires from < |text| && text[from] == '{'
    ensures raw == if Objects(text[from..]) == [] then None else Some(Objects(text[from..])[0])
  {
    ghost var suffix := text[from..];
    var depth, inString, escaped := 0, false, false;
    var i := from;
    while i < |text|
      invariant from <= i <= |text| && (i == from ==> depth == 0 && !inString) && (i > from ==> depth > 0)
      invariant escaped ==> inString
      invariant StateOf(depth, if i == from then -1 else 0, inString, escaped, i - from) == StateAt(suffix, i - from)
      invariant ObjectsBefore(suffix, i - from) == []
    {
      var ch := text[i];
      PositionStep(suffix, i - from, StateAt(suffix, i - from));
      if inString {
        if escaped {
          escaped := false;
        } else if ch == '\\' {
          escaped := true;
        } else if ch == '"' {
          inString := false;
        }
      } else if ch == '"' {
        inString := true;
      } else if ch == '{' {
        depth := depth + 1;
      } else if ch == '}' {
        depth := depth - 1;
        if depth == 0 {
          EarlierObjectsFirst(suffix, i + 1 - from);
          assert suffix[0..i + 1 - from] == text[from..i + 1];
          return Some(text[from..i + 1]);
        }
      }
      i := i + 1;
    }
    assert suffix[..i - from] == suffix;
    return None;
  }

  /** The copy of the automaton agrees with the scanner: the action is the first object of the rest of the text. */
  method ExtractPendingAction(decode: string -> Option<Action>, text: string) returns (action: Option<Action>)
    ensures action ==
            match ObjectStart(text)
            case None => None
            case Some(from) => FirstObjectDecoded(decode, text[from..])
  {
    var start := ObjectStart(text);
    if start.None? {
      return None;
    }
    var raw := FirstObject(text, start.value);
    if raw.None? {
      return None;
    }
    return Decoded(decode, raw.value);
  }

  /** The first object of a text that starts with a printed object. */
  lemma FirstOfPrinted(v: Value, rest: string)
    requires v.Object? && Legal(v)
    ensures Objects(Print(v) + rest) != [] && Objects(Print(v) + rest)[0] == Print(v)
  {
    var text := Print(v) + rest;
    PrintedObjectIsFound(v, 0);
    assert text[..|Print(v)|] == Print(v);
    CutFirst(text, Span(0, |Print(v)|), []);
    assert [Span(0, |Print(v)|)] + [] == [Span(0, |Print(v)|)];
    EarlierObjectsFirst(text, |Print(v)|);
  }

  /** The key is written for the first time after `before`. */
  predicate KeyFirstAfter(before: string, text: string) {
    IndexOf(text, KEY) == Some(|before|)
  }

  lemma BraceFollows(gap: string, gapColon: string, braced: string, fromKey: string)
    requires LegalGap(gap) && LegalGap(gapColon) && braced != "" && braced[0] == '{'
    requires fromKey == KEY + gap + [':'] + (gapColon + braced)
    ensures BraceAfterColon(fromKey) == Some(|KEY| + |gap| + 1 + |gapColon|)
  {
    IndexAfter(KEY + gap, ':', gapColon + braced);
    var colon := |KEY| + |gap|;
    var fromColon := [':'] + gapColon;
    assert fromKey[colon..] == fromColon + ['{'] + braced[1..];
    IndexAfter(fromColon, '{', braced[1..]);
  }

  /** The object starts where it was put, when nothing but white space and a colon follow the key. */
  lemma StartAfterKey(before: string, gap: string, gapColon: string, braced: string, text: string)
    requires LegalGap(gap) && LegalGap(gapColon) && braced != "" && braced[0] == '{'
    requires text == before + (KEY + gap + [':'] + (gapColon + braced))
    requires KeyFirstAfter(before, text)
    ensures ObjectStart(text).Some? && text[ObjectStart(text).value..] == braced
  {
    var fromKey := KEY + gap + [':'] + (gapColon + braced);
    assert text[|before|..] == fromKey;
    BraceFollows(gap, gapColon, braced, fromKey);
    assert text == before + KEY + gap + [':'] + gapColon + braced;
  }

  /**
   A printed object after the first "pending_action" key, whatever surrounds it: the action that it
   decodes to is recovered, if it decodes and has a command, and no other action ever is.
   */
  lemma PrintedActionIsRecovered(decode: string -> Option<Action>, before: string, gap: string, gapColon: string,
                                 v: Value, rest: string, text: string)
    requires v.Object? && Legal(v) && LegalGap(gap) && LegalGap(gapColon)
    requires text == before + (KEY + gap + [':'] + (gapColon + (Print(v) + rest)))
    requires KeyFirstAfter(before, text)
    ensures ObjectStart(text).Some?
    ensures forall action ::
              FirstObjectDecoded(decode, text[ObjectStart(text).value..]) == Some(action)
              <==> decode(Print(v)) == Some(action) && action.command != ""
  {
    var braced := Print(v) + rest;
    assert braced[0] == '{';
    StartAfterKey(before, gap, gapColon, braced, text);
    FirstOfPrinted(v, rest);
  }
}
