/**
 * The front end's chat simulator (src/pages/ChatInterface.tsx): a canned
 * reply chosen by case-insensitive keyword tests in a fixed order, and the
 * component state around it — an append-only message log, the input box
 * and the "typing" flag. The 1.5 s timer that posts the reply is modelled
 * as a queue of pending replies and a separate delivery step.
 */
module Chat {
  import opened Text

  /** The canned replies, in the order their rules are tried, then the fallback. */
  datatype BotReply =
    | Welcome
    | PlumbingPrompt
    | ElectricalPrompt
    | CleaningPrompt
    | TutoringPrompt
    | NearbyPlumbers
    | MikeDetails
    | DetailsRequest
    | Fallback

  /** What a log entry shows: the user's text as typed, or one of the bot's replies. */
  datatype Body = Typed(text: string) | Canned(reply: BotReply)

  datatype Message = Message(id: int, message: Body, isBot: bool, timestamp: string)

  /** The log the page starts with: the bot's greeting, numbered 1. */
  function InitialLog(): seq<Message> {
    [Message(1, Canned(Welcome), true, "10:30 AM")]
  }

  /** The buttons under the log. */
  function QuickReplies(): seq<string> {
    ["Plumbing", "Electrical work", "House cleaning", "Tutoring", "Car repair", "Painting"]
  }

  /** `simulateBotResponse`'s choice of reply: the first keyword test that the lower-cased message passes. */
  function Reply(userMessage: string): BotReply {
    var m := ToLower(userMessage);
    if Contains(m, "plumbing") then PlumbingPrompt
    else if Contains(m, "electrical") then ElectricalPrompt
    else if Contains(m, "cleaning") then CleaningPrompt
    else if Contains(m, "tutoring") then TutoringPrompt
    else if Contains(m, "location") || Contains(m, "westlands") then NearbyPlumbers
    else if Contains(m, "mike") || Contains(m, "book") then MikeDetails
    else if Contains(m, "yes") || Contains(m, "proceed") then DetailsRequest
    else Fallback
  }

  // ---- the same choice as a table ----

  datatype Rule = Rule(keywords: seq<string>, reply: BotReply)

  /** The keyword rules in priority order. */
  function Rules(): seq<Rule> {
    [Rule(["plumbing"], PlumbingPrompt),
     Rule(["electrical"], ElectricalPrompt),
     Rule(["cleaning"], CleaningPrompt),
     Rule(["tutoring"], TutoringPrompt),
     Rule(["location", "westlands"], NearbyPlumbers),
     Rule(["mike", "book"], MikeDetails),
     Rule(["yes", "proceed"], DetailsRequest)]
  }

  /** The reply of the first rule with a keyword in `m`, or the fallback. */
  function FirstMatch(rules: seq<Rule>, m: string): BotReply {
    if rules == [] then Fallback
    else if ContainsAny(m, rules[0].keywords) then rules[0].reply
    else FirstMatch(rules[1..], m)
  }

  /** `Reply` is exactly the table read top to bottom. */
  lemma ReplyIsFirstMatch(userMessage: string)
    ensures Reply(userMessage) == FirstMatch(Rules(), ToLower(userMessage))
  {
    var m := ToLower(userMessage);
    var r0 := Rules();
    ContainsAnyOne(m, "plumbing");
    ContainsAnyOne(m, "electrical");
    ContainsAnyOne(m, "cleaning");
    ContainsAnyOne(m, "tutoring");
    ContainsAnyTwo(m, "location", "westlands");
    ContainsAnyTwo(m, "mike", "book");
    ContainsAnyTwo(m, "yes", "proceed");
    var r4 := r0[4..];
    assert r4 == [r0[4], r0[5], r0[6]];
    assert FirstMatch(r4[1..][1..], m) == if ContainsAny(m, r0[6].keywords) then DetailsRequest else Fallback;
    assert FirstMatch(r4, m) == if ContainsAny(m, r0[4].keywords) then NearbyPlumbers
                                else if ContainsAny(m, r0[5].keywords) then MikeDetails
                                else FirstMatch(r4[1..][1..], m);
    var r1 := r0[1..];
    var r2 := r1[1..];
    var r3 := r2[1..];
    assert r3[1..] == r4;
    assert FirstMatch(r3, m) == if ContainsAny(m, r0[3].keywords) then TutoringPrompt else FirstMatch(r4, m);
    assert FirstMatch(r2, m) == if ContainsAny(m, r0[2].keywords) then CleaningPrompt else FirstMatch(r3, m);
    assert FirstMatch(r1, m) == if ContainsAny(m, r0[1].keywords) then ElectricalPrompt else FirstMatch(r2, m);
  }

  lemma ContainsAnyOne(m: string, a: string)
    ensures ContainsAny(m, [a]) == Contains(m, a)
  {
    assert [a][1..] == [];
  }

  lemma ContainsAnyTwo(m: string, a: string, b: string)
    ensures ContainsAny(m, [a, b]) == (Contains(m, a) || Contains(m, b))
  {
    assert [a, b][1..] == [b];
    ContainsAnyOne(m, b);
  }

  /** The table's choice is the earliest rule that matches; the fallback only when none does. */
  lemma {:induction false} FirstMatchIsEarliest(rules: seq<Rule>, m: string)
    requires forall j :: 0 <= j < |rules| ==> rules[j].reply != Fallback
    ensures FirstMatch(rules, m) == Fallback <==> forall j :: 0 <= j < |rules| ==> !ContainsAny(m, rules[j].keywords)
    ensures FirstMatch(rules, m) != Fallback ==>
              exists j :: 0 <= j < |rules| && ContainsAny(m, rules[j].keywords) && FirstMatch(rules, m) == rules[j].reply
                          && forall k :: 0 <= k < j ==> !ContainsAny(m, rules[k].keywords)
  {
    if rules != [] && !ContainsAny(m, rules[0].keywords) {
      FirstMatchIsEarliest(rules[1..], m);
      assert forall j :: 1 <= j < |rules| ==> rules[j] == rules[1..][j - 1];
      if FirstMatch(rules, m) != Fallback {
        var j :| 0 <= j < |rules[1..]| && ContainsAny(m, rules[1..][j].keywords) && FirstMatch(rules[1..], m) == rules[1..][j].reply
                 && forall k :: 0 <= k < j ==> !ContainsAny(m, rules[1..][k].keywords);
        assert rules[j + 1] == rules[1..][j];
      }
    } else if rules != [] {
      assert rules[0].reply != Fallback;
    }
  }

  /** The reply is the fallback exactly when the message has no keyword of any rule. */
  lemma FallbackIffNoKeyword(userMessage: string)
    ensures Reply(userMessage) == Fallback <==>
              forall j :: 0 <= j < |Rules()| ==> !ContainsAny(ToLower(userMessage), Rules()[j].keywords)
  {
    ReplyIsFirstMatch(userMessage);
    FirstMatchIsEarliest(Rules(), ToLower(userMessage));
  }

  /** A needle with a character the text lacks does not occur in it. */
  lemma MissingCharNotContained(s: string, needle: string, c: char)
    requires c in needle && c !in s
    ensures !Contains(s, needle)
  {
    ContainsIff(s, needle);
  }

  /** A message with keywords of several rules gets the earliest rule's reply. */
  lemma EarliestRuleWins(userMessage: string)
    requires userMessage == "plumbing in westlands"
    ensures Reply(userMessage) == PlumbingPrompt
    ensures ContainsAny(ToLower(userMessage), Rules()[4].keywords)
  {
    ToLowerUnchanged(userMessage);
    var m := ToLower(userMessage);
    assert StartsWith(m, "plumbing");
    ContainsSlice(m, 12, 21);
    assert m[12..21] == "westlands";
  }

  /** A message written only with letters other than l, u, w, m, b, y and o has none of the keywords. */
  lemma FallbackWithoutKeyLetters(userMessage: string, letters: set<char>)
    requires forall i :: 0 <= i < |ToLower(userMessage)| ==> ToLower(userMessage)[i] in letters
    requires 'l' !in letters && 'u' !in letters && 'w' !in letters && 'm' !in letters
    requires 'b' !in letters && 'y' !in letters && 'o' !in letters
    ensures Reply(userMessage) == Fallback
  {
    var m := ToLower(userMessage);
    MissingCharNotContained(m, "plumbing", 'l');
    MissingCharNotContained(m, "electrical", 'l');
    MissingCharNotContained(m, "cleaning", 'l');
    MissingCharNotContained(m, "tutoring", 'u');
    MissingCharNotContained(m, "location", 'l');
    MissingCharNotContained(m, "westlands", 'w');
    MissingCharNotContained(m, "mike", 'm');
    MissingCharNotContained(m, "book", 'b');
    MissingCharNotContained(m, "yes", 'y');
    MissingCharNotContained(m, "proceed", 'o');
  }

  /** The letters of a capitalised word, once lower-cased. */
  lemma LowerLetters(word: string, lower: string, letters: set<char>)
    requires word != [] && forall i :: 1 <= i < |word| ==> !('A' <= word[i] <= 'Z')
    requires lower == [LowerChar(word[0])] + word[1..]
    requires forall i :: 0 <= i < |lower| ==> lower[i] in letters
    ensures forall i :: 0 <= i < |ToLower(word)| ==> ToLower(word)[i] in letters
  {
    ToLowerCapitalised(word);
  }

  /** The quick reply "Car repair" matches none of the rules. */
  lemma CarRepairFallsBack(userMessage: string)
    requires userMessage == "Car repair"
    ensures Reply(userMessage) == Fallback
  {
    var letters := {'c', 'a', 'r', ' ', 'e', 'p', 'i'};
    LowerLetters(userMessage, "car repair", letters);
    FallbackWithoutKeyLetters(userMessage, letters);
  }

  /** The quick reply "Painting" matches none of the rules. */
  lemma PaintingFallsBack(userMessage: string)
    requires userMessage == "Painting"
    ensures Reply(userMessage) == Fallback
  {
    var letters := {'p', 'a', 'i', 'n', 't', 'g'};
    LowerLetters(userMessage, "painting", letters);
    FallbackWithoutKeyLetters(userMessage, letters);
  }

  /**
   * The lower case of a capitalised word, through a spelled-out `lower`
   * so that the word itself need not be evaluated: a slice of it, and the
   * letters it uses.
   */
  lemma CapitalisedWord(word: string, lower: string, letters: set<char>, i: nat, j: nat)
    requires word != [] && forall k :: 1 <= k < |word| ==> !('A' <= word[k] <= 'Z')
    requires lower == [LowerChar(word[0])] + word[1..] && i <= j <= |lower|
    requires forall k :: 0 <= k < |lower| ==> lower[k] in letters
    ensures |ToLower(word)| == |lower| && ToLower(word)[i..j] == lower[i..j]
    ensures forall k :: 0 <= k < |ToLower(word)| ==> ToLower(word)[k] in letters
  {
    ToLowerCapitalised(word);
  }

  /** "plumbing" anywhere gives the plumbing prompt. */
  lemma PlumbingReply(userMessage: string, i: nat)
    requires i + 8 <= |ToLower(userMessage)| && ToLower(userMessage)[i..i + 8] == "plumbing"
    ensures Reply(userMessage) == PlumbingPrompt
  {
    ContainsSlice(ToLower(userMessage), i, i + 8);
  }

  /** "electrical", in a message without the letter p, gives the electrical prompt. */
  lemma ElectricalReply(userMessage: string, letters: set<char>, i: nat)
    requires i + 10 <= |ToLower(userMessage)| && ToLower(userMessage)[i..i + 10] == "electrical"
    requires forall k :: 0 <= k < |ToLower(userMessage)| ==> ToLower(userMessage)[k] in letters
    requires 'p' !in letters
    ensures Reply(userMessage) == ElectricalPrompt
  {
    var m := ToLower(userMessage);
    ContainsSlice(m, i, i + 10);
    MissingCharNotContained(m, "plumbing", 'p');
  }

  /** "cleaning", in a message without the letters p and t, gives the cleaning prompt. */
  lemma CleaningReply(userMessage: string, letters: set<char>, i: nat)
    requires i + 8 <= |ToLower(userMessage)| && ToLower(userMessage)[i..i + 8] == "cleaning"
    requires forall k :: 0 <= k < |ToLower(userMessage)| ==> ToLower(userMessage)[k] in letters
    requires 'p' !in letters && 't' !in letters
    ensures Reply(userMessage) == CleaningPrompt
  {
    var m := ToLower(userMessage);
    ContainsSlice(m, i, i + 8);
    MissingCharNotContained(m, "plumbing", 'p');
    MissingCharNotContained(m, "electrical", 't');
  }

  /** "tutoring", in a message without the letters p, e and c, gives the tutoring prompt. */
  lemma TutoringReply(userMessage: string, letters: set<char>, i: nat)
    requires i + 8 <= |ToLower(userMessage)| && ToLower(userMessage)[i..i + 8] == "tutoring"
    requires forall k :: 0 <= k < |ToLower(userMessage)| ==> ToLower(userMessage)[k] in letters
    requires 'p' !in letters && 'e' !in letters && 'c' !in letters
    ensures Reply(userMessage) == TutoringPrompt
  {
    var m := ToLower(userMessage);
    ContainsSlice(m, i, i + 8);
    MissingCharNotContained(m, "plumbing", 'p');
    MissingCharNotContained(m, "electrical", 'e');
    MissingCharNotContained(m, "cleaning", 'c');
  }

  lemma PlumbingQuickReply(word: string)
    requires word == "Plumbing"
    ensures Reply(word) == PlumbingPrompt
  {
    var lower := "plumbing";
    CapitalisedWord(word, lower, {'p', 'l', 'u', 'm', 'b', 'i', 'n', 'g'}, 0, 8);
    assert lower[0..8] == "plumbing";
    PlumbingReply(word, 0);
  }

  lemma ElectricalQuickReply(word: string)
    requires word == "Electrical work"
    ensures Reply(word) == ElectricalPrompt
  {
    var lower := "electrical work";
    var letters := {'e', 'l', 'c', 't', 'r', 'i', 'a', ' ', 'w', 'o', 'k'};
    CapitalisedWord(word, lower, letters, 0, 10);
    assert lower[0..10] == "electrical";
    ElectricalReply(word, letters, 0);
  }

  lemma CleaningQuickReply(word: string)
    requires word == "House cleaning"
    ensures Reply(word) == CleaningPrompt
  {
    var lower := "house cleaning";
    var letters := {'h', 'o', 'u', 's', 'e', ' ', 'c', 'l', 'a', 'n', 'i', 'g'};
    CapitalisedWord(word, lower, letters, 6, 14);
    assert lower[6..14] == "cleaning";
    CleaningReply(word, letters, 6);
  }

  lemma TutoringQuickReply(word: string)
    requires word == "Tutoring"
    ensures Reply(word) == TutoringPrompt
  {
    var lower := "tutoring";
    var letters := {'t', 'u', 'o', 'r', 'i', 'n', 'g'};
    CapitalisedWord(word, lower, letters, 0, 8);
    assert lower[0..8] == "tutoring";
    TutoringReply(word, letters, 0);
  }

  /** The ids of a log number its entries 1, 2, 3, … in order. */
  ghost predicate Numbered(log: seq<Message>) {
    forall i :: 0 <= i < |log| ==> log[i].id == i + 1
  }

  /** A numbered log has no two entries with the same id. */
  lemma NumberedIdsDistinct(log: seq<Message>, i: int, j: int)
    requires Numbered(log) && 0 <= i < |log| && 0 <= j < |log| && i != j
    ensures log[i].id != log[j].id
  {
  }

  /** The chat page's state. */
  class ChatSession {
    var messages: seq<Message>
    var inputMessage: string
    var isTyping: bool
    /** The user texts whose replies are scheduled and not yet posted, oldest first. */
    var pending: seq<string>

    /** The log still starts with the greeting and is numbered 1, 2, 3, … */
    ghost predicate Valid()
      reads this
    {
      |messages| >= 1 && messages[0] == InitialLog()[0] && Numbered(messages)
    }

    constructor ()
      ensures Valid()
      ensures messages == InitialLog() && inputMessage == "" && !isTyping && pending == []
    {
      messages := InitialLog();
      inputMessage := "";
      isTyping := false;
      pending := [];
    }

    /** Typing into the input box. */
    method SetInputMessage(value: string)
      modifies this
      requires Valid()
      ensures Valid()
      ensures inputMessage == value
      ensures messages == old(messages) && isTyping == old(isTyping) && pending == old(pending)
    {
      inputMessage := value;
    }

    /** Schedules the reply to `userMessage` (`simulateBotResponse` up to its timer). */
    method SimulateBotResponse(userMessage: string)
      modifies this
      requires Valid()
      ensures Valid()
      ensures isTyping && pending == old(pending) + [userMessage]
      ensures messages == old(messages) && inputMessage == old(inputMessage)
    {
      isTyping := true;
      pending := pending + [userMessage];
    }

    /**
     * `handleSendMessage`: blank input (after trimming) does nothing;
     * otherwise the untrimmed text is logged as the user's, its reply is
     * scheduled and the input box is cleared.
     */
    method HandleSendMessage(now: string)
      modifies this
      requires Valid()
      ensures Valid()
      ensures Trim(old(inputMessage)) == "" ==>
                messages == old(messages) && inputMessage == old(inputMessage)
                && isTyping == old(isTyping) && pending == old(pending)
      ensures Trim(old(inputMessage)) != "" ==>
                messages == old(messages) + [Message(|old(messages)| + 1, Typed(old(inputMessage)), false, now)]
                && pending == old(pending) + [old(inputMessage)]
                && isTyping && inputMessage == ""
    {
      if Trim(inputMessage) == "" {
        return;
      }
      var newMessage := Message(|messages| + 1, Typed(inputMessage), false, now);
      messages := messages + [newMessage];
      SimulateBotResponse(inputMessage);
      inputMessage := "";
    }

    /** `handleQuickReply`: the button's label is logged as the user's, without any check, and answered like a typed message. */
    method HandleQuickReply(reply: string, now: string)
      modifies this
      requires Valid()
      ensures Valid()
      ensures messages == old(messages) + [Message(|old(messages)| + 1, Typed(reply), false, now)]
      ensures pending == old(pending) + [reply] && isTyping && inputMessage == old(inputMessage)
    {
      var newMessage := Message(|messages| + 1, Typed(reply), false, now);
      messages := messages + [newMessage];
      SimulateBotResponse(reply);
    }

    /** The timer of the oldest scheduled reply fires: the bot's reply is logged and typing stops. */
    method DeliverReply(now: string)
      modifies this
      requires Valid() && pending != []
      ensures Valid()
      ensures messages == old(messages) + [Message(|old(messages)| + 1, Canned(Reply(old(pending)[0])), true, now)]
      ensures pending == old(pending)[1..] && !isTyping && inputMessage == old(inputMessage)
    {
      var botResponse := Reply(pending[0]);
      messages := messages + [Message(|messages| + 1, Canned(botResponse), true, now)];
      pending := pending[1..];
      isTyping := false;
    }
  }
}
