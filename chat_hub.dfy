/** The collaboration hub: an append-only message log, the message being typed,
    and the "assistant is typing" indicator that stays on from a user's message
    until the simulated assistant reply arrives. */
module ChatHub {
  import opened Common
  import opened Strings

  datatype MessageType = UserMessage | AiMessage

  /** A chat message; `timestamp` is in milliseconds since the epoch. */
  datatype Message = Message(
    id: string,
    sender: string,
    content: string,
    timestamp: int,
    msgType: MessageType,
    avatar: Option<string>)

  const AssistantName := "KMRL AI Assistant"

  const AssistantReply := "I understand your query. Let me analyze the relevant documents and provide you with the most accurate information. Based on current data patterns, here are my recommendations..."

  /** The first character of each piece, skipping empty pieces (their first
      character is undefined, and joining drops it). */
  function FirstChars(words: seq<string>): (r: string)
    ensures |r| <= |words|
    ensures r == [] <==> AllEmpty(words)
    ensures forall c :: c in r ==> exists k :: 0 <= k < |words| && c in words[k]
  {
    if words == [] then ""
    else
      var rest := FirstChars(words[1..]);
      assert forall k :: 1 <= k < |words| ==> words[k] == words[1..][k - 1];
      (if words[0] == [] then "" else [words[0][0]]) + rest
  }

  /** A user's initials, as shown in avatars: the first character of every
      space-separated word of the name. */
  function Initials(name: string): (r: string)
    ensures |r| <= |Split(name, ' ')|
    ensures ' ' !in r && forall c :: c in r ==> c in name
    ensures r == [] <==> OnlySpaces(name)
  {
    SplitPieces(name, ' ');
    BlankNameIffEmptyWords(name);
    FirstChars(Split(name, ' '))
  }

  /** The initials of a list of words are those of its parts, in order. */
  lemma {:induction false} FirstCharsAppend(a: seq<string>, b: seq<string>)
    ensures FirstChars(a + b) == FirstChars(a) + FirstChars(b)
  {
    if a == [] {
      assert a + b == b;
    } else {
      var ab := a + b;
      var head := if a[0] == [] then "" else [a[0][0]];
      assert ab[0] == a[0] && ab[1..] == a[1..] + b;
      FirstCharsAppend(a[1..], b);
      calc {
        FirstChars(ab);
        head + FirstChars(ab[1..]);
        head + (FirstChars(a[1..]) + FirstChars(b));
        (head + FirstChars(a[1..])) + FirstChars(b);
        FirstChars(a) + FirstChars(b);
      }
    }
  }

  /** A single word contributes its first character, or nothing when empty;
      with FirstCharsAppend this fixes FirstChars on every list. */
  lemma FirstCharsOfWord(w: string)
    ensures FirstChars([w]) == if w == [] then "" else [w[0]]
  {
  }

  /** A name without spaces has its first character as its only initial. */
  lemma InitialsOfWord(w: string)
    requires ' ' !in w
    ensures Initials(w) == if w == [] then "" else [w[0]]
  {
    assert Split(w, ' ') == [w];
    FirstCharsOfWord(w);
  }

  /** The first word of a name gives the first initial, and the rest of the
      name the remaining ones. */
  lemma InitialsOfLeadingWord(w: string, rest: string)
    requires ' ' !in w
    ensures Initials(w + " " + rest) == (if w == [] then "" else [w[0]]) + Initials(rest)
  {
    SplitAtFirst(w, ' ', rest);
    FirstCharsAppend([w], Split(rest, ' '));
    FirstCharsOfWord(w);
  }

  /** The initials of words joined by single spaces are their first characters. */
  lemma InitialsOfJoinedWords(words: seq<string>)
    requires |words| >= 1 && NoSeparator(words, ' ')
    ensures Initials(Join(words, ' ')) == FirstChars(words)
  {
    JoinSplit(words, ' ');
  }

  predicate AllEmpty(words: seq<string>) {
    forall k :: 0 <= k < |words| ==> words[k] == []
  }

  predicate OnlySpaces(name: string) {
    forall i :: 0 <= i < |name| ==> name[i] == ' '
  }

  /** A name is only spaces exactly when all its words are empty. */
  lemma BlankNameIffEmptyWords(name: string)
    ensures AllEmpty(Split(name, ' ')) <==> OnlySpaces(name)
  {
    if AllEmpty(Split(name, ' ')) {
      EmptyWordsOnlySpaces(name);
    } else {
      NonEmptyWordNotAllSpaces(name);
    }
  }

  /** A name whose words are all empty consists of spaces only. */
  lemma EmptyWordsOnlySpaces(name: string)
    requires AllEmpty(Split(name, ' '))
    ensures OnlySpaces(name)
  {
    SplitJoin(name, ' ');
    JoinOfEmptyPieces(Split(name, ' '), ' ');
  }

  /** A name with a non-empty word holds a character other than a space. */
  lemma NonEmptyWordNotAllSpaces(name: string)
    requires !AllEmpty(Split(name, ' '))
    ensures !OnlySpaces(name)
  {
    var words := Split(name, ' ');
    var k :| 0 <= k < |words| && words[k] != [];
    SplitPieces(name, ' ');
    assert words[k][0] in name;
    var i :| 0 <= i < |name| && name[i] == words[k][0];
  }

  /** Joining empty pieces leaves only separators. */
  lemma {:induction false} JoinOfEmptyPieces(parts: seq<string>, sep: char)
    requires |parts| >= 1 && AllEmpty(parts)
    ensures forall i :: 0 <= i < |Join(parts, sep)| ==> Join(parts, sep)[i] == sep
  {
    if |parts| > 1 {
      JoinOfEmptyPieces(parts[1..], sep);
      assert Join(parts, sep) == [sep] + Join(parts[1..], sep);
    }
  }

  lemma WordsOfSarahKumar()
    ensures Split("Sarah Kumar", ' ') == ["Sarah", "Kumar"]
  {
    assert "Sarah Kumar" == "Sarah" + " " + "Kumar";
    SplitAtFirst("Sarah", ' ', "Kumar");
    assert Split("Kumar", ' ') == ["Kumar"];
  }

  lemma WordsOfDemoUser()
    ensures Split("Dr. Sarah Kumar", ' ') == ["Dr.", "Sarah", "Kumar"]
  {
    assert "Dr. Sarah Kumar" == "Dr." + " " + "Sarah Kumar";
    SplitAtFirst("Dr.", ' ', "Sarah Kumar");
    WordsOfSarahKumar();
  }

  /** The demo user's initials include the title's "D". */
  lemma InitialsOfDemoUser()
    ensures Initials("Dr. Sarah Kumar") == "DSK"
  {
    WordsOfDemoUser();
    FirstCharsOfDemoUser();
  }

  lemma FirstCharsOfDemoUser()
    ensures FirstChars(["Dr.", "Sarah", "Kumar"]) == "DSK"
  {
  }

  lemma WordsAfterDoubleSpace()
    ensures Split(" Mehta", ' ') == ["", "Mehta"]
  {
    assert " Mehta" == "" + " " + "Mehta";
    SplitAtFirst("", ' ', "Mehta");
    assert Split("Mehta", ' ') == ["Mehta"];
  }

  /** Consecutive spaces make an empty word, which adds nothing. */
  lemma InitialsSkipEmptyWords()
    ensures Initials("Rahul  Mehta") == "RM"
  {
    assert "Rahul  Mehta" == "Rahul" + " " + " Mehta";
    SplitAtFirst("Rahul", ' ', " Mehta");
    WordsAfterDoubleSpace();
    assert FirstChars(["Rahul", "", "Mehta"]) == "RM";
  }

  /** `!input.trim()`: the input holds nothing but white space. */
  function IsBlank(input: string): (r: bool)
    ensures r <==> AllWhiteSpace(input)
  {
    Trim(input) == ""
  }

  /** The send button is enabled when the trimmed input is non-empty and no
      assistant reply is awaited. */
  function CanSubmit(input: string, isTyping: bool): (r: bool)
    ensures r <==> !isTyping && !AllWhiteSpace(input)
  {
    !IsBlank(input) && !isTyping
  }

  /** A member of the team sidebar; `status` is "online" or "away". */
  datatype TeamMember = TeamMember(name: string, status: string, avatar: string)

  const TeamMembers := [
    TeamMember("Rahul Mehta", "online", "RM"),
    TeamMember("Priya Nair", "online", "PN"),
    TeamMember("Arjun Krishnan", "away", "AK"),
    TeamMember("Maya Pillai", "online", "MP")
  ]

  /** `members.filter(u => u.status === 'online')`, in order. */
  function OnlineMembers(members: seq<TeamMember>): (r: seq<TeamMember>)
    ensures |r| <= |members|
    ensures forall k :: 0 <= k < |r| ==> r[k].status == "online"
    ensures forall m :: multiset(r)[m] == if m.status == "online" then multiset(members)[m] else 0
  {
    if members == [] then []
    else
      var rest := OnlineMembers(members[1..]);
      assert multiset(members) == multiset{members[0]} + multiset(members[1..]) by {
        assert members == [members[0]] + members[1..];
      }
      if members[0].status == "online" then [members[0]] + rest else rest
  }

  /** Filtering a list filters its parts, keeping their order. */
  lemma {:induction false} OnlineMembersAppend(a: seq<TeamMember>, b: seq<TeamMember>)
    ensures OnlineMembers(a + b) == OnlineMembers(a) + OnlineMembers(b)
  {
    if a == [] {
      assert a + b == b;
    } else {
      assert (a + b)[0] == a[0] && (a + b)[1..] == a[1..] + b;
      OnlineMembersAppend(a[1..], b);
    }
  }

  /** The positions of online members. */
  function OnlinePositions(members: seq<TeamMember>): set<int> {
    set k | 0 <= k < |members| && members[k].status == "online"
  }

  /** Appending a member adds its position exactly when it is online. */
  lemma OnlinePositionsSnoc(init: seq<TeamMember>, last: TeamMember)
    ensures OnlinePositions(init + [last])
      == OnlinePositions(init) + (if last.status == "online" then {|init|} else {})
    ensures |init| !in OnlinePositions(init)
  {
    var members := init + [last];
    forall k | 0 <= k < |init| ensures members[k] == init[k] { }
    assert members[|init|] == last;
  }

  /** The filter keeps one member per position whose member is online. */
  lemma {:induction false} OnlineMembersLength(members: seq<TeamMember>)
    ensures |OnlineMembers(members)| == |OnlinePositions(members)|
    decreases |members|
  {
    if members != [] {
      var init, last := members[..|members| - 1], members[|members| - 1];
      assert members == init + [last];
      OnlineMembersLength(init);
      OnlineMembersSnoc(init, last);
      OnlinePositionsSnoc(init, last);
    }
  }

  /** Appending a member adds it to the filter exactly when it is online. */
  lemma OnlineMembersSnoc(init: seq<TeamMember>, last: TeamMember)
    ensures |OnlineMembers(init + [last])| == |OnlineMembers(init)| + if last.status == "online" then 1 else 0
  {
    OnlineMembersAppend(init, [last]);
    assert [last][1..] == [];
  }

  /** The header's "N online" count. */
  function OnlineCount(members: seq<TeamMember>): (n: nat)
    ensures n <= |members|
    ensures n == |OnlinePositions(members)|
  {
    OnlineMembersLength(members);
    |OnlineMembers(members)|
  }

  predicate AllOnline(members: seq<TeamMember>) {
    forall k :: 0 <= k < |members| ==> members[k].status == "online"
  }

  /** Everybody is counted exactly when everybody is online. */
  lemma {:induction false} OnlineCountAll(members: seq<TeamMember>)
    ensures OnlineCount(members) == |members| <==> AllOnline(members)
  {
    if members != [] {
      var rest := members[1..];
      OnlineCountAll(rest);
      assert |OnlineMembers(members)| == (if members[0].status == "online" then 1 else 0) + |OnlineMembers(rest)|;
      assert AllOnline(members) <==> members[0].status == "online" && AllOnline(rest) by {
        assert forall k :: 1 <= k < |members| ==> members[k] == rest[k - 1];
      }
    }
  }

  /** The sidebar's team shows three members online. */
  lemma OnlineCountOfTeam()
    ensures OnlineCount(TeamMembers) == 3
  {
  }

  const WelcomeText := "Hello! I'm here to help you with document analysis, project insights, and team collaboration. How can I assist you today?"
  const SafetyQuestionText := "Has anyone reviewed the new safety protocols document? We need to implement the changes by next week."
  const SafetyAnswerText := "I've analyzed it. The AI summary suggests 3 critical action items that need immediate attention."
  const PrioritiesText := "Based on the safety protocols document, here are the key priorities:\n\n1. Update emergency evacuation procedures\n2. Install additional safety barriers at Platform 3\n3. Conduct staff training by January 20th\n\nWould you like me to create task assignments for these items?"

  /** The conversation the hub opens with, timed relative to `now`. */
  function SeedMessages(now: int): seq<Message> {
    [
      Message("1", AssistantName, WelcomeText, now - 300000, AiMessage, None),
      Message("2", "Rahul Mehta", SafetyQuestionText, now - 240000, UserMessage, Some("RM")),
      Message("3", "Dr. Sarah Kumar", SafetyAnswerText, now - 180000, UserMessage, Some("SK")),
      Message("4", AssistantName, PrioritiesText, now - 120000, AiMessage, None)
    ]
  }

  /** The chat page's state for the signed-in `user`. `pendingReplies` counts
      the assistant replies scheduled and not yet delivered. */
  class ChatHubPage {
    const user: User
    var messages: seq<Message>
    var newMessage: string
    var isTyping: bool
    ghost var pendingReplies: nat

    /** At most one assistant reply is outstanding, and the typing indicator
        shows exactly while one is. */
    ghost predicate Serialized()
      reads this
    {
      pendingReplies <= 1 && (isTyping <==> pendingReplies == 1)
    }

    constructor (user: User, now: int)
      ensures this.user == user && messages == SeedMessages(now)
      ensures newMessage == "" && !isTyping && pendingReplies == 0
      ensures Serialized()
    {
      this.user := user;
      messages := SeedMessages(now);
      newMessage := "";
      isTyping := false;
      pendingReplies := 0;
    }

    /** Typing in the input field. */
    method HandleChange(value: string)
      modifies this`newMessage
      ensures newMessage == value
    {
      newMessage := value;
    }

    /** Submitting the form. Blank input changes nothing; otherwise the input is
        appended, untrimmed, as the user's message, the field is cleared, the
        typing indicator turns on and an assistant reply is scheduled. */
    method HandleSendMessage(id: string, now: int) returns (sent: bool)
      modifies this`messages, this`newMessage, this`isTyping, this`pendingReplies
      ensures sent <==> !AllWhiteSpace(old(newMessage))
      ensures !sent ==> messages == old(messages) && newMessage == old(newMessage) && isTyping == old(isTyping)
      ensures !sent ==> pendingReplies == old(pendingReplies)
      ensures sent ==>
        && messages == old(messages) + [Message(id, user.name, old(newMessage), now, UserMessage, Some(Initials(user.name)))]
        && newMessage == "" && isTyping && pendingReplies == old(pendingReplies) + 1
    {
      sent := !IsBlank(newMessage);
      if sent {
        messages := messages + [Message(id, user.name, newMessage, now, UserMessage, Some(Initials(user.name)))];
        newMessage := "";
        isTyping := true;
        pendingReplies := pendingReplies + 1;
      }
    }

    /** The scheduled assistant reply: appended at the end, after which the
        typing indicator turns off. */
    method DeliverAssistantReply(id: string, now: int)
      requires pendingReplies > 0
      modifies this`messages, this`isTyping, this`pendingReplies
      ensures messages == old(messages) + [Message(id, AssistantName, AssistantReply, now, AiMessage, None)]
      ensures !isTyping && pendingReplies == old(pendingReplies) - 1
      ensures old(Serialized()) ==> Serialized()
    {
      messages := messages + [Message(id, AssistantName, AssistantReply, now, AiMessage, None)];
      isTyping := false;
      pendingReplies := pendingReplies - 1;
    }

    /** The send button (or Enter), which only submits while `CanSubmit` holds;
        this keeps assistant replies one at a time. */
    method PressSend(id: string, now: int) returns (sent: bool)
      requires Serialized()
      modifies this`messages, this`newMessage, this`isTyping, this`pendingReplies
      ensures Serialized()
      ensures sent <==> old(CanSubmit(newMessage, isTyping))
      ensures !sent ==> messages == old(messages) && newMessage == old(newMessage) && isTyping == old(isTyping)
      ensures !sent ==> pendingReplies == old(pendingReplies)
      ensures sent ==>
        && messages == old(messages) + [Message(id, user.name, old(newMessage), now, UserMessage, Some(Initials(user.name)))]
        && newMessage == "" && isTyping
    {
      if !CanSubmit(newMessage, isTyping) {
        return false;
      }
      sent := HandleSendMessage(id, now);
    }
  }

  /** Typing a non-blank input on an idle hub, pressing send and receiving the
      reply appends the user's message and then the assistant's. */
  method SendAndReceive(hub: ChatHubPage, input: string, sentId: string, sentAt: int, replyId: string, repliedAt: int)
    requires hub.Serialized() && !hub.isTyping && !AllWhiteSpace(input)
    modifies hub
    ensures hub.messages == old(hub.messages) + [
      Message(sentId, hub.user.name, input, sentAt, UserMessage, Some(Initials(hub.user.name))),
      Message(replyId, AssistantName, AssistantReply, repliedAt, AiMessage, None)]
    ensures hub.newMessage == "" && !hub.isTyping && hub.Serialized()
  {
    ghost var before := hub.messages;
    ghost var sentMessage := Message(sentId, hub.user.name, input, sentAt, UserMessage, Some(Initials(hub.user.name)));
    ghost var reply := Message(replyId, AssistantName, AssistantReply, repliedAt, AiMessage, None);
    hub.HandleChange(input);
    var sent := hub.PressSend(sentId, sentAt);
    assert sent && hub.isTyping && hub.messages == before + [sentMessage];
    hub.DeliverAssistantReply(replyId, repliedAt);
    assert hub.messages == before + [sentMessage] + [reply] == before + [sentMessage, reply];
  }

  /** One exchange on a freshly opened hub: a non-blank input is sent and the
      assistant's reply arrives; the log is the opening conversation followed by
      the two messages, and the indicator is off again. */
  method Exchange(user: User, input: string, openedAt: int, sentAt: int, repliedAt: int)
    returns (log: seq<Message>, typing: bool)
    requires !AllWhiteSpace(input)
    ensures log == SeedMessages(openedAt) + [
      Message("5", user.name, input, sentAt, UserMessage, Some(Initials(user.name))),
      Message("6", AssistantName, AssistantReply, repliedAt, AiMessage, None)]
    ensures !typing
  {
    var hub := new ChatHubPage(user, openedAt);
    SendAndReceive(hub, input, "5", sentAt, "6", repliedAt);
    log, typing := hub.messages, hub.isTyping;
  }
}
