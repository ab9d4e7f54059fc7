/** Support conversations with cached unread counters
    (src/support-chat/support-chat.service.ts:57-78, 129-224). Each call is one step. */
module SupportChat {
  import opened Text

  type Id = nat

  datatype Actor = Actor(id: Id, staff: bool)

  datatype Sender = USER | ADMIN | SYSTEM

  datatype Status = OPEN | WAITING | RESOLVED | BLOCKED

  /** Rows are only ever added, so ids are indices and a later message is newer. */
  datatype Message = Message(conversation: nat, sender: Sender, senderId: Option<Id>, text: string, seen: bool,
                             deletedByUser: bool, deletedByAdmin: bool)

  datatype Conversation = Conversation(user: Id, status: Status, assignee: Option<Id>, lastMessage: Option<nat>,
                                       userUnread: int, adminUnread: int)

  datatype State = State(conversations: seq<Conversation>, messages: seq<Message>)

  datatype Payload = Payload(text: Option<string>, message: Option<string>, mediaUrl: Option<string>,
                             originalName: Option<string>, messageType: Option<string>)

  datatype Event =
    | Ensure(actor: Actor)
    | SendUser(actor: Actor, payload: Payload)
    | SendAdmin(actor: Actor, conversation: nat, payload: Payload)
    | MarkSeen(actor: Actor, conversation: nat)
    | UpdateStatus(actor: Actor, conversation: nat, status: Status)
    | DeleteMessage(actor: Actor, message: nat)

  datatype Reply = NotFound | Forbidden | BadRequest | Done

  datatype Result = Result(state: State, reply: Reply)

  const WELCOME_TEXT := "Welcome to Urdu Bolo Support.\nHow can we help you today?"

  // ---------------------------------------------------------------------
  // Calls

  /** The user's conversation among the first `n`, or `n`. */
  function ConversationOf(cs: seq<Conversation>, user: Id): (at: nat)
    ensures at <= |cs|
    ensures at < |cs| ==> cs[at].user == user
    ensures forall k :: 0 <= k < at ==> cs[k].user != user
  {
    if cs == [] || cs[0].user == user then 0 else 1 + ConversationOf(cs[1..], user)
  }

  /** Creates the conversation with its welcome message unless there is one. */
  function Ensured(s: State, user: Id): State {
    if ConversationOf(s.conversations, user) < |s.conversations| then s
    else State(s.conversations + [Conversation(user, OPEN, None, Some(|s.messages|), 0, 0)],
               s.messages + [Message(|s.conversations|, SYSTEM, None, WELCOME_TEXT, false, false, false)])
  }

  function Given(p: Payload): string {
    Trim(if p.text.Some? then p.text.value else if p.message.Some? then p.message.value else "")
  }

  /** The text kept, or nothing when there is neither text nor media. */
  function Content(p: Payload): Option<string> {
    var kind := if p.messageType.Some? then p.messageType.value else if Present(p.mediaUrl) then "FILE" else "TEXT";
    if Given(p) != "" then Some(Given(p))
    else if !Present(p.mediaUrl) then None
    else if Present(p.originalName) then p.originalName else Some(kind)
  }

  predicate Present(s: Option<string>) { s.Some? && s.value != "" }

  function Created(s: State, c: nat, actor: Actor, sender: Sender, text: string): State
    requires c < |s.conversations|
  {
    var row := s.conversations[c].(
      status := if sender == USER then WAITING else OPEN,
      assignee := if sender == ADMIN then Some(actor.id) else s.conversations[c].assignee,
      lastMessage := Some(|s.messages|),
      adminUnread := s.conversations[c].adminUnread + if sender == USER then 1 else 0,
      userUnread := s.conversations[c].userUnread + if sender == ADMIN then 1 else 0);
    State(s.conversations[c := row], s.messages + [Message(c, sender, Some(actor.id), text, false, false, false)])
  }

  function Create(s: State, c: nat, actor: Actor, sender: Sender, p: Payload): Result
    requires c < |s.conversations|
  {
    if Content(p).None? then Result(s, BadRequest) else Result(Created(s, c, actor, sender, Content(p).value), Done)
  }

  /** Why the actor may not use the conversation, or `Done`. */
  function Access(s: State, actor: Actor, c: nat): Reply {
    if c >= |s.conversations| then NotFound
    else if !actor.staff && s.conversations[c].user != actor.id then Forbidden
    else Done
  }

  /** Staff see what users sent; a user sees what staff sent. */
  function Seen(s: State, c: nat, staff: bool): State
    requires c < |s.conversations|
  {
    var sender, row := if staff then USER else ADMIN, s.conversations[c];
    State(s.conversations[c := if staff then row.(adminUnread := 0) else row.(userUnread := 0)],
          seq(|s.messages|, i requires 0 <= i < |s.messages| =>
            if s.messages[i].conversation == c && s.messages[i].sender == sender then s.messages[i].(seen := true) else s.messages[i]))
  }

  function Deleted(m: Message, staff: bool): Message { if staff then m.(deletedByAdmin := true) else m.(deletedByUser := true) }

  function Step(s: State, e: Event): Result {
    match e
    case Ensure(actor) => Result(Ensured(s, actor.id), Done)
    case SendUser(actor, p) =>
      var t := Ensured(s, actor.id);
      var c := ConversationOf(t.conversations, actor.id);
      if c < |t.conversations| then Create(t, c, actor, USER, p) else Result(t, NotFound)
    case SendAdmin(actor, c, p) =>
      if !actor.staff then Result(s, Forbidden)
      else if Access(s, actor, c) != Done then Result(s, Access(s, actor, c))
      else Create(s, c, actor, ADMIN, p)
    case MarkSeen(actor, c) =>
      if Access(s, actor, c) != Done then Result(s, Access(s, actor, c)) else Result(Seen(s, c, actor.staff), Done)
    case UpdateStatus(actor, c, status) =>
      if !actor.staff then Result(s, Forbidden)
      else if Access(s, actor, c) != Done then Result(s, Access(s, actor, c))
      else Result(s.(conversations := s.conversations[c := s.conversations[c].(status := status, assignee := Some(actor.id))]), Done)
    case DeleteMessage(actor, m) =>
      if m >= |s.messages| then Result(s, NotFound)
      else if Access(s, actor, s.messages[m].conversation) != Done then Result(s, Access(s, actor, s.messages[m].conversation))
      else Result(s.(messages := s.messages[m := Deleted(s.messages[m], actor.staff)]), Done)
  }

  const EMPTY := State([], [])

  function Run(s: State, events: seq<Event>): State
    decreases |events|
  {
    if events == [] then s else Run(Step(s, events[0]).state, events[1..])
  }

  // ---------------------------------------------------------------------
  // The counters and the log agree

  predicate Counts(m: Message, c: nat, sender: Sender) { m.conversation == c && m.sender == sender && !m.seen }

  /** The messages of the sender in the conversation that were not seen. */
  function Unseen(ms: seq<Message>, c: nat, sender: Sender): nat {
    if ms == [] then 0
    else Unseen(ms[..|ms| - 1], c, sender) + if Counts(ms[|ms| - 1], c, sender) then 1 else 0
  }

  function Newest(ms: seq<Message>, c: nat): Option<nat> {
    if ms == [] then None else if ms[|ms| - 1].conversation == c then Some(|ms| - 1) else Newest(ms[..|ms| - 1], c)
  }

  ghost predicate Agrees(s: State, c: nat)
    requires c < |s.conversations|
  {
    && s.conversations[c].adminUnread == Unseen(s.messages, c, USER)
    && s.conversations[c].userUnread == Unseen(s.messages, c, ADMIN)
    && s.conversations[c].lastMessage == Newest(s.messages, c)
  }

  ghost predicate Inv(s: State) {
    && (forall c :: 0 <= c < |s.conversations| ==> Agrees(s, c))
    && (forall i :: 0 <= i < |s.messages| ==> s.messages[i].conversation < |s.conversations|)
    && (forall a, b :: 0 <= a < b < |s.conversations| ==> s.conversations[a].user != s.conversations[b].user)
  }

  lemma Appended(ms: seq<Message>, m: Message, c: nat, sender: Sender)
    ensures Unseen(ms + [m], c, sender) == Unseen(ms, c, sender) + if Counts(m, c, sender) then 1 else 0
    ensures Newest(ms + [m], c) == if m.conversation == c then Some(|ms|) else Newest(ms, c)
  {
    assert (ms + [m])[..|ms|] == ms;
  }

  lemma {:induction false} NothingYet(ms: seq<Message>, c: nat, sender: Sender)
    requires forall i :: 0 <= i < |ms| ==> ms[i].conversation != c
    ensures Unseen(ms, c, sender) == 0 && Newest(ms, c) == None
  {
    if ms != [] {
      NothingYet(ms[..|ms| - 1], c, sender);
    }
  }

  /** Counting the same messages, newest the same. */
  lemma {:induction false} SameLog(a: seq<Message>, b: seq<Message>, c: nat, sender: Sender)
    requires |a| == |b| && forall i :: 0 <= i < |a| ==>
      a[i].conversation == b[i].conversation && (Counts(a[i], c, sender) <==> Counts(b[i], c, sender))
    ensures Unseen(a, c, sender) == Unseen(b, c, sender) && Newest(a, c) == Newest(b, c)
  {
    if a != [] {
      SameLog(a[..|a| - 1], b[..|b| - 1], c, sender);
    }
  }

  lemma {:induction false} AllSeen(ms: seq<Message>, c: nat, sender: Sender)
    requires forall i :: 0 <= i < |ms| ==> !Counts(ms[i], c, sender)
    ensures Unseen(ms, c, sender) == 0
  {
    if ms != [] {
      AllSeen(ms[..|ms| - 1], c, sender);
    }
  }

  lemma EnsuredKeeps(s: State, user: Id)
    requires Inv(s)
    ensures Inv(Ensured(s, user)) && ConversationOf(Ensured(s, user).conversations, user) < |Ensured(s, user).conversations|
  {
    var t := Ensured(s, user);
    if ConversationOf(s.conversations, user) == |s.conversations| {
      var n, m := |s.conversations|, t.messages[|s.messages|];
      NothingYet(s.messages, n, USER);
      NothingYet(s.messages, n, ADMIN);
      forall c | 0 <= c <= n ensures Agrees(t, c) {
        assert c < n ==> Agrees(s, c);
        Appended(s.messages, m, c, USER);
        Appended(s.messages, m, c, ADMIN);
      }
      assert t.conversations[n].user == user;
    }
  }

  lemma CreatedKeeps(s: State, c: nat, actor: Actor, sender: Sender, text: string)
    requires Inv(s) && c < |s.conversations|
    ensures Inv(Created(s, c, actor, sender, text))
  {
    var t := Created(s, c, actor, sender, text);
    forall x | 0 <= x < |s.conversations| ensures Agrees(t, x) {
      assert Agrees(s, x);
      Appended(s.messages, t.messages[|s.messages|], x, USER);
      Appended(s.messages, t.messages[|s.messages|], x, ADMIN);
    }
  }

  lemma SeenKeeps(s: State, c: nat, staff: bool)
    requires Inv(s) && c < |s.conversations|
    ensures Inv(Seen(s, c, staff))
  {
    var t := Seen(s, c, staff);
    forall x | 0 <= x < |s.conversations| ensures Agrees(t, x) {
      assert Agrees(s, x);
      if x == c {
        AllSeen(t.messages, x, if staff then USER else ADMIN);
        SameLog(s.messages, t.messages, x, if staff then ADMIN else USER);
      } else {
        SameLog(s.messages, t.messages, x, USER);
        SameLog(s.messages, t.messages, x, ADMIN);
      }
    }
  }

  lemma DeletedKeeps(s: State, m: nat, staff: bool)
    requires Inv(s) && m < |s.messages|
    ensures Inv(s.(messages := s.messages[m := Deleted(s.messages[m], staff)]))
  {
    var t := s.(messages := s.messages[m := Deleted(s.messages[m], staff)]);
    forall x | 0 <= x < |s.conversations| ensures Agrees(t, x) {
      assert Agrees(s, x);
      SameLog(s.messages, t.messages, x, USER);
      SameLog(s.messages, t.messages, x, ADMIN);
    }
  }

  lemma StatusKeeps(s: State, c: nat, status: Status, assignee: Option<Id>)
    requires Inv(s) && c < |s.conversations|
    ensures Inv(s.(conversations := s.conversations[c := s.conversations[c].(status := status, assignee := assignee)]))
  {
    var t := s.(conversations := s.conversations[c := s.conversations[c].(status := status, assignee := assignee)]);
    forall x | 0 <= x < |s.conversations| ensures Agrees(t, x) {
      assert Agrees(s, x);
    }
  }

  lemma StepKeeps(s: State, e: Event)
    requires Inv(s)
    ensures Inv(Step(s, e).state)
  {
    hide Created, Seen, Ensured, Content;
    OwnConversations(s);
    match e
    case Ensure(actor) => EnsuredKeeps(s, actor.id);
    case SendUser(actor, p) =>
      EnsuredKeeps(s, actor.id);
      if Content(p).Some? {
        var t := Ensured(s, actor.id);
        CreatedKeeps(t, ConversationOf(t.conversations, actor.id), actor, USER, Content(p).value);
      }
    case SendAdmin(actor, c, p) =>
      if c < |s.conversations| && Content(p).Some? {
        CreatedKeeps(s, c, actor, ADMIN, Content(p).value);
      }
    case MarkSeen(actor, c) =>
      if c < |s.conversations| {
        SeenKeeps(s, c, actor.staff);
      }
    case UpdateStatus(actor, c, status) =>
      if c < |s.conversations| {
        StatusKeeps(s, c, status, Some(actor.id));
      }
    case DeleteMessage(actor, m) =>
      if m < |s.messages| {
        DeletedKeeps(s, m, actor.staff);
      }
  }

  lemma OwnConversations(s: State)
    requires Inv(s)
    ensures forall i :: 0 <= i < |s.messages| ==> s.messages[i].conversation < |s.conversations|
  {
  }

  lemma {:induction false} RunKeeps(s: State, events: seq<Event>)
    requires Inv(s)
    ensures Inv(Run(s, events))
    decreases |events|
  {
    hide Step, Inv;
    if events != [] {
      StepKeeps(s, events[0]);
      RunKeeps(Step(s, events[0]).state, events[1..]);
    }
  }

  /** In every reachable conversation the staff counter is the number of user messages
      not seen, the user counter that of staff messages not seen, and the last
      message is the newest one; and a user has one conversation. */
  lemma CountersAgree(events: seq<Event>, c: nat)
    requires c < |Run(EMPTY, events).conversations|
    ensures var s := Run(EMPTY, events);
      && s.conversations[c].adminUnread == Unseen(s.messages, c, USER)
      && s.conversations[c].userUnread == Unseen(s.messages, c, ADMIN)
      && s.conversations[c].lastMessage == Newest(s.messages, c)
      && ConversationOf(s.conversations, s.conversations[c].user) == c
  {
    RunKeeps(EMPTY, events);
    var s := Run(EMPTY, events);
    assert Agrees(s, c);
    var at := ConversationOf(s.conversations, s.conversations[c].user);
  }

  // ---------------------------------------------------------------------
  // Whose messages change

  /** What `listConversationMessages` shows: each side's own deletions hide. */
  predicate Shown(m: Message, staff: bool) { if staff then !m.deletedByAdmin else !m.deletedByUser }

  /** An ordinary user's call leaves other users' conversations and messages as they
      were, and never hides a message from staff. */
  lemma OrdinaryUserStaysInside(events: seq<Event>, e: Event)
    requires !e.actor.staff
    ensures var s := Run(EMPTY, events);
      var t := Step(s, e).state;
      && |s.conversations| <= |t.conversations| && |s.messages| <= |t.messages|
      && (forall c :: 0 <= c < |s.conversations| && s.conversations[c].user != e.actor.id ==> t.conversations[c] == s.conversations[c])
      && (forall m :: 0 <= m < |s.messages| ==>
            && s.messages[m].conversation < |s.conversations|
            && (s.conversations[s.messages[m].conversation].user != e.actor.id ==> t.messages[m] == s.messages[m])
            && (Shown(s.messages[m], true) ==> Shown(t.messages[m], true)))
  {
    RunKeeps(EMPTY, events);
    OwnConversations(Run(EMPTY, events));
    UserStep(Run(EMPTY, events), e);
  }

  lemma UserStep(s: State, e: Event)
    requires !e.actor.staff && forall i :: 0 <= i < |s.messages| ==> s.messages[i].conversation < |s.conversations|
    ensures var t := Step(s, e).state;
      && |s.conversations| <= |t.conversations| && |s.messages| <= |t.messages|
      && (forall c :: 0 <= c < |s.conversations| && s.conversations[c].user != e.actor.id ==> t.conversations[c] == s.conversations[c])
      && (forall m :: 0 <= m < |s.messages| ==>
            && (s.conversations[s.messages[m].conversation].user != e.actor.id ==> t.messages[m] == s.messages[m])
            && (Shown(s.messages[m], true) ==> Shown(t.messages[m], true)))
  {
    hide Content;
  }

  // ---------------------------------------------------------------------
  // The service

  lemma FirstOf(cs: seq<Conversation>, user: Id, c: nat)
    requires c < |cs| && cs[c].user == user && forall k :: 0 <= k < c ==> cs[k].user != user
    ensures ConversationOf(cs, user) == c
  {
    var at := ConversationOf(cs, user);
    assert !(c < at) && !(at < c);
  }

  class SupportChatService {
    var conversations: seq<Conversation>
    var messages: seq<Message>

    constructor ()
      ensures View() == EMPTY
    {
      conversations, messages := [], [];
    }

    function View(): State
      reads this
    {
      State(conversations, messages)
    }

    method EnsureConversationForUser(user: Id) returns (c: nat)
      modifies this
      ensures View() == Ensured(old(View()), user)
      ensures c < |conversations| && c == ConversationOf(conversations, user)
    {
      ghost var at := ConversationOf(conversations, user);
      c := 0;
      while c < |conversations| && conversations[c].user != user
        invariant c <= |conversations| && forall k :: 0 <= k < c ==> conversations[k].user != user
      {
        c := c + 1;
      }
      assert c == at;
      if c == |conversations| {
        var message := Message(c, SYSTEM, None, WELCOME_TEXT, false, false, false);
        conversations := conversations + [Conversation(user, OPEN, None, None, 0, 0)];
        messages := messages + [message];
        conversations := conversations[c := conversations[c].(lastMessage := Some(|messages| - 1))];
        assert conversations[c].user == user;
        FirstOf(conversations, user, c);
      }
    }

    method CreateMessage(c: nat, actor: Actor, sender: Sender, p: Payload) returns (reply: Reply)
      requires c < |conversations|
      modifies this
      ensures Result(View(), reply) == Create(old(View()), c, actor, sender, p)
    {
      var kind := if p.messageType.Some? then p.messageType.value else if Present(p.mediaUrl) then "FILE" else "TEXT";
      var text := Given(p);
      if text == "" && !Present(p.mediaUrl) {
        return BadRequest;
      }
      if text == "" {
        text := if Present(p.originalName) then p.originalName.value else kind;
      }
      messages := messages + [Message(c, sender, Some(actor.id), text, false, false, false)];
      var row := conversations[c].(lastMessage := Some(|messages| - 1));
      if sender == ADMIN {
        row := row.(assignee := Some(actor.id), userUnread := row.userUnread + 1);
      }
      if sender == USER {
        row := row.(adminUnread := row.adminUnread + 1);
      }
      conversations := conversations[c := row.(status := if sender == USER then WAITING else OPEN)];
      return Done;
    }

    method SendUserMessage(actor: Actor, p: Payload) returns (reply: Reply)
      modifies this
      ensures Result(View(), reply) == Step(old(View()), SendUser(actor, p))
    {
      var c := EnsureConversationForUser(actor.id);
      reply := CreateMessage(c, actor, USER, p);
    }

    method SendAdminMessage(c: nat, actor: Actor, p: Payload) returns (reply: Reply)
      modifies this
      ensures Result(View(), reply) == Step(old(View()), SendAdmin(actor, c, p))
    {
      if !actor.staff {
        return Forbidden;
      }
      if c >= |conversations| {
        return NotFound;
      }
      reply := CreateMessage(c, actor, ADMIN, p);
    }

    method MarkSeen(c: nat, actor: Actor) returns (reply: Reply)
      modifies this
      ensures Result(View(), reply) == Step(old(View()), Event.MarkSeen(actor, c))
    {
      if c >= |conversations| {
        return NotFound;
      }
      if !actor.staff && conversations[c].user != actor.id {
        return Forbidden;
      }
      var sender := if actor.staff then USER else ADMIN;
      var i: nat := 0;
      var was := messages;
      while i < |messages|
        invariant i <= |messages| == |was| && conversations == old(conversations)
        invariant forall k :: i <= k < |was| ==> messages[k] == was[k]
        invariant forall k :: 0 <= k < i ==>
          messages[k] == if was[k].conversation == c && was[k].sender == sender then was[k].(seen := true) else was[k]
      {
        if messages[i].conversation == c && messages[i].sender == sender && !messages[i].seen {
          messages := messages[i := messages[i].(seen := true)];
        }
        i := i + 1;
      }
      conversations := conversations[c := if actor.staff then conversations[c].(adminUnread := 0) else conversations[c].(userUnread := 0)];
      assert messages == Seen(old(View()), c, actor.staff).messages;
      return Done;
    }

    method UpdateStatus(c: nat, actor: Actor, status: Status) returns (reply: Reply)
      modifies this
      ensures Result(View(), reply) == Step(old(View()), Event.UpdateStatus(actor, c, status))
    {
      if !actor.staff {
        return Forbidden;
      }
      if c >= |conversations| {
        return NotFound;
      }
      conversations := conversations[c := conversations[c].(status := status, assignee := Some(actor.id))];
      return Done;
    }

    method DeleteMessage(m: nat, actor: Actor) returns (reply: Reply)
      modifies this
      ensures Result(View(), reply) == Step(old(View()), Event.DeleteMessage(actor, m))
    {
      if m >= |messages| {
        return NotFound;
      }
      var c := messages[m].conversation;
      if c >= |conversations| {
        return NotFound;
      }
      if !actor.staff && conversations[c].user != actor.id {
        return Forbidden;
      }
      messages := messages[m := if actor.staff then messages[m].(deletedByAdmin := true) else messages[m].(deletedByUser := true)];
      return Done;
    }
  }
}
