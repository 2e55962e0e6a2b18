/**
 * The conversation rules of `components/Messages.tsx`: the canonical id of a
 * two-party conversation, choosing an existing or a transient conversation for a
 * target user, the send guard with its local prepend, and the other participant.
 */
module Messages {
  import opened Wrappers
  import opened Types
  import Text
  import Seqs
  import Firebase

  /** `[a, b].sort().join('_')`: the two uids around one underscore, the smaller first. */
  function CanonicalId(a: string, b: string): (id: string)
    ensures id == if Text.Less(b, a) then b + "_" + a else a + "_" + b
    ensures '_' !in a && '_' !in b ==> Firebase.PartsOf(id) == Text.SortPair(a, b)
  {
    var pair := Text.SortPair(a, b);
    assert Text.Join(pair, '_') == pair[0] + "_" + pair[1];
    if '_' !in a && '_' !in b then
      assert pair[0] in multiset{a, b} && pair[1] in multiset{a, b};
      Text.SplitJoin(pair, '_');
      Text.Join(pair, '_')
    else Text.Join(pair, '_')
  }

  /** Whoever starts the conversation, it gets the same id. */
  lemma CanonicalIdSymmetric(a: string, b: string)
    ensures CanonicalId(a, b) == CanonicalId(b, a)
  {
    Text.LessTrichotomy(a, b);
  }

  /** When neither uid contains `_`, the id splits back into the two uids, smaller first. */
  lemma CanonicalIdParts(a: string, b: string)
    requires '_' !in a && '_' !in b
    ensures Firebase.PartsOf(CanonicalId(a, b)) == Text.SortPair(a, b)
    ensures a in Firebase.PartsOf(CanonicalId(a, b)) && b in Firebase.PartsOf(CanonicalId(a, b))
  {
    var pair := Text.SortPair(a, b);
    assert pair[0] in multiset{a, b} && pair[1] in multiset{a, b};
    Text.SplitJoin(pair, '_');
    assert a in multiset(pair) && b in multiset(pair);
  }

  /**
   * Once a message has been stored under the canonical id of two distinct users whose
   * profiles resolve, the conversation is listed for either of them.
   */
  lemma CanonicalIdListedForBoth(keys: seq<string>, messages: map<string, seq<Message>>,
                                 users: seq<UserProfile>, a: string, b: string)
    requires a != b && '_' !in a && '_' !in b
    requires CanonicalId(a, b) in keys
    requires Firebase.FindByUid(users, a).Some? && Firebase.FindByUid(users, b).Some?
    ensures exists c :: c in Firebase.ConversationsFor(keys, messages, users, a) && c.id == CanonicalId(a, b)
    ensures exists c :: c in Firebase.ConversationsFor(keys, messages, users, b) && c.id == CanonicalId(a, b)
  {
    CanonicalIdParts(a, b);
    CanonicalIdSymmetric(a, b);
    ListedForMember(keys, messages, users, a, b);
    CanonicalIdParts(b, a);
    ListedForMember(keys, messages, users, b, a);
  }

  lemma ListedForMember(keys: seq<string>, messages: map<string, seq<Message>>,
                        users: seq<UserProfile>, me: string, other: string)
    requires me != other && '_' !in me && '_' !in other
    requires CanonicalId(me, other) in keys
    requires Firebase.PartsOf(CanonicalId(me, other)) == Text.SortPair(me, other)
    requires Firebase.FindByUid(users, me).Some? && Firebase.FindByUid(users, other).Some?
    ensures exists c :: c in Firebase.ConversationsFor(keys, messages, users, me) && c.id == CanonicalId(me, other)
  {
    var k := CanonicalId(me, other);
    var parts := Firebase.PartsOf(k);
    assert me in multiset(parts) && other in multiset(parts);
    var o := Firebase.OtherPart(k, me);
    assert parts[0] == other || parts[1] == other;
    assert o.Some?;
    assert o.value in multiset(parts);
    assert o.value == other;
    assert Firebase.Listable(k, messages, users, me);
    Firebase.ConversationsForMembership(keys, messages, users, me, k);
  }

  /** A conversation with oneself has no distinct other id and is never listed. */
  lemma SelfConversationNotListed(messages: map<string, seq<Message>>, users: seq<UserProfile>, a: string)
    ensures !Firebase.Listable(CanonicalId(a, a), messages, users, a)
  {
    var parts := Firebase.PartsOf(CanonicalId(a, a));
    if '_' !in a {
      Text.SplitJoin([a, a], '_');
      assert parts == [a, a];
    } else {
      assert forall i :: 0 <= i < |parts| ==> parts[i] != a;
    }
  }

  // ---------------------------------------------------------------- choosing a conversation

  /** `c.participants.some(p => p.uid === uid)`. */
  predicate HasParticipant(c: Conversation, uid: string)
  {
    exists i :: 0 <= i < |c.participants| && c.participants[i].uid == uid
  }

  /** The not-yet-stored conversation opened with `target`. */
  function Transient(me: UserProfile, target: UserProfile): (c: Conversation)
    ensures c.participants == [me, target] && c.lastMessage == None
    ensures c.id == CanonicalId(target.uid, me.uid)
  {
    CanonicalIdSymmetric(me.uid, target.uid);
    Conversation(CanonicalId(me.uid, target.uid), [me, target], None)
  }

  /**
   * `handleInitialTarget`: the first listed conversation having the target as a
   * participant; failing that, a transient one when the target's profile resolves;
   * failing that, the selection stays as it was.
   */
  function ChooseConversation(convs: seq<Conversation>, me: UserProfile, target: string,
                              targetProfile: Option<UserProfile>, selected: Option<Conversation>)
    : (r: Option<Conversation>)
    ensures (exists i :: 0 <= i < |convs| && HasParticipant(convs[i], target)) ==>
      r.Some? && HasParticipant(r.value, target) &&
      exists i :: 0 <= i < |convs| && convs[i] == r.value &&
        forall j :: 0 <= j < i ==> !HasParticipant(convs[j], target)
    ensures (forall i :: 0 <= i < |convs| ==> !HasParticipant(convs[i], target)) ==>
      r == if targetProfile.Some? then Some(Transient(me, targetProfile.value)) else selected
  {
    match Seqs.Find(convs, (c: Conversation) => HasParticipant(c, target))
    case Some(c) => Some(c)
    case None => if targetProfile.Some? then Some(Transient(me, targetProfile.value)) else selected
  }

  /** `!conversations.some(c => c.id === conv.id) ? [conv, ...conversations] : conversations`. */
  function AddIfNew(convs: seq<Conversation>, c: Conversation): (r: seq<Conversation>)
    ensures (exists i :: 0 <= i < |convs| && convs[i].id == c.id) ==> r == convs
    ensures (forall i :: 0 <= i < |convs| ==> convs[i].id != c.id) ==> r == [c] + convs
  {
    if exists i :: 0 <= i < |convs| && convs[i].id == c.id then convs else [c] + convs
  }

  /** The local prepend never lists an id twice, lists `c`'s id, and is idempotent. */
  lemma AddIfNewProperties(convs: seq<Conversation>, c: Conversation)
    ensures Firebase.DistinctIds(convs) ==> Firebase.DistinctIds(AddIfNew(convs, c))
    ensures exists i :: 0 <= i < |AddIfNew(convs, c)| && AddIfNew(convs, c)[i].id == c.id
    ensures AddIfNew(AddIfNew(convs, c), c) == AddIfNew(convs, c)
  {
    var r := AddIfNew(convs, c);
    if forall i :: 0 <= i < |convs| ==> convs[i].id != c.id {
      assert r[0].id == c.id;
    }
  }

  /** `participants.find(p => p.uid !== myUid)` on the selected conversation, if any. */
  function OtherParticipant(selected: Option<Conversation>, myUid: string): (r: Option<UserProfile>)
    ensures r.Some? ==> selected.Some? && r.value in selected.value.participants && r.value.uid != myUid
    ensures r.None? <==> (selected.None? ||
      forall i :: 0 <= i < |selected.value.participants| ==> selected.value.participants[i].uid == myUid)
    ensures r.Some? ==> exists i :: 0 <= i < |selected.value.participants| && selected.value.participants[i] == r.value &&
                          forall j :: 0 <= j < i ==> selected.value.participants[j].uid == myUid
  {
    if selected.None? then None
    else Seqs.Find(selected.value.participants, (p: UserProfile) => p.uid != myUid)
  }

  /** In a transient conversation with someone else, the other participant is the target. */
  lemma OtherParticipantOfTransient(me: UserProfile, target: UserProfile)
    requires target.uid != me.uid
    ensures OtherParticipant(Some(Transient(me, target)), me.uid) == Some(target)
  {
    var r := OtherParticipant(Some(Transient(me, target)), me.uid);
    assert [me, target][1].uid != me.uid;
    assert r.Some? && r.value in [me, target];
  }

  /** In a listed conversation, the other participant is the second one. */
  lemma OtherParticipantOfListed(key: string, log: seq<Message>, users: seq<UserProfile>, userId: string)
    requires Firebase.ConversationFor(key, log, users, userId).Some?
    ensures OtherParticipant(Firebase.ConversationFor(key, log, users, userId), userId)
         == Some(Firebase.ConversationFor(key, log, users, userId).value.participants[1])
  {
  }

  // ---------------------------------------------------------------- the view state

  /** The state of the messages page of the signed-in user `me`. */
  class MessagesState {
    const me: UserProfile
    var conversations: seq<Conversation>
    var selected: Option<Conversation>
    var newMessage: string

    constructor (me: UserProfile)
      ensures this.me == me && conversations == [] && selected == None && newMessage == ""
    {
      this.me := me;
      conversations := [];
      selected := None;
      newMessage := "";
    }

    /** The `getConversations(me.uid, setConversations)` subscription delivering its list. */
    method LoadConversations(store: Firebase.Backend)
      modifies this`conversations
      ensures conversations == store.GetConversations(me.uid)
    {
      conversations := store.GetConversations(me.uid);
    }

    /** Typing into the message box. */
    method SetNewMessage(text: string)
      modifies this`newMessage
      ensures newMessage == text
    {
      newMessage := text;
    }

    /** Selecting a conversation from the list. */
    method Select(c: Conversation)
      modifies this`selected
      ensures selected == Some(c)
    {
      selected := Some(c);
    }

    /**
     * The initial-target effect: with a (non-empty) target uid, select the existing
     * conversation with that user or open a transient one; without one, do nothing.
     */
    method HandleInitialTarget(store: Firebase.Backend, target: Option<string>)
      modifies this`selected
      ensures target.None? || target.value == "" ==> selected == old(selected)
      ensures target.Some? && target.value != "" ==>
        selected == ChooseConversation(conversations, me, target.value,
                                       store.GetUserProfile(target.value), old(selected))
    {
      if target.Some? && target.value != "" {
        var profile := store.GetUserProfile(target.value);
        selected := ChooseConversation(conversations, me, target.value, profile, selected);
      }
    }

    /**
     * `handleSendMessage`: with non-blank input and a selected conversation, sends the
     * input as typed, clears it, and lists the conversation locally if it is new;
     * otherwise nothing happens.
     */
    method HandleSendMessage(store: Firebase.Backend, msgId: string, now: int) returns (sent: bool)
      requires store.Valid()
      modifies this`newMessage, this`conversations
      modifies store`messages, store`conversationKeys, store`delivered
      ensures store.Valid()
      ensures sent <==> !Text.IsBlank(old(newMessage)) && selected.Some?
      ensures !sent ==>
        && newMessage == old(newMessage) && conversations == old(conversations)
        && store.messages == old(store.messages) && store.conversationKeys == old(store.conversationKeys)
        && store.delivered == old(store.delivered)
      ensures sent ==>
        var id := selected.value.id;
        && store.messages == old(store.messages)[id :=
             Firebase.LogOf(old(store.messages), id) + [Message(msgId, old(newMessage), me.uid, now)]]
        && store.conversationKeys ==
             (if id in old(store.messages) then old(store.conversationKeys) else old(store.conversationKeys) + [id])
        && store.delivered == old(store.delivered) +
             (if id in store.messageListeners
              then [Firebase.Delivery(store.messageListeners[id], Firebase.MessageList(store.messages[id]))]
              else [])
        && newMessage == ""
        && conversations == AddIfNew(old(conversations), selected.value)
    {
      if !Text.HasText(newMessage) || selected.None? {
        return false;
      }
      var c, text := selected.value, newMessage;
      ghost var before := conversations;
      store.SendMessage(c.id, me.uid, text, msgId, now);
      newMessage := "";
      conversations := AddIfNew(conversations, c);
      sent := true;
      assert selected.value == c && text == old(newMessage) && before == old(conversations);
    }

    /** `otherUser`: the participant of the selected conversation who is not me. */
    function OtherUser(): (r: Option<UserProfile>)
      reads this
      ensures r.Some? ==> selected.Some? && r.value in selected.value.participants && r.value.uid != me.uid
      ensures r.None? <==> (selected.None? ||
        forall i :: 0 <= i < |selected.value.participants| ==> selected.value.participants[i].uid == me.uid)
      ensures r.Some? ==> exists i :: 0 <= i < |selected.value.participants| && selected.value.participants[i] == r.value &&
                            forall j :: 0 <= j < i ==> selected.value.participants[j].uid == me.uid
    {
      OtherParticipant(selected, me.uid)
    }
  }
}
