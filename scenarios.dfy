/**
 * Client code exercising the backend the way the pages do, with the expected
 * outcomes stated as assertions checked against the operations' contracts.
 */
module Scenarios {
  import opened Wrappers
  import opened Types
  import opened Firebase
  import Messages
  import Text
  import Seqs

  /** After unsubscribing a conversation watcher, sending to that conversation does not call it. */
  method UnsubscribedWatcherIsNotCalled(store: Backend, id: string, watcher: CallbackId,
                                        senderId: string, msgId: string, now: int)
    requires store.Valid()
    modifies store
    ensures store.Valid()
    ensures store.delivered == old(store.delivered) + [Delivery(watcher, MessageList(LogOf(old(store.messages), id)))]
    ensures id !in store.messageListeners
  {
    store.GetMessages(id, watcher);
    store.UnsubscribeMessages(id);
    store.SendMessage(id, senderId, "ping", msgId, now);
  }

  /**
   * A founder and a funder sign up; the founder posts "Hello" and then messages the
   * funder "Hi there". The feed holds one post by the founder with role Founder, and
   * each of them sees one conversation whose last message is "Hi there".
   */
  method FounderMessagesFunder()
  {
    SeedEmails();
    var store, f, g := SignUpFounderAndFunder("f@x.com", "3", "g@x.com", "4");
    var users := store.users;
    var id := PostThenMessage(store, f);
    var msgs := store.messages;
    TwoUsersOneConversation(users, f, g, msgs, id);
    var forF := store.GetConversations("3");
    var forG := store.GetConversations("4");
    assert |forF| == 1 && forF[0].lastMessage.value.text == "Hi there";
    assert |forG| == 1 && forG[0].lastMessage.value.text == "Hi there";
  }

  /** Founder `f` posts "Hello" and then sends "Hi there" to the user with uid "4". */
  method PostThenMessage(store: Backend, f: UserProfile) returns (id: string)
    requires store.Valid() && store.posts == [] && store.messages == map[] && store.conversationKeys == []
    requires f.uid == "3" && f.role == Founder
    modifies store
    ensures store.Valid() && store.users == old(store.users)
    ensures |store.posts| == 1 && store.posts[0].authorId == "3" && store.posts[0].author.role == Founder
    ensures id == Text.Join(["3", "4"], '_')
    ensures store.conversationKeys == [id]
    ensures LogOf(store.messages, id) == [Message("m1", "Hi there", "3", 2000)]
  {
    store.CreatePost(f, "Hello", "p1", 1000);
    id := Messages.CanonicalId("3", "4");
    assert Text.SortPair("3", "4") == ["3", "4"];
    store.SendMessage(id, "3", "Hi there", "m1", 2000);
  }

  /** A fresh store in which a founder and then a funder have signed up with new, different emails. */
  method SignUpFounderAndFunder(fEmail: string, fUid: string, gEmail: string, gUid: string)
    returns (store: Backend, f: UserProfile, g: UserProfile)
    requires fEmail != gEmail && !EmailTaken(SeedUsers(), fEmail) && !EmailTaken(SeedUsers(), gEmail)
    ensures fresh(store) && store.Valid()
    ensures store.users == SeedUsers() + [f, g]
    ensures f == NewUser(fUid, fEmail, Founder) && g == NewUser(gUid, gEmail, Funder)
    ensures store.posts == [] && store.messages == map[] && store.conversationKeys == []
  {
    store := new Backend();
    assert store.users == SeedUsers();
    assert !EmailTaken(store.users, fEmail);
    var rf := store.SignUp(fEmail, "secret", Founder, fUid);
    f := NewUser(fUid, fEmail, Founder);
    assert store.users == SeedUsers() + [f];
    assert store.Valid();
    EmailStillFree(SeedUsers(), f, gEmail);
    var rg := store.SignUp(gEmail, "secret", Funder, gUid);
    g := NewUser(gUid, gEmail, Funder);
    assert store.users == SeedUsers() + [f] + [g];
    assert SeedUsers() + [f] + [g] == SeedUsers() + [f, g];
  }

  /** Adding a profile with another email leaves an untaken email untaken. */
  lemma EmailStillFree(users: seq<UserProfile>, u: UserProfile, email: string)
    requires !EmailTaken(users, email) && u.email != email
    ensures !EmailTaken(users + [u], email)
  {
    assert forall i :: 0 <= i < |users| ==> (users + [u])[i] == users[i];
  }

  /** With one stored conversation "3_4", users "3" and "4" each list it, with the other as participant. */
  lemma TwoUsersOneConversation(users: seq<UserProfile>, f: UserProfile, g: UserProfile,
                                messages: map<string, seq<Message>>, id: string)
    requires users == SeedUsers() + [f, g] && f.uid == "3" && g.uid == "4"
    requires id == Text.Join(["3", "4"], '_')
    ensures ConversationsFor([id], messages, users, "3") == [Conversation(id, [f, g], Last(LogOf(messages, id)))]
    ensures ConversationsFor([id], messages, users, "4") == [Conversation(id, [g, f], Last(LogOf(messages, id)))]
  {
    Text.SplitJoin(["3", "4"], '_');
    UidsResolve(users, f, g);
    OnlyConversation(users, messages, id, "3", "4", f, g);
    OnlyConversation(users, messages, id, "4", "3", g, f);
  }

  lemma UidsResolve(users: seq<UserProfile>, f: UserProfile, g: UserProfile)
    requires users == SeedUsers() + [f, g] && f.uid == "3" && g.uid == "4"
    ensures FindByUid(users, "3") == Some(f) && FindByUid(users, "4") == Some(g)
  {
    var seed := SeedUsers();
    assert users[0] == seed[0] && users[1] == seed[1] && users[2] == f && users[3] == g;
    assert users[0].uid[0] == '1' && users[1].uid[0] == '2';
    FoundAt(users, "3", 2);
    FoundAt(users, "4", 3);
  }

  /** A lookup finds the profile at `k` when it has the uid and no earlier profile does. */
  lemma FoundAt(users: seq<UserProfile>, uid: string, k: int)
    requires 0 <= k < |users| && users[k].uid == uid
    requires forall j :: 0 <= j < k ==> users[j].uid != uid
    ensures FindByUid(users, uid) == Some(users[k])
  {
    var r := FindByUid(users, uid);
    var i :| 0 <= i < |users| && users[i] == r.value && forall j :: 0 <= j < i ==> users[j].uid != uid;
    assert i == k;
  }

  lemma SeedEmails()
    ensures |SeedUsers()| == 2
    ensures SeedUsers()[0].uid == "1" && SeedUsers()[1].uid == "2"
    ensures !EmailTaken(SeedUsers(), "f@x.com") && !EmailTaken(SeedUsers(), "g@x.com")
  {
  }

  /** A single stored conversation key between two resolvable users lists exactly one conversation. */
  lemma OnlyConversation(users: seq<UserProfile>, messages: map<string, seq<Message>>, id: string,
                         me: string, other: string, meProfile: UserProfile, otherProfile: UserProfile)
    requires PartsOf(id) == [me, other] || PartsOf(id) == [other, me]
    requires me != other
    requires FindByUid(users, me) == Some(meProfile) && FindByUid(users, other) == Some(otherProfile)
    ensures ConversationsFor([id], messages, users, me) ==
      [Conversation(id, [meProfile, otherProfile], Last(LogOf(messages, id)))]
  {
    var o := OtherPart(id, me);
    assert PartsOf(id)[0] != me || PartsOf(id)[1] != me;
    assert o.Some? && o.value in PartsOf(id);
    assert o.value == other;
    var c := Conversation(id, [meProfile, otherProfile], Last(LogOf(messages, id)));
    assert Listable(id, messages, users, me);
    assert ConversationFor(id, LogOf(messages, id), users, me) == Some(c);
    assert Listed([id], messages, users, me) == [c];
    assert Seqs.SortByKey([c], LastTime) == [c];
  }
}
