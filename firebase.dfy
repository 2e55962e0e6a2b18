/**
 * The in-memory mock backend of `services/firebase.ts`: the user table, the
 * current-user slot, the post list, the per-conversation message logs and the
 * listener slots, as one object whose methods update them in place.
 *
 * Callbacks are identified by a `CallbackId`. Every invocation of a callback is
 * recorded, in order, in `delivered`; deliveries the source defers with
 * `setTimeout` are recorded immediately. Clock readings and fresh ids
 * (`Date.now()`, `new Date()`) are parameters.
 */
module Firebase {
  import opened Wrappers
  import opened Types
  import Text
  import Seqs

  type CallbackId = nat

  /** A listener slot: the no-op `() => {}` or a registered callback. */
  datatype Listener = NoOp | Callback(id: CallbackId)

  /** What a callback is called with. */
  datatype Payload =
    | AuthState(user: Option<string>)      // `{ uid }` or `null`
    | PostList(posts: seq<Post>)
    | MessageList(messages: seq<Message>)

  /** One invocation of a callback. */
  datatype Delivery = Delivery(to: CallbackId, payload: Payload)

  /** Calling the listener in slot `l`: the no-op listener leaves no trace. */
  function Notify(l: Listener, p: Payload): (r: seq<Delivery>)
    ensures l.NoOp? <==> r == []
    ensures l.Callback? ==> r == [Delivery(l.id, p)]
  {
    if l.Callback? then [Delivery(l.id, p)] else []
  }

  const EmailInUse := "Authentication error: Email already in use."
  const UserNotFound := "Authentication error: User not found."
  const GoogleUserNotFound := "Mock Google user not found."
  const AppleUserNotFound := "Mock Apple user not found."
  const GoogleEmail := "founder@test.com"
  const AppleEmail := "funder@test.com"

  /** The seeded founder, uid 1, reached by Google sign-in. */
  function SeedFounder(): (u: UserProfile)
    ensures u.uid == "1" && u.role == Founder && u.email == GoogleEmail
  {
    UserProfile("1", "founder@test.com", Founder, "Alex Founder", "https://picsum.photos/seed/1/200",
      Some("Innovate AI"), Some("AI-powered solutions for modern businesses."), Some("AI"), Some("Seed"),
      Some("#"), Some("Seeking connections with enterprise clients and strategic partners."),
      None, None, None, None)
  }

  /** The seeded funder, uid 2, reached by Apple sign-in. */
  function SeedFunder(): (u: UserProfile)
    ensures u.uid == "2" && u.role == Funder && u.email == AppleEmail
  {
    UserProfile("2", "funder@test.com", Funder, "Bella Funder", "https://picsum.photos/seed/2/200",
      None, None, None, None, None, None,
      Some("Capital Ventures"), Some("Investing in disruptive, early-stage SaaS and FinTech companies."),
      Some("Seed"), Some("Extensive mentorship, operational support, and access to our network."))
  }

  /** The two profiles the mock database starts with. */
  function SeedUsers(): (r: seq<UserProfile>)
    ensures |r| == 2 && DistinctEmails(r)
    ensures r[0].uid == "1" && r[0].role == Founder && r[0].email == GoogleEmail
    ensures r[1].uid == "2" && r[1].role == Funder && r[1].email == AppleEmail
  {
    assert GoogleEmail[1] != AppleEmail[1];
    [SeedFounder(), SeedFunder()]
  }

  // ---------------------------------------------------------------- user table

  /** Some profile in the table has this email. */
  predicate EmailTaken(users: seq<UserProfile>, email: string)
  {
    exists i :: 0 <= i < |users| && users[i].email == email
  }

  /** No two profiles share an email. */
  predicate DistinctEmails(users: seq<UserProfile>)
  {
    forall i, j :: 0 <= i < j < |users| ==> users[i].email != users[j].email
  }

  /** `mockUsers.find(u => u.email === email)`. */
  function FindByEmail(users: seq<UserProfile>, email: string): (r: Option<UserProfile>)
    ensures r.None? <==> !EmailTaken(users, email)
    ensures r.Some? ==> r.value.email == email && r.value in users
    ensures r.Some? ==> exists i :: 0 <= i < |users| && users[i] == r.value &&
                          forall j :: 0 <= j < i ==> users[j].email != email
  {
    Seqs.Find(users, (u: UserProfile) => u.email == email)
  }

  /** `mockUsers.find(u => u.uid === uid)`. */
  function FindByUid(users: seq<UserProfile>, uid: string): (r: Option<UserProfile>)
    ensures r.None? <==> forall i :: 0 <= i < |users| ==> users[i].uid != uid
    ensures r.Some? ==> r.value.uid == uid && r.value in users
    ensures r.Some? ==> exists i :: 0 <= i < |users| && users[i] == r.value &&
                          forall j :: 0 <= j < i ==> users[j].uid != uid
  {
    Seqs.Find(users, (u: UserProfile) => u.uid == uid)
  }

  /** The profile `signUp` creates. */
  function NewUser(uid: string, email: string, role: Role): (u: UserProfile)
    ensures u.uid == uid && u.email == email && u.role == role && u.fullName == "New User"
    ensures u.photoURL == "https://picsum.photos/seed/" + uid + "/200"
    ensures forall d :: u.Get(d).None?
  {
    UserProfile(uid, email, role, "New User", "https://picsum.photos/seed/" + uid + "/200",
      None, None, None, None, None, None, None, None, None, None)
  }

  /** `mockUsers.map(u => u.uid === uid ? { ...u, ...patch } : u)`. */
  function PatchUsers(users: seq<UserProfile>, uid: string, patch: ProfilePatch): (r: seq<UserProfile>)
    ensures |r| == |users|
    ensures forall i :: 0 <= i < |users| && users[i].uid == uid ==> r[i] == ApplyPatch(users[i], patch)
    ensures forall i :: 0 <= i < |users| && users[i].uid != uid ==> r[i] == users[i]
  {
    if users == [] then []
    else [if users[0].uid == uid then ApplyPatch(users[0], patch) else users[0]]
         + PatchUsers(users[1..], uid, patch)
  }

  /** Updating a uid no profile has changes nothing. */
  lemma PatchUnknownUid(users: seq<UserProfile>, uid: string, patch: ProfilePatch)
    requires forall i :: 0 <= i < |users| ==> users[i].uid != uid
    ensures PatchUsers(users, uid, patch) == users
  {
  }

  /** A sign-up with a fresh email keeps the emails of the table pairwise distinct. */
  lemma AppendKeepsEmailsDistinct(users: seq<UserProfile>, u: UserProfile)
    requires DistinctEmails(users) && !EmailTaken(users, u.email)
    ensures DistinctEmails(users + [u])
  {
  }

  /** The `{ uid }` an auth listener is called with, or `null`. */
  function UidOf(u: Option<UserProfile>): (r: Option<string>)
    ensures r.Some? <==> u.Some?
    ensures u.Some? ==> r.value == u.value.uid
  {
    if u.Some? then Some(u.value.uid) else None
  }

  // ---------------------------------------------------------------- posts

  /** The post `createPost` builds: the author's display fields are copied now. */
  function MakePost(author: UserProfile, content: string, id: string, now: int): (p: Post)
    ensures p.authorId == author.uid && p.content == content && p.timestamp == now
    ensures p.author == AuthorSnapshot(author.fullName, author.photoURL, author.role)
  {
    Post(id, author.uid, AuthorSnapshot(author.fullName, author.photoURL, author.role), content, now)
  }

  // ---------------------------------------------------------------- conversations

  /** `mockMessages[k] || []`. */
  function LogOf(messages: map<string, seq<Message>>, k: string): seq<Message>
  {
    if k in messages then messages[k] else []
  }

  /** `messages.length > 0 ? messages.slice(-1)[0] : null`. */
  function Last(log: seq<Message>): (r: Option<Message>)
    ensures r.None? <==> log == []
    ensures r.Some? ==> r.value == log[|log| - 1]
  {
    if |log| > 0 then Some(log[|log| - 1]) else None
  }

  /** The `_`-separated participant ids of a conversation key. */
  function PartsOf(key: string): seq<string>
  {
    Text.Split(key, '_')
  }

  /** The first part of the key that is not `userId` (`find(id => id !== userId)`). */
  function OtherPart(key: string, userId: string): (r: Option<string>)
    ensures r.None? <==> forall i :: 0 <= i < |PartsOf(key)| ==> PartsOf(key)[i] == userId
    ensures r.Some? ==> r.value in PartsOf(key) && r.value != userId
    ensures r.Some? ==> exists i :: 0 <= i < |PartsOf(key)| && PartsOf(key)[i] == r.value &&
                          forall j :: 0 <= j < i ==> PartsOf(key)[j] == userId
  {
    Seqs.Find(PartsOf(key), (id: string) => id != userId)
  }

  /**
   * The `map` step of `getConversations` for one key: participants `[self, other]`,
   * or nothing when either profile does not resolve or there is no other id.
   */
  function ConversationFor(key: string, log: seq<Message>, users: seq<UserProfile>, userId: string)
    : (r: Option<Conversation>)
    ensures r.Some? <==>
      OtherPart(key, userId).Some? && FindByUid(users, userId).Some? &&
      FindByUid(users, OtherPart(key, userId).value).Some?
    ensures r.Some? ==>
      && r.value.id == key
      && r.value.participants == [FindByUid(users, userId).value, FindByUid(users, OtherPart(key, userId).value).value]
      && r.value.participants[0].uid == userId
      && r.value.participants[1].uid != userId
      && r.value.lastMessage == Last(log)
  {
    match OtherPart(key, userId)
    case None => None
    case Some(other) =>
      match (FindByUid(users, userId), FindByUid(users, other))
      case (Some(me), Some(them)) => Some(Conversation(key, [me, them], Last(log)))
      case _ => None
  }

  /** The key names `userId` among its parts and the conversation resolves. */
  predicate Listable(key: string, messages: map<string, seq<Message>>, users: seq<UserProfile>, userId: string)
  {
    userId in PartsOf(key) && ConversationFor(key, LogOf(messages, key), users, userId).Some?
  }

  /** No two conversations in the list share an id. */
  predicate DistinctIds(convs: seq<Conversation>)
  {
    forall i, j :: 0 <= i < j < |convs| ==> convs[i].id != convs[j].id
  }

  /** The `filter`/`map`/`filter` chain of `getConversations`, in key order. */
  function Listed(keys: seq<string>, messages: map<string, seq<Message>>, users: seq<UserProfile>, userId: string)
    : (r: seq<Conversation>)
    ensures forall c :: c in r ==>
      c.id in keys && Listable(c.id, messages, users, userId) &&
      ConversationFor(c.id, LogOf(messages, c.id), users, userId) == Some(c)
    ensures forall k :: k in keys && Listable(k, messages, users, userId) ==>
      ConversationFor(k, LogOf(messages, k), users, userId).value in r
  {
    if keys == [] then []
    else
      var k := keys[0];
      var rest := Listed(keys[1..], messages, users, userId);
      assert forall k' :: k' in keys ==> k' == k || k' in keys[1..];
      if Listable(k, messages, users, userId) then
        [ConversationFor(k, LogOf(messages, k), users, userId).value] + rest
      else rest
  }

  /** Distinct stored keys (the keys of one object) give each listed conversation once. */
  lemma {:induction false} ListedOnce(keys: seq<string>, messages: map<string, seq<Message>>,
                                      users: seq<UserProfile>, userId: string)
    requires Seqs.Distinct(keys)
    ensures DistinctIds(Listed(keys, messages, users, userId))
  {
    if keys != [] {
      var k, tail := keys[0], keys[1..];
      assert forall i :: 0 <= i < |tail| ==> tail[i] == keys[i + 1];
      ListedOnce(tail, messages, users, userId);
      var rest := Listed(tail, messages, users, userId);
      if Listable(k, messages, users, userId) {
        var c := ConversationFor(k, LogOf(messages, k), users, userId).value;
        assert c.id == k && k !in tail;
        assert forall x :: x in rest ==> x.id in tail;
        PrependKeepsDistinctIds(c, rest);
        assert Listed(keys, messages, users, userId) == [c] + rest;
      }
    }
  }

  /** A conversation whose id is new can go in front without repeating an id. */
  lemma PrependKeepsDistinctIds(c: Conversation, rest: seq<Conversation>)
    requires DistinctIds(rest) && forall x :: x in rest ==> x.id != c.id
    ensures DistinctIds([c] + rest)
  {
    var r := [c] + rest;
    forall i, j | 0 <= i < j < |r| ensures r[i].id != r[j].id {
      assert r[j] == rest[j - 1] && rest[j - 1] in rest;
      if i > 0 {
        assert r[i] == rest[i - 1];
      }
    }
  }

  /** `lastMessage?.timestamp.getTime() || 0`. */
  function LastTime(c: Conversation): int
  {
    if c.lastMessage.Some? then c.lastMessage.value.timestamp else 0
  }

  /**
   * What `getConversations(userId, cb)` hands to `cb`: the listable conversations,
   * newest last message first, an empty conversation counting as time 0.
   */
  function ConversationsFor(keys: seq<string>, messages: map<string, seq<Message>>, users: seq<UserProfile>,
                            userId: string): (r: seq<Conversation>)
    ensures Seqs.SortedDesc(r, LastTime)
    ensures multiset(r) == multiset(Listed(keys, messages, users, userId))
    ensures Seqs.Distinct(keys) ==> DistinctIds(r)
  {
    var listed := Listed(keys, messages, users, userId);
    if Seqs.Distinct(keys) then
      ListedOnce(keys, messages, users, userId);
      PermutationKeepsDistinctIds(listed, Seqs.SortByKey(listed, LastTime));
      Seqs.SortByKey(listed, LastTime)
    else
      Seqs.SortByKey(listed, LastTime)
  }

  /** A list with distinct ids holds each conversation at most once. */
  lemma {:induction false} AtMostOnce(convs: seq<Conversation>, x: Conversation)
    requires DistinctIds(convs)
    ensures multiset(convs)[x] <= 1
  {
    if convs != [] {
      var rest := convs[1..];
      assert forall k :: 0 <= k < |rest| ==> rest[k] == convs[k + 1];
      AtMostOnce(rest, x);
      assert convs == [convs[0]] + rest;
      if convs[0] == x {
        assert x !in rest;
      }
    }
  }

  /** Reordering a list keeps its ids distinct. */
  lemma PermutationKeepsDistinctIds(a: seq<Conversation>, b: seq<Conversation>)
    requires DistinctIds(a) && multiset(a) == multiset(b)
    ensures DistinctIds(b)
  {
    forall i, j | 0 <= i < j < |b| ensures b[i].id != b[j].id {
      AtMostOnce(a, b[i]);
      if b[i] == b[j] {
        RepeatedTwice(b, i, j);
      }
      assert b[i] in multiset(a) && b[j] in multiset(a);
      var p :| 0 <= p < |a| && a[p] == b[i];
      var q :| 0 <= q < |a| && a[q] == b[j];
    }
  }

  /** An element at two positions occurs at least twice. */
  lemma RepeatedTwice(s: seq<Conversation>, i: int, j: int)
    requires 0 <= i < j < |s| && s[i] == s[j]
    ensures multiset(s)[s[i]] >= 2
  {
    assert s == s[..j] + s[j..];
    assert s[i] in s[..j] && s[j] in s[j..];
  }

  /** A key is listed for `userId` exactly when it is stored, names `userId`, and resolves. */
  lemma ConversationsForMembership(keys: seq<string>, messages: map<string, seq<Message>>,
                                   users: seq<UserProfile>, userId: string, k: string)
    ensures (exists c :: c in ConversationsFor(keys, messages, users, userId) && c.id == k)
        <==> k in keys && Listable(k, messages, users, userId)
  {
    var r := ConversationsFor(keys, messages, users, userId);
    var l := Listed(keys, messages, users, userId);
    assert forall c :: c in r <==> c in multiset(l);
    if k in keys && Listable(k, messages, users, userId) {
      var c := ConversationFor(k, LogOf(messages, k), users, userId).value;
      assert c in l && c.id == k;
    }
  }

  // ---------------------------------------------------------------- the store

  class Backend {
    var users: seq<UserProfile>
    var currentUser: Option<UserProfile>
    var posts: seq<Post>
    /** `mockMessages`: one log per conversation id. */
    var messages: map<string, seq<Message>>
    /** The keys of `mockMessages` in insertion order (the order `Object.keys` lists them). */
    var conversationKeys: seq<string>
    var authListener: Listener
    var postListener: Listener
    var messageListeners: map<string, CallbackId>
    /** Every callback invocation so far, oldest first. */
    var delivered: seq<Delivery>

    /** The key order lists each stored log once, and a stored log is never empty. */
    ghost predicate Valid()
      reads this
    {
      && Seqs.Distinct(conversationKeys)
      && (forall k :: k in messages <==> k in conversationKeys)
      && (forall k :: k in messages ==> messages[k] != [])
    }

    constructor ()
      ensures Valid()
      ensures users == SeedUsers() && currentUser == None && posts == []
      ensures messages == map[] && conversationKeys == []
      ensures authListener == NoOp && postListener == NoOp && messageListeners == map[]
      ensures delivered == []
    {
      users := SeedUsers();
      currentUser := None;
      posts := [];
      messages := map[];
      conversationKeys := [];
      authListener := NoOp;
      postListener := NoOp;
      messageListeners := map[];
      delivered := [];
    }

    /** `onAuthStateChanged(cb)`: replaces the listener and calls it with the current state. */
    method OnAuthStateChanged(callback: CallbackId)
      modifies this`authListener, this`delivered
      ensures authListener == Callback(callback)
      ensures delivered == old(delivered) + [Delivery(callback, AuthState(UidOf(currentUser)))]
    {
      authListener := Callback(callback);
      delivered := delivered + [Delivery(callback, AuthState(UidOf(currentUser)))];
    }

    /** The function `onAuthStateChanged` returns: installs the no-op listener. */
    method UnsubscribeAuth()
      modifies this`authListener
      ensures authListener == NoOp
    {
      authListener := NoOp;
    }

    /**
     * `signUp(email, password, role)`: rejects a taken email and changes nothing;
     * otherwise appends the new profile, signs it in and tells the auth listener.
     * `uid` stands for `String(Date.now())`.
     */
    method SignUp(email: string, password: string, role: Role, uid: string) returns (r: Result<UserProfile, string>)
      modifies this`users, this`currentUser, this`delivered
      ensures EmailTaken(old(users), email) ==>
        r == Failure(EmailInUse) && users == old(users) && currentUser == old(currentUser) && delivered == old(delivered)
      ensures !EmailTaken(old(users), email) ==>
        && r == Success(NewUser(uid, email, role))
        && users == old(users) + [NewUser(uid, email, role)]
        && currentUser == Some(NewUser(uid, email, role))
        && delivered == old(delivered) + Notify(authListener, AuthState(Some(uid)))
      ensures DistinctEmails(old(users)) ==> DistinctEmails(users)
    {
      if FindByEmail(users, email).Some? {
        return Failure(EmailInUse);
      }
      var u := NewUser(uid, email, role);
      if DistinctEmails(users) {
        AppendKeepsEmailsDistinct(users, u);
      }
      users := users + [u];
      currentUser := Some(u);
      delivered := delivered + Notify(authListener, AuthState(Some(uid)));
      r := Success(u);
    }

    /** Signs in the first profile with this email; otherwise fails with `notFound` and changes nothing. */
    method SignInByEmail(email: string, notFound: string) returns (r: Result<UserProfile, string>)
      modifies this`currentUser, this`delivered
      ensures FindByEmail(users, email).None? ==>
        r == Failure(notFound) && currentUser == old(currentUser) && delivered == old(delivered)
      ensures FindByEmail(users, email).Some? ==>
        && r == Success(FindByEmail(users, email).value)
        && currentUser == FindByEmail(users, email)
        && delivered == old(delivered) + Notify(authListener, AuthState(Some(r.value.uid)))
    {
      match FindByEmail(users, email)
      case None =>
        r := Failure(notFound);
      case Some(u) =>
        currentUser := Some(u);
        delivered := delivered + Notify(authListener, AuthState(Some(u.uid)));
        r := Success(u);
    }

    /** `signIn(email, password)`: the password is ignored. */
    method SignIn(email: string, password: string) returns (r: Result<UserProfile, string>)
      modifies this`currentUser, this`delivered
      ensures FindByEmail(users, email).None? ==>
        r == Failure(UserNotFound) && currentUser == old(currentUser) && delivered == old(delivered)
      ensures FindByEmail(users, email).Some? ==>
        && r == Success(FindByEmail(users, email).value)
        && currentUser == FindByEmail(users, email)
        && delivered == old(delivered) + Notify(authListener, AuthState(Some(r.value.uid)))
    {
      r := SignInByEmail(email, UserNotFound);
    }

    /** `signInWithGoogle()`: signs in the profile with the fixed founder email. */
    method SignInWithGoogle() returns (r: Result<UserProfile, string>)
      modifies this`currentUser, this`delivered
      ensures FindByEmail(users, GoogleEmail).None? ==>
        r == Failure(GoogleUserNotFound) && currentUser == old(currentUser) && delivered == old(delivered)
      ensures FindByEmail(users, GoogleEmail).Some? ==>
        && r == Success(FindByEmail(users, GoogleEmail).value)
        && currentUser == FindByEmail(users, GoogleEmail)
        && delivered == old(delivered) + Notify(authListener, AuthState(Some(r.value.uid)))
    {
      r := SignInByEmail(GoogleEmail, GoogleUserNotFound);
    }

    /** `signInWithApple()`: signs in the profile with the fixed funder email. */
    method SignInWithApple() returns (r: Result<UserProfile, string>)
      modifies this`currentUser, this`delivered
      ensures FindByEmail(users, AppleEmail).None? ==>
        r == Failure(AppleUserNotFound) && currentUser == old(currentUser) && delivered == old(delivered)
      ensures FindByEmail(users, AppleEmail).Some? ==>
        && r == Success(FindByEmail(users, AppleEmail).value)
        && currentUser == FindByEmail(users, AppleEmail)
        && delivered == old(delivered) + Notify(authListener, AuthState(Some(r.value.uid)))
    {
      r := SignInByEmail(AppleEmail, AppleUserNotFound);
    }

    /** `signOut()`: clears the current user and tells the auth listener `null`. */
    method SignOut()
      modifies this`currentUser, this`delivered
      ensures currentUser == None
      ensures delivered == old(delivered) + Notify(authListener, AuthState(None))
    {
      currentUser := None;
      delivered := delivered + Notify(authListener, AuthState(None));
    }

    /** `getUserProfile(uid)`: the first profile with this uid, or `null`. */
    function GetUserProfile(uid: string): (r: Option<UserProfile>)
      reads this
      ensures r.None? <==> forall i :: 0 <= i < |users| ==> users[i].uid != uid
      ensures r.Some? ==> r.value in users && r.value.uid == uid
      ensures r.Some? ==> exists i :: 0 <= i < |users| && users[i] == r.value &&
                            forall j :: 0 <= j < i ==> users[j].uid != uid
    {
      FindByUid(users, uid)
    }

    /**
     * `updateUserProfile(uid, patch)`: merges the patch into every profile with this uid
     * and into the current user when its uid matches; an unknown uid changes nothing.
     */
    method UpdateUserProfile(uid: string, patch: ProfilePatch)
      modifies this`users, this`currentUser
      ensures users == PatchUsers(old(users), uid, patch)
      ensures currentUser ==
        if old(currentUser).Some? && old(currentUser).value.uid == uid
        then Some(ApplyPatch(old(currentUser).value, patch)) else old(currentUser)
    {
      users := PatchUsers(users, uid, patch);
      if currentUser.Some? && currentUser.value.uid == uid {
        currentUser := Some(ApplyPatch(currentUser.value, patch));
      }
    }

    /** `getAllUsers()`: a copy of the table. */
    function GetAllUsers(): (r: seq<UserProfile>)
      reads this
      ensures |r| == |users| && forall i :: 0 <= i < |r| ==> r[i] == users[i]
    {
      users
    }

    /**
     * `createPost(author, content)`: the new post goes first and the post listener
     * gets the whole list. The content is not checked. `id` and `now` stand for
     * `p${Date.now()}` and `new Date()`.
     */
    method CreatePost(author: UserProfile, content: string, id: string, now: int)
      modifies this`posts, this`delivered
      ensures posts == [MakePost(author, content, id, now)] + old(posts)
      ensures delivered == old(delivered) + Notify(postListener, PostList(posts))
    {
      posts := [MakePost(author, content, id, now)] + posts;
      delivered := delivered + Notify(postListener, PostList(posts));
    }

    /** `getPosts(cb)`: replaces the post listener and calls `cb` with the current list. */
    method GetPosts(callback: CallbackId)
      modifies this`postListener, this`delivered
      ensures postListener == Callback(callback)
      ensures delivered == old(delivered) + [Delivery(callback, PostList(posts))]
    {
      postListener := Callback(callback);
      delivered := delivered + [Delivery(callback, PostList(posts))];
    }

    /** The function `getPosts` returns: installs the no-op listener. */
    method UnsubscribePosts()
      modifies this`postListener
      ensures postListener == NoOp
    {
      postListener := NoOp;
    }

    /** `getConversations(userId, cb)`: the list `cb` receives. */
    function GetConversations(userId: string): (r: seq<Conversation>)
      reads this
      ensures Seqs.SortedDesc(r, LastTime)
      ensures multiset(r) == multiset(Listed(conversationKeys, messages, users, userId))
      ensures Valid() ==> DistinctIds(r)
    {
      ConversationsFor(conversationKeys, messages, users, userId)
    }

    /** `getMessages(id, cb)`: registers `cb` for this id only and calls it with the log. */
    method GetMessages(conversationId: string, callback: CallbackId)
      modifies this`messageListeners, this`delivered
      ensures messageListeners == old(messageListeners)[conversationId := callback]
      ensures delivered == old(delivered) + [Delivery(callback, MessageList(LogOf(messages, conversationId)))]
    {
      messageListeners := messageListeners[conversationId := callback];
      delivered := delivered + [Delivery(callback, MessageList(LogOf(messages, conversationId)))];
    }

    /** The function `getMessages` returns: deletes the listener registered under this id. */
    method UnsubscribeMessages(conversationId: string)
      modifies this`messageListeners
      ensures messageListeners == old(messageListeners) - {conversationId}
    {
      messageListeners := messageListeners - {conversationId};
    }

    /**
     * `sendMessage(id, senderId, text)`: creates the log on first use, appends the
     * message at its end, and calls the listener registered under this id, if any.
     * The text is not checked. `msgId` and `now` stand for `m${Date.now()}` and `new Date()`.
     */
    method SendMessage(conversationId: string, senderId: string, text: string, msgId: string, now: int)
      requires Valid()
      modifies this`messages, this`conversationKeys, this`delivered
      ensures Valid()
      ensures messages == old(messages)[conversationId :=
                LogOf(old(messages), conversationId) + [Message(msgId, text, senderId, now)]]
      ensures conversationKeys ==
        if conversationId in old(messages) then old(conversationKeys) else old(conversationKeys) + [conversationId]
      ensures delivered == old(delivered) +
        if conversationId in messageListeners
        then [Delivery(messageListeners[conversationId], MessageList(messages[conversationId]))]
        else []
    {
      var m := Message(msgId, text, senderId, now);
      if conversationId !in messages {
        conversationKeys := conversationKeys + [conversationId];
      }
      messages := messages[conversationId := LogOf(messages, conversationId) + [m]];
      if conversationId in messageListeners {
        delivered := delivered + [Delivery(messageListeners[conversationId], MessageList(messages[conversationId]))];
      }
    }
  }
}
