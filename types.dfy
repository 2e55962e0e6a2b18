/** The records of `types.ts`: profiles, posts, messages, conversations and personal events. */
module Types {
  import opened Wrappers

  datatype Role = Founder | Funder

  /** The optional, role-dependent profile fields. */
  datatype Detail =
    | StartupName | OneLinePitch | Industry | FundingStage | PitchDeckUrl | MyAsk
    | FirmName | InvestmentThesis | PreferredStage | WhatIOffer

  /** A user profile; an optional field that is absent (`undefined`) is `None`. */
  datatype UserProfile = UserProfile(
    uid: string,
    email: string,
    role: Role,
    fullName: string,
    photoURL: string,
    startupName: Option<string>,
    oneLinePitch: Option<string>,
    industry: Option<string>,
    fundingStage: Option<string>,
    pitchDeckUrl: Option<string>,
    myAsk: Option<string>,
    firmName: Option<string>,
    investmentThesis: Option<string>,
    preferredStage: Option<string>,
    whatIOffer: Option<string>)
  {
    /** The optional field named by `d`. */
    function Get(d: Detail): Option<string>
    {
      match d
      case StartupName => startupName
      case OneLinePitch => oneLinePitch
      case Industry => industry
      case FundingStage => fundingStage
      case PitchDeckUrl => pitchDeckUrl
      case MyAsk => myAsk
      case FirmName => firmName
      case InvestmentThesis => investmentThesis
      case PreferredStage => preferredStage
      case WhatIOffer => whatIOffer
    }
  }

  /** A `Partial<UserProfile>`: every field may be supplied (`Some`) or omitted (`None`). */
  datatype ProfilePatch = ProfilePatch(
    uid: Option<string>,
    email: Option<string>,
    role: Option<Role>,
    fullName: Option<string>,
    photoURL: Option<string>,
    startupName: Option<string>,
    oneLinePitch: Option<string>,
    industry: Option<string>,
    fundingStage: Option<string>,
    pitchDeckUrl: Option<string>,
    myAsk: Option<string>,
    firmName: Option<string>,
    investmentThesis: Option<string>,
    preferredStage: Option<string>,
    whatIOffer: Option<string>)
  {
    /** The supplied value of the optional field named by `d`, if any. */
    function Get(d: Detail): Option<string>
    {
      match d
      case StartupName => startupName
      case OneLinePitch => oneLinePitch
      case Industry => industry
      case FundingStage => fundingStage
      case PitchDeckUrl => pitchDeckUrl
      case MyAsk => myAsk
      case FirmName => firmName
      case InvestmentThesis => investmentThesis
      case PreferredStage => preferredStage
      case WhatIOffer => whatIOffer
    }
  }

  /** The patch that supplies no field. */
  const EmptyPatch := ProfilePatch(None, None, None, None, None, None, None, None, None, None, None, None, None, None, None)

  /** A later supplied value wins over an earlier one. */
  function Pick<T>(earlier: Option<T>, later: Option<T>): Option<T>
  {
    if later.Some? then later else earlier
  }

  /** `{ ...u, ...patch }`: every supplied field overwrites, every omitted one is kept. */
  function ApplyPatch(u: UserProfile, p: ProfilePatch): (r: UserProfile)
    ensures r.uid == p.uid.GetOr(u.uid) && r.email == p.email.GetOr(u.email)
    ensures r.role == p.role.GetOr(u.role)
    ensures r.fullName == p.fullName.GetOr(u.fullName) && r.photoURL == p.photoURL.GetOr(u.photoURL)
    ensures forall d :: r.Get(d) == (if p.Get(d).Some? then p.Get(d) else u.Get(d))
  {
    UserProfile(
      p.uid.GetOr(u.uid), p.email.GetOr(u.email), p.role.GetOr(u.role),
      p.fullName.GetOr(u.fullName), p.photoURL.GetOr(u.photoURL),
      Pick(u.startupName, p.startupName), Pick(u.oneLinePitch, p.oneLinePitch),
      Pick(u.industry, p.industry), Pick(u.fundingStage, p.fundingStage),
      Pick(u.pitchDeckUrl, p.pitchDeckUrl), Pick(u.myAsk, p.myAsk),
      Pick(u.firmName, p.firmName), Pick(u.investmentThesis, p.investmentThesis),
      Pick(u.preferredStage, p.preferredStage), Pick(u.whatIOffer, p.whatIOffer))
  }

  /** `{ ...p, ...q }` on two patches: the fields of `q` win. */
  function Combine(p: ProfilePatch, q: ProfilePatch): ProfilePatch
  {
    ProfilePatch(
      Pick(p.uid, q.uid), Pick(p.email, q.email), Pick(p.role, q.role),
      Pick(p.fullName, q.fullName), Pick(p.photoURL, q.photoURL),
      Pick(p.startupName, q.startupName), Pick(p.oneLinePitch, q.oneLinePitch),
      Pick(p.industry, q.industry), Pick(p.fundingStage, q.fundingStage),
      Pick(p.pitchDeckUrl, q.pitchDeckUrl), Pick(p.myAsk, q.myAsk),
      Pick(p.firmName, q.firmName), Pick(p.investmentThesis, q.investmentThesis),
      Pick(p.preferredStage, q.preferredStage), Pick(p.whatIOffer, q.whatIOffer))
  }

  /** A patch that supplies nothing leaves the profile as it was. */
  lemma ApplyEmptyPatch(u: UserProfile)
    ensures ApplyPatch(u, EmptyPatch) == u
  {
  }

  /** Applying the same patch twice is applying it once. */
  lemma ApplyPatchIdempotent(u: UserProfile, p: ProfilePatch)
    ensures ApplyPatch(ApplyPatch(u, p), p) == ApplyPatch(u, p)
  {
  }

  /** Two successive updates are one update with the combined patch. */
  lemma ApplyPatchCombine(u: UserProfile, p: ProfilePatch, q: ProfilePatch)
    ensures ApplyPatch(ApplyPatch(u, p), q) == ApplyPatch(u, Combine(p, q))
  {
  }

  /** The author fields a post copies from its author's profile at creation time. */
  datatype AuthorSnapshot = AuthorSnapshot(fullName: string, photoURL: string, role: Role)

  /** A feed post; `timestamp` is the clock value (milliseconds) at creation. */
  datatype Post = Post(id: string, authorId: string, author: AuthorSnapshot, content: string, timestamp: int)

  /** A direct message; `timestamp` is the clock value (milliseconds) at sending. */
  datatype Message = Message(id: string, text: string, senderId: string, timestamp: int)

  /** A conversation as listed: its id, the resolved participants, and its latest message (`null` as `None`). */
  datatype Conversation = Conversation(id: string, participants: seq<UserProfile>, lastMessage: Option<Message>)

  /** A personal schedule entry; `date` is `YYYY-MM-DD`, `time` is `HH:MM`. */
  datatype UserEvent = UserEvent(id: string, title: string, date: string, time: string, description: string)
}
