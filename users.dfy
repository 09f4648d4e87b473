/**
 * The user document (`IUserModel`) and the user collection it lives in.
 * The collection is a sequence of documents in natural order; `findOne(filter)` returns the
 * first document that matches, and `findOneAndUpdate` rewrites that same document.
 */
module Users {
  import opened Wrappers
  import opened Crypto

  type UserId = string

  /** The avatar sub-document; an absent key is `None` (so `{}` is `NoAvatar`). */
  datatype Avatar = Avatar(url: Option<string>, format: Option<string>, publicId: Option<string>, assetId: Option<string>)

  const NoAvatar := Avatar(None, None, None, None)

  /** A one-time numeric code and its expiry instant (ms); `None` is a null or absent field. */
  datatype CodeSlot = CodeSlot(code: Option<int>, expiresAt: Option<int>)

  /** The stored reset-password token and its expiry instant (ms). */
  datatype TokenSlot = TokenSlot(token: Option<Jwt>, expiresAt: Option<int>)

  const EmptyCode := CodeSlot(None, None)
  const EmptyToken := TokenSlot(None, None)

  /**
   * One user document. `password` is `None` in documents read without `+password`
   * (the schema declares it `select: false`); stored documents always carry it.
   */
  datatype UserRecord = UserRecord(
    userId: UserId,
    firstName: string,
    lastName: string,
    fullName: Option<string>,
    userName: Option<string>,
    email: string,
    userType: Option<string>,
    preferences: seq<string>,
    password: Option<PasswordHash>,
    userBio: Option<string>,
    avatar: Avatar,
    verification: CodeSlot,
    signIn: CodeSlot,
    reset: TokenSlot,
    createdAt: int,
    updatedAt: int)

  /** Which of the two code slots an operation works on. */
  datatype OtpSlot = VerificationSlot | SignInSlot

  function SlotOf(r: UserRecord, s: OtpSlot): CodeSlot {
    match s
    case VerificationSlot => r.verification
    case SignInSlot => r.signIn
  }

  function WithSlot(r: UserRecord, s: OtpSlot, v: CodeSlot): (r': UserRecord)
    ensures SlotOf(r', s) == v
    ensures r'.(verification := r.verification, signIn := r.signIn) == r
  {
    match s
    case VerificationSlot => r.(verification := v)
    case SignInSlot => r.(signIn := v)
  }

  /** A submitted code after `Number(code)`: `None` is NaN. */
  datatype Submitted = Missing | Numeric(n: int) | NonNumeric

  function AsNumber(s: Submitted): Option<int> {
    match s
    case Numeric(n) => Some(n)
    case _ => None
  }

  /** `stored === Number(code) && expiresAt && Date.now() < expiresAt`. */
  predicate CodeAccepted(slot: CodeSlot, submitted: Submitted, now: int) {
    && slot.code.Some?
    && AsNumber(submitted) == slot.code
    && slot.expiresAt.Some?
    && now < slot.expiresAt.value
  }

  /** A document as a default query returns it: without the password. */
  function Projected(r: UserRecord): UserRecord {
    r.(password := None)
  }

  /** A `findOne` filter; `Everything` is the empty filter `{}`, which every document matches. */
  datatype Filter = ByEmail(email: string) | ById(userId: UserId) | Everything

  predicate Matches(r: UserRecord, f: Filter) {
    match f
    case ByEmail(e) => r.email == e
    case ById(id) => r.userId == id
    case Everything => true
  }

  /**
   * `{ email_address: email }` built from a request field that may be absent: Mongoose drops a key
   * whose value is `undefined`, so an absent email leaves the empty filter.
   */
  function EmailFilter(email: Option<string>): (f: Filter)
    ensures email.Some? ==> f == ByEmail(email.value)
    ensures email.None? ==> forall r :: Matches(r, f)
  {
    if email.Some? then ByEmail(email.value) else Everything
  }

  /** `findOne(filter)`: the position of the first matching document, if any. */
  function FindOne(docs: seq<UserRecord>, f: Filter): (r: Option<nat>)
    ensures r.Some? ==> r.value < |docs| && Matches(docs[r.value], f)
    ensures r.Some? ==> forall j :: 0 <= j < r.value ==> !Matches(docs[j], f)
    ensures r.None? ==> forall j :: 0 <= j < |docs| ==> !Matches(docs[j], f)
  {
    if docs == [] then None
    else if Matches(docs[0], f) then Some(0)
    else match FindOne(docs[1..], f)
      case None => None
      case Some(i) => Some(i + 1)
  }

  /** `findOne` sees only which documents match: collections that agree on that agree on the answer. */
  lemma {:induction false} FindOneByMatches(a: seq<UserRecord>, b: seq<UserRecord>, f: Filter)
    requires |a| == |b|
    requires forall j :: 0 <= j < |a| ==> Matches(a[j], f) == Matches(b[j], f)
    ensures FindOne(a, f) == FindOne(b, f)
  {
    if a != [] {
      FindOneByMatches(a[1..], b[1..], f);
    }
  }

  /** Rewriting a document without changing whether it matches leaves the lookup where it was. */
  lemma FindOneAfterUpdate(docs: seq<UserRecord>, i: nat, r: UserRecord, f: Filter)
    requires i < |docs| && Matches(r, f) == Matches(docs[i], f)
    ensures FindOne(docs[i := r], f) == FindOne(docs, f)
  {
    FindOneByMatches(docs[i := r], docs, f);
  }

  /** Appending a document that nothing matched before makes it the one found. */
  lemma {:induction false} FindOneAfterAppend(docs: seq<UserRecord>, r: UserRecord, f: Filter)
    requires FindOne(docs, f).None? && Matches(r, f)
    ensures FindOne(docs + [r], f) == Some(|docs|)
  {
    if docs != [] {
      assert (docs + [r])[1..] == docs[1..] + [r];
      FindOneAfterAppend(docs[1..], r, f);
    }
  }

  /** `user_id` carries a unique index. */
  ghost predicate IdsUnique(docs: seq<UserRecord>) {
    forall i, j :: 0 <= i < j < |docs| ==> docs[i].userId != docs[j].userId
  }

  /** The intended, but unenforced, uniqueness of `email_address`. */
  ghost predicate EmailsUnique(docs: seq<UserRecord>) {
    forall i, j :: 0 <= i < j < |docs| ==> docs[i].email != docs[j].email
  }

  /** Every stored document carries a password digest. */
  ghost predicate PasswordsPresent(docs: seq<UserRecord>) {
    forall i :: 0 <= i < |docs| ==> docs[i].password.Some?
  }

  /** With unique ids, the document holding an id is the one `findOne({ user_id })` returns. */
  lemma FindById(docs: seq<UserRecord>, i: nat)
    requires IdsUnique(docs) && i < |docs|
    ensures FindOne(docs, ById(docs[i].userId)) == Some(i)
  {
    assert Matches(docs[i], ById(docs[i].userId));
  }

  /** With emails unique, looking a document up by its email finds that document. */
  lemma FindByEmail(docs: seq<UserRecord>, i: nat)
    requires EmailsUnique(docs) && i < |docs|
    ensures FindOne(docs, ByEmail(docs[i].email)) == Some(i)
  {
    assert Matches(docs[i], ByEmail(docs[i].email));
  }

  /** The `users` collection: the database state every operation reads and rewrites. */
  class UserCollection {
    var docs: seq<UserRecord>

    constructor (initial: seq<UserRecord>)
      ensures docs == initial
    {
      docs := initial;
    }

    /** `UserModel.create(doc)`. */
    method Insert(r: UserRecord)
      modifies this
      ensures docs == old(docs) + [r]
    {
      docs := docs + [r];
    }

    /** `findOneAndUpdate` on the document at position `i`. */
    method Replace(i: nat, r: UserRecord)
      requires i < |docs|
      modifies this
      ensures docs == old(docs)[i := r]
    {
      docs := docs[i := r];
    }
  }
}
