/**
 * `createAccount`: registration against a user collection keyed by email and
 * an email outbox. The bcrypt hash, the verification-mail template, the new
 * document id, the clock and whether delivery succeeds are parameters.
 */
module UserController {
  import opened Wrappers

  /** The fields of the request body that the handler destructures. */
  datatype RegisterBody = RegisterBody(
    firstName: string,
    lastName: string,
    email: string,
    phoneNumber: string,
    companyName: string,
    password: string,
    role: string,
    status: Option<string>,
    termsAccepted: bool)

  /** A stored user document; `password` holds the hash. */
  datatype User = User(
    id: string,
    firstName: string,
    lastName: string,
    email: string,
    phoneNumber: string,
    companyName: string,
    password: string,
    role: string,
    status: string,
    isEmailVerified: bool,
    termsAccepted: bool,
    termsAcceptedTime: int,
    isDeleted: bool,
    createdBy: string,
    createdById: Option<string>,
    credits: int,
    stripeCustomerId: Option<string>)

  /** The `userResponse` object: every field of the user except the password. */
  datatype UserResponse = UserResponse(
    id: string,
    firstName: string,
    lastName: string,
    email: string,
    phoneNumber: string,
    companyName: string,
    role: string,
    status: string,
    isEmailVerified: bool,
    termsAccepted: bool,
    termsAcceptedTime: int,
    isDeleted: bool,
    createdBy: string,
    createdById: Option<string>,
    credits: int,
    stripeCustomerId: Option<string>)

  function ToResponse(u: User): UserResponse
  {
    UserResponse(u.id, u.firstName, u.lastName, u.email, u.phoneNumber, u.companyName,
      u.role, u.status, u.isEmailVerified, u.termsAccepted, u.termsAcceptedTime,
      u.isDeleted, u.createdBy, u.createdById, u.credits, u.stripeCustomerId)
  }

  /** The response reveals nothing about the stored password ... */
  lemma ResponseHidesPassword(u: User, other: string)
    ensures ToResponse(u) == ToResponse(u.(password := other))
  {
  }

  /** ... and everything else: two users give the same response exactly when they differ at most in the password. */
  lemma ResponseKeepsOtherFields(u: User, w: User)
    ensures ToResponse(u) == ToResponse(w) <==> u.(password := w.password) == w
  {
  }

  datatype Email = Email(to: string, subject: string, html: string)

  /** What the handler ends with. */
  datatype Outcome =
    | Registered(statusCode: int, message: string, user: UserResponse)  // sendResponse(..., 201)
    | Rejected(statusCode: int, message: string)                         // next(new ErrorHandler(...))
    | EmailFailed                                                        // the awaited sendEmail rejected

  /** `status || 'Active'`. */
  function StatusOrActive(status: Option<string>): (s: string)
    ensures s != ""
    ensures s == "Active" || status == Some(s)
    ensures status.Some? && status.value != "" ==> s == status.value
  {
    if status.Some? && status.value != "" then status.value else "Active"
  }

  /** The document `new User({...})` builds from the body. */
  predicate IsNewUser(u: User, body: RegisterBody, hash: string -> string, id: string, now: int)
  {
    && u.id == id
    && u.firstName == body.firstName
    && u.lastName == body.lastName
    && u.email == body.email
    && u.phoneNumber == body.phoneNumber
    && u.companyName == body.companyName
    && u.password == hash(body.password)
    && u.role == body.role
    && u.status == StatusOrActive(body.status)
    && !u.isEmailVerified
    && u.termsAccepted == body.termsAccepted
    && u.termsAcceptedTime == now
    && !u.isDeleted
    && u.createdBy == "self"
    && u.createdById == None
    && u.credits == 0
    && u.stripeCustomerId == None
  }

  function VerificationEmail(u: User, template: (string, string) -> string): Email
  {
    Email(u.email, "Verify Your Account", template(u.firstName, u.id))
  }

  /** The user collection, one document per email. */
  class UserStore {
    var users: map<string, User>

    ghost predicate Valid()
      reads this
    {
      forall e :: e in users ==> users[e].email == e
    }

    constructor ()
      ensures Valid() && users == map[]
    {
      users := map[];
    }

    /** `User.findOne({ email })`. */
    method FindOne(email: string) returns (found: Option<User>)
      requires Valid()
      ensures found.Some? <==> email in users
      ensures found.Some? ==> found.value == users[email] && found.value.email == email
    {
      found := if email in users then Some(users[email]) else None;
    }

    /** `newUser.save()`. */
    method Save(user: User) returns (saved: User)
      requires Valid()
      modifies this
      ensures Valid()
      ensures users == old(users)[user.email := user]
      ensures saved == user
    {
      users := users[user.email := user];
      saved := user;
    }
  }

  /** The email capability: every delivered message is appended to the outbox. */
  class Mailer {
    var outbox: seq<Email>

    constructor ()
      ensures outbox == []
    {
      outbox := [];
    }

    /** `sendEmail(...)`; `delivered` is the outcome of the delivery attempt. */
    method SendEmail(email: Email, delivered: bool) returns (ok: bool)
      modifies this
      ensures ok == delivered
      ensures outbox == if delivered then old(outbox) + [email] else old(outbox)
    {
      ok := delivered;
      if delivered {
        outbox := outbox + [email];
      }
    }
  }

  /**
   * The handler: reject a known email; otherwise hash, build and save the
   * user, then send one verification email and answer 201 with the user
   * minus the password. No password-strength rule is applied here.
   */
  method CreateAccount(
    store: UserStore, mailer: Mailer, body: RegisterBody,
    hash: string -> string, template: (string, string) -> string,
    newId: string, now: int, delivered: bool)
    returns (outcome: Outcome)
    requires store.Valid()
    modifies store, mailer
    ensures store.Valid()
    ensures body.email in old(store.users) ==>
      && outcome == Rejected(400, "User already exists")
      && store.users == old(store.users)
      && mailer.outbox == old(mailer.outbox)
    ensures body.email !in old(store.users) ==>
      && store.users.Keys == old(store.users).Keys + {body.email}
      && (forall e :: e in old(store.users) ==> store.users[e] == old(store.users)[e])
      && IsNewUser(store.users[body.email], body, hash, newId, now)
      && mailer.outbox == old(mailer.outbox)
           + (if delivered then [VerificationEmail(store.users[body.email], template)] else [])
      && outcome == if delivered
           then Registered(201, "User registered successfully", ToResponse(store.users[body.email]))
           else EmailFailed
  {
    var existing := store.FindOne(body.email);
    if existing.Some? {
      return Rejected(400, "User already exists");
    }

    var hashedPassword := hash(body.password);
    var newUser := User(
      newId, body.firstName, body.lastName, body.email, body.phoneNumber, body.companyName,
      hashedPassword, body.role, StatusOrActive(body.status), false, body.termsAccepted, now,
      false, "self", None, 0, None);

    var savedUser := store.Save(newUser);

    var sent := mailer.SendEmail(
      Email(savedUser.email, "Verify Your Account", template(savedUser.firstName, savedUser.id)),
      delivered);
    if !sent {
      return EmailFailed;
    }

    outcome := Registered(201, "User registered successfully", ToResponse(savedUser));
  }

  /**
   * Registering the same body twice on an empty collection: the first call
   * creates the user and sends one email, the second is turned away and
   * changes nothing. Any password is taken, however weak.
   */
  method RegisterTwice(
    body: RegisterBody, hash: string -> string, template: (string, string) -> string,
    firstId: string, secondId: string, now: int)
    returns (first: Outcome, second: Outcome, users: map<string, User>, outbox: seq<Email>)
    ensures first.Registered? && first.statusCode == 201
    ensures first.user.email == body.email && first.user.id == firstId && !first.user.isEmailVerified
    ensures second == Rejected(400, "User already exists")
    ensures users.Keys == {body.email}
    ensures users[body.email].password == hash(body.password)
    ensures outbox == [Email(body.email, "Verify Your Account", template(body.firstName, firstId))]
  {
    var store := new UserStore();
    var mailer := new Mailer();
    first := CreateAccount(store, mailer, body, hash, template, firstId, now, true);
    second := CreateAccount(store, mailer, body, hash, template, secondId, now, true);
    users := store.users;
    outbox := mailer.outbox;
  }
}
