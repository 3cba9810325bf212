/** The account handlers of the Node back end (registration, login, profile
    read, profile update) over the user collection and the folder that holds
    uploaded profile pictures. Password hashing, token signing, e-mail syntax
    and JSON parsing are parameters of the handlers. */
module UserController {
  import opened Wrappers
  import opened Text
  import opened Json
  import opened Tokens

  /** A bcrypt hash string. */
  type Hash = string

  /** A timestamp (`new Date()`), kept abstract. */
  type Time = int

  const MissingDetails := "Missing Details"
  const InvalidEmail := "Enter a valid email"
  const WeakPassword := "Enter a strong password"
  const UnknownUser := "User does not exist"
  const InvalidCredentials := "Invalid Credentials"
  const UserNotFound := "User not found"
  const RequiredMissing := "Required fields missing: name, phone, gender"
  const BadAddress := "Invalid address format"
  const ProfileUpdated := "Profile Updated"
  /** The start of the store's error message when the unique e-mail index is violated. */
  const DuplicateKey := "E11000 duplicate key error"

  const MinPasswordLength := 8

  /** URL prefix of pictures stored by the upload middleware. */
  const UploadsPrefix := "/uploads"

  /** A user record as clients see it: every stored field except the password. */
  datatype Profile = Profile(
    name: string,
    email: string,
    phone: Option<string>,
    gender: Option<string>,
    language: Option<string>,
    dob: Option<string>,
    address: Option<Value>,
    image: Option<string>,
    profileImage: Option<string>,
    updatedAt: Option<Time>)

  /** A stored user: the profile and the password hash. */
  datatype User = User(profile: Profile, password: Hash)

  /** The shared state of the account handlers: the user collection, the files
      on disk (paths relative to the server's directory) and the next fresh id. */
  datatype Accounts = Accounts(users: map<UserId, User>, files: set<string>, nextId: UserId)
  {
    /** Ids are below `nextId`, and no two users share an e-mail (the unique index). */
    ghost predicate Valid()
    {
      && (forall id :: id in users ==> id < nextId)
      && (forall i, j :: i in users && j in users && users[i].profile.email == users[j].profile.email ==> i == j)
    }
  }

  /** A form field JavaScript treats as given: present and not the empty string. */
  predicate Provided(field: Option<string>)
  {
    field.Some? && field.value != ""
  }

  /** Some user has this e-mail. */
  predicate EmailTaken(users: map<UserId, User>, email: string)
  {
    exists id :: id in users && users[id].profile.email == email
  }

  /** The user `findOne({ email })` returns. */
  ghost function EmailOwner(users: map<UserId, User>, email: string): (r: Option<UserId>)
    ensures r.Some? ==> r.value in users && users[r.value].profile.email == email
    ensures r.None? <==> !EmailTaken(users, email)
  {
    if EmailTaken(users, email) then
      Some(var id :| id in users && users[id].profile.email == email; id)
    else None
  }

  /** With unique e-mails the owner of an e-mail is the one user holding it. */
  lemma EmailOwnerUnique(a: Accounts, email: string, id: UserId)
    requires a.Valid()
    requires id in a.users && a.users[id].profile.email == email
    ensures EmailOwner(a.users, email) == Some(id)
  {
    assert EmailTaken(a.users, email);
  }

  // ---------------------------------------------------------------------------
  // Registration

  datatype RegisterBody = RegisterBody(name: Option<string>, email: Option<string>, password: Option<string>)

  /** What registration and login answer: a token, or `success: false` with a message. */
  datatype AuthReply = Issued(token: Token) | Refused(message: string)

  /** The message of the first registration check that fails, in the handler's
      order: missing field, then e-mail syntax, then password length. */
  function RegisterCheck(body: RegisterBody, isEmail: string -> bool): (m: Option<string>)
    ensures m == Some(MissingDetails) <==> !(Provided(body.name) && Provided(body.email) && Provided(body.password))
    ensures m == Some(InvalidEmail) <==>
      Provided(body.name) && Provided(body.email) && Provided(body.password) && !isEmail(body.email.value)
    ensures m == Some(WeakPassword) <==>
      Provided(body.name) && Provided(body.email) && Provided(body.password) && isEmail(body.email.value)
      && Utf16Length(body.password.value) < MinPasswordLength
    ensures m == None <==>
      Provided(body.name) && Provided(body.email) && Provided(body.password) && isEmail(body.email.value)
      && Utf16Length(body.password.value) >= MinPasswordLength
  {
    if !Provided(body.name) || !Provided(body.password) || !Provided(body.email) then Some(MissingDetails)
    else if !isEmail(body.email.value) then Some(InvalidEmail)
    else if Utf16Length(body.password.value) < MinPasswordLength then Some(WeakPassword)
    else None
  }

  /** The record a registration stores: name, e-mail and the password's hash. */
  function NewUser(name: string, email: string, hashed: Hash): User
  {
    User(Profile(name, email, None, None, None, None, None, None, None, None), hashed)
  }

  /** `registerUser`: the new state and the reply. */
  function RegisterStep(a: Accounts, body: RegisterBody, isEmail: string -> bool,
                        hash: (string, string) -> Hash, salt: string): (Accounts, AuthReply)
  {
    match RegisterCheck(body, isEmail)
    case Some(m) => (a, Refused(m))
    case None =>
      if EmailTaken(a.users, body.email.value) then (a, Refused(DuplicateKey))
      else
        var id := a.nextId;
        var user := NewUser(body.name.value, body.email.value, hash(body.password.value, salt));
        (a.(users := a.users[id := user], nextId := id + 1), Issued(Token(id, None)))
  }

  /** Registration keeps ids fresh and e-mails unique. */
  lemma RegisterKeepsValid(a: Accounts, body: RegisterBody, isEmail: string -> bool,
                           hash: (string, string) -> Hash, salt: string)
    requires a.Valid()
    ensures RegisterStep(a, body, isEmail, hash, salt).0.Valid()
  {
    var (a', _) := RegisterStep(a, body, isEmail, hash, salt);
    if a' != a {
      forall i, j | i in a'.users && j in a'.users && a'.users[i].profile.email == a'.users[j].profile.email
        ensures i == j
      {
        if i != j && (i == a.nextId || j == a.nextId) {
          assert false;
        }
      }
    }
  }

  /** A successful registration stores exactly one new user, under a fresh id,
      holding the hash of the password, and returns a token for that id with no
      expiry; a refused one changes nothing. Files are never touched. */
  lemma RegisterOutcome(a: Accounts, body: RegisterBody, isEmail: string -> bool,
                        hash: (string, string) -> Hash, salt: string)
    requires a.Valid()
    ensures var (a', reply) := RegisterStep(a, body, isEmail, hash, salt);
      && a'.files == a.files
      && (reply.Refused? ==> a' == a)
      && (reply.Issued? ==>
            && reply.token == Token(a.nextId, None)
            && a.nextId !in a.users
            && a'.users == a.users[a.nextId := a'.users[a.nextId]]
            && a'.users[a.nextId].password == hash(body.password.value, salt)
            && a'.users[a.nextId].profile.email == body.email.value
            && a'.users[a.nextId].profile.name == body.name.value)
  {
  }

  /** Registering a second time with an e-mail already registered is refused
      and leaves the store unchanged. */
  lemma {:induction false} RegisterTwiceRefused(a: Accounts, first: RegisterBody, second: RegisterBody,
                                                isEmail: string -> bool, hash: (string, string) -> Hash, s1: string, s2: string)
    requires RegisterStep(a, first, isEmail, hash, s1).1.Issued?
    requires RegisterCheck(second, isEmail) == None
    requires second.email == first.email
    ensures var a' := RegisterStep(a, first, isEmail, hash, s1).0;
      RegisterStep(a', second, isEmail, hash, s2) == (a', Refused(DuplicateKey))
  {
    var a' := RegisterStep(a, first, isEmail, hash, s1).0;
    assert a'.users[a.nextId].profile.email == second.email.value;
  }

  // ---------------------------------------------------------------------------
  // Login

  datatype LoginBody = LoginBody(email: string, password: string)

  /** `loginUser`: unknown e-mail, wrong password, or a one-day token for the user. */
  ghost function LoginReply(a: Accounts, body: LoginBody, compare: (string, Hash) -> bool): AuthReply
  {
    match EmailOwner(a.users, body.email)
    case None => Refused(UnknownUser)
    case Some(id) =>
      if compare(body.password, a.users[id].password) then Issued(Token(id, Some(OneDay)))
      else Refused(InvalidCredentials)
  }

  /** The three login outcomes: "User does not exist" exactly for an unknown
      e-mail, "Invalid Credentials" exactly for a known e-mail whose password does
      not match its hash, and otherwise a token for that user with a one-day lifetime. */
  lemma LoginOutcomes(a: Accounts, body: LoginBody, compare: (string, Hash) -> bool)
    requires a.Valid()
    ensures LoginReply(a, body, compare) == Refused(UnknownUser) <==> !EmailTaken(a.users, body.email)
    ensures forall id :: id in a.users && a.users[id].profile.email == body.email ==>
      LoginReply(a, body, compare) ==
        if compare(body.password, a.users[id].password) then Issued(Token(id, Some(OneDay)))
        else Refused(InvalidCredentials)
  {
    forall id | id in a.users && a.users[id].profile.email == body.email
      ensures EmailOwner(a.users, body.email) == Some(id)
    {
      EmailOwnerUnique(a, body.email, id);
    }
  }

  /** After a registration, logging in with the same e-mail and a password the
      hasher accepts yields a one-day token for the new user. */
  lemma LoginAfterRegister(a: Accounts, body: RegisterBody, isEmail: string -> bool,
                           hash: (string, string) -> Hash, salt: string, compare: (string, Hash) -> bool)
    requires a.Valid()
    requires RegisterStep(a, body, isEmail, hash, salt).1.Issued?
    requires compare(body.password.value, hash(body.password.value, salt))
    ensures var a' := RegisterStep(a, body, isEmail, hash, salt).0;
      LoginReply(a', LoginBody(body.email.value, body.password.value), compare)
        == Issued(Token(a.nextId, Some(OneDay)))
  {
    RegisterKeepsValid(a, body, isEmail, hash, salt);
    var a' := RegisterStep(a, body, isEmail, hash, salt).0;
    EmailOwnerUnique(a', body.email.value, a.nextId);
  }

  // ---------------------------------------------------------------------------
  // Profile read

  /** What the profile handlers answer: the user without password, or an error status. */
  datatype ProfileReply = ProfileData(userData: Profile) | Failed(status: nat, message: string)

  /** `getProfile`: 404 for an unknown id, otherwise the stored profile. */
  function ProfileOf(a: Accounts, id: UserId): (r: ProfileReply)
    ensures r == Failed(404, UserNotFound) <==> id !in a.users
    ensures r.ProfileData? ==> id in a.users && r.userData == a.users[id].profile
  {
    if id in a.users then ProfileData(a.users[id].profile) else Failed(404, UserNotFound)
  }

  /** After registering, reading the new user's profile returns the registered
      name and e-mail. */
  lemma ProfileAfterRegister(a: Accounts, body: RegisterBody, isEmail: string -> bool,
                             hash: (string, string) -> Hash, salt: string)
    requires a.Valid()
    requires RegisterStep(a, body, isEmail, hash, salt).1.Issued?
    ensures var (a', reply) := RegisterStep(a, body, isEmail, hash, salt);
      && ProfileOf(a', reply.token.id).ProfileData?
      && ProfileOf(a', reply.token.id).userData.email == body.email.value
      && ProfileOf(a', reply.token.id).userData.name == body.name.value
  {
  }

  // ---------------------------------------------------------------------------
  // Profile update

  /** The multipart body of an update; every field may be missing. */
  datatype UpdateBody = UpdateBody(
    name: Option<string>,
    email: Option<string>,
    phone: Option<string>,
    address: Option<Value>,
    dob: Option<string>,
    gender: Option<string>,
    language: Option<string>)

  /** The address after parsing, or the parse failure. */
  datatype ParsedAddress = Parsed(address: Option<Value>) | Unparsable

  /** A string address is parsed as JSON; any other address is used as it is. */
  function ParseAddress(address: Option<Value>, parse: string -> Option<Value>): (r: ParsedAddress)
    ensures r == Unparsable <==> address.Some? && address.value.Str? && parse(address.value.s).None?
    ensures (address.None? || !address.value.Str?) ==> r == Parsed(address)
    ensures address.Some? && address.value.Str? && parse(address.value.s).Some? ==>
      r == Parsed(parse(address.value.s))
  {
    match address
    case Some(Str(text)) => if parse(text).Some? then Parsed(parse(text)) else Unparsable
    case _ => Parsed(address)
  }

  /** The fields an update writes: the required ones always, the optional ones
      only when they are present in the `updateData` object. */
  datatype UpdateData = UpdateData(
    name: string,
    phone: string,
    address: Option<Value>,
    gender: string,
    updatedAt: Time,
    email: Option<string>,
    dob: Option<string>,
    language: Option<string>,
    image: Option<string>)

  /** The URL-style path of a freshly uploaded picture. */
  function UploadUrl(filename: string): string
  {
    UploadsPrefix + "/" + filename
  }

  /** The `updateData` object the handler builds. */
  function BuildUpdate(body: UpdateBody, address: Option<Value>, now: Time, imageFile: Option<string>): (d: UpdateData)
    requires Provided(body.name) && Provided(body.phone) && Provided(body.gender)
  {
    UpdateData(body.name.value, body.phone.value, address, body.gender.value, now,
               if Provided(body.email) then body.email else None,
               if Provided(body.dob) then body.dob else None,
               if Provided(body.language) then body.language else None,
               if imageFile.Some? then Some(UploadUrl(imageFile.value)) else None)
  }

  /** The stored profile after `findByIdAndUpdate(id, data)`: the fields in
      `data` overwrite, all others stay. An address left `undefined` is
      stripped from the update, so the stored one stays. */
  function ApplyUpdate(p: Profile, d: UpdateData): Profile
  {
    p.(name := d.name, phone := Some(d.phone), address := if d.address.Some? then d.address else p.address,
       gender := Some(d.gender),
       updatedAt := Some(d.updatedAt),
       email := d.email.GetOr(p.email),
       dob := if d.dob.Some? then d.dob else p.dob,
       language := if d.language.Some? then d.language else p.language,
       image := if d.image.Some? then d.image else p.image)
  }

  /** The picture the handler considers current: `image`, else `profileImage`. */
  function OldImage(p: Profile): Option<string>
  {
    if Provided(p.image) then p.image
    else if Provided(p.profileImage) then p.profileImage
    else None
  }

  /** `path.join('public', url)` for a URL-style path. */
  function DiskPath(url: string): string
  {
    "public" + url
  }

  /** The file the handler unlinks when a new picture arrives: the user's current
      picture, when it is stored locally (under `/uploads`) and exists. */
  function StaleFile(a: Accounts, id: UserId): Option<string>
  {
    if id in a.users then
      match OldImage(a.users[id].profile)
      case Some(previous) =>
        if StartsWith(previous, UploadsPrefix) && DiskPath(previous) in a.files then Some(DiskPath(previous)) else None
      case None => None
    else None
  }

  /** What the update handler answers. */
  datatype UpdateReply = Updated(userData: Profile) | Rejected(status: nat, message: string)

  /** `updateProfile` for the user `id` (from the token): the new state and the
      reply. `unlinkOk` is whether deleting the stale picture succeeds. */
  function UpdateStep(a: Accounts, id: UserId, body: UpdateBody, imageFile: Option<string>,
                      parse: string -> Option<Value>, now: Time, unlinkOk: bool): (Accounts, UpdateReply)
  {
    if !Provided(body.name) || !Provided(body.phone) || !Provided(body.gender) then
      (a, Rejected(400, RequiredMissing))
    else match ParseAddress(body.address, parse)
    case Unparsable => (a, Rejected(400, BadAddress))
    case Parsed(address) =>
      var data := BuildUpdate(body, address, now, imageFile);
      var stale := StaleFile(a, id);
      var files := if imageFile.Some? && stale.Some? && unlinkOk then a.files - {stale.value} else a.files;
      CommitStep(a.(files := files), id, data)
  }

  /** `findByIdAndUpdate(id, data)`: 404 for an unknown id, the duplicate-key
      error for an e-mail another user holds, otherwise the update is written. */
  function CommitStep(a: Accounts, id: UserId, data: UpdateData): (Accounts, UpdateReply)
  {
    if id !in a.users then
      (a, Rejected(404, UserNotFound))
    else if data.email.Some? && EmailTaken(a.users - {id}, data.email.value) then
      (a, Rejected(500, DuplicateKey))
    else
      var user := a.users[id].(profile := ApplyUpdate(a.users[id].profile, data));
      (a.(users := a.users[id := user]), Updated(user.profile))
  }

  /** A missing name, phone or gender, or an address that does not parse, is
      answered with 400 and changes nothing. */
  lemma UpdateRejectsInvalid(a: Accounts, id: UserId, body: UpdateBody, imageFile: Option<string>,
                             parse: string -> Option<Value>, now: Time, unlinkOk: bool)
    ensures var (a', reply) := UpdateStep(a, id, body, imageFile, parse, now, unlinkOk);
      && (!Provided(body.name) || !Provided(body.phone) || !Provided(body.gender) ==>
            a' == a && reply == Rejected(400, RequiredMissing))
      && (Provided(body.name) && Provided(body.phone) && Provided(body.gender)
          && ParseAddress(body.address, parse) == Unparsable ==>
            a' == a && reply == Rejected(400, BadAddress))
      && (reply.Rejected? && reply.status == 400 ==> a' == a)
  {
  }

  /** A successful update sets name, phone, gender and the timestamp, sets the
      address when one is sent and keeps the stored one otherwise, overwrites
      e-mail, date of birth and language only when given, sets the picture to
      the uploaded one when there is one, keeps the password and every other
      user untouched, and answers with the stored profile. */
  lemma UpdateWrites(a: Accounts, id: UserId, body: UpdateBody, imageFile: Option<string>,
                     parse: string -> Option<Value>, now: Time, unlinkOk: bool)
    ensures var (a', reply) := UpdateStep(a, id, body, imageFile, parse, now, unlinkOk);
      && a'.users.Keys == a.users.Keys && a'.nextId == a.nextId
      && (forall other :: other in a.users && other != id ==> a'.users[other] == a.users[other])
      && (forall other :: other in a.users ==> a'.users[other].password == a.users[other].password)
      && (reply.Updated? ==>
            var before, after := a.users[id].profile, a'.users[id].profile;
            && id in a.users && reply.userData == after
            && Some(after.name) == body.name && after.phone == body.phone && after.gender == body.gender
            && (body.address.Some? ==> ParseAddress(body.address, parse) == Parsed(after.address))
            && (body.address.None? ==> after.address == before.address)
            && (body.address.Some? && body.address.value.Str? ==> after.address == parse(body.address.value.s))
            && after.updatedAt == Some(now)
            && after.email == (if Provided(body.email) then body.email.value else before.email)
            && after.dob == (if Provided(body.dob) then body.dob else before.dob)
            && after.language == (if Provided(body.language) then body.language else before.language)
            && after.image == (if imageFile.Some? then Some(UploadUrl(imageFile.value)) else before.image)
            && after.profileImage == before.profileImage)
  {
  }

  /** The only file an update ever removes is the user's previous picture, and
      only when a new picture arrived, the old one is stored under `/uploads`,
      the file exists and the deletion succeeds; a failed deletion does not
      change the reply. */
  lemma UpdateFileEffect(a: Accounts, id: UserId, body: UpdateBody, imageFile: Option<string>,
                         parse: string -> Option<Value>, now: Time, unlinkOk: bool)
    ensures var (a', reply) := UpdateStep(a, id, body, imageFile, parse, now, unlinkOk);
      && a'.files <= a.files
      && (a'.files != a.files ==>
            && imageFile.Some? && unlinkOk && id in a.users
            && OldImage(a.users[id].profile).Some?
            && StartsWith(OldImage(a.users[id].profile).value, UploadsPrefix)
            && a'.files == a.files - {DiskPath(OldImage(a.users[id].profile).value)})
      && reply == UpdateStep(a, id, body, imageFile, parse, now, !unlinkOk).1
      && a'.users == UpdateStep(a, id, body, imageFile, parse, now, !unlinkOk).0.users
  {
  }

  /** When the uploaded picture is on disk and differs from the previous one,
      after a successful update the user's picture refers to a file that exists
      and the previous locally stored picture is gone (when its deletion succeeds). */
  lemma UpdateSwapsPicture(a: Accounts, id: UserId, body: UpdateBody, filename: string,
                           parse: string -> Option<Value>, now: Time)
    requires DiskPath(UploadUrl(filename)) in a.files
    requires id in a.users ==> OldImage(a.users[id].profile) != Some(UploadUrl(filename))
    ensures var (a', reply) := UpdateStep(a, id, body, Some(filename), parse, now, true);
      reply.Updated? ==>
        && a'.users[id].profile.image == Some(UploadUrl(filename))
        && DiskPath(UploadUrl(filename)) in a'.files
        && (StaleFile(a, id).Some? ==> StaleFile(a, id).value !in a'.files)
  {
    var (a', reply) := UpdateStep(a, id, body, Some(filename), parse, now, true);
    if reply.Updated? && StaleFile(a, id).Some? {
      var previous := OldImage(a.users[id].profile).value;
      assert DiskPath(previous) != DiskPath(UploadUrl(filename)) by {
        assert DiskPath(previous)[6..] == previous;
        assert DiskPath(UploadUrl(filename))[6..] == UploadUrl(filename);
      }
    }
  }

  /** Updates keep ids fresh and e-mails unique. */
  lemma UpdateKeepsValid(a: Accounts, id: UserId, body: UpdateBody, imageFile: Option<string>,
                         parse: string -> Option<Value>, now: Time, unlinkOk: bool)
    requires a.Valid()
    ensures UpdateStep(a, id, body, imageFile, parse, now, unlinkOk).0.Valid()
  {
    var (a', reply) := UpdateStep(a, id, body, imageFile, parse, now, unlinkOk);
    if reply.Updated? && Provided(body.email) {
      forall k | k in a.users && k != id
        ensures a.users[k].profile.email != body.email.value
      {
        assert k in a.users - {id};
      }
    }
  }

  // ---------------------------------------------------------------------------
  // The handlers over the shared store

  /** The user collection and the upload folder, updated in place by the handlers. */
  class UserStore {
    var users: map<UserId, User>
    var files: set<string>
    var nextId: UserId

    function State(): Accounts
      reads this
    {
      Accounts(users, files, nextId)
    }

    ghost predicate Valid()
      reads this
    {
      State().Valid()
    }

    constructor (files: set<string>)
      ensures Valid() && State() == Accounts(map[], files, 0)
    {
      this.users := map[];
      this.files := files;
      this.nextId := 0;
    }

    /** `registerUser`. */
    method RegisterUser(body: RegisterBody, isEmail: string -> bool, hash: (string, string) -> Hash, salt: string)
      returns (reply: AuthReply)
      requires Valid()
      modifies this
      ensures Valid()
      ensures (State(), reply) == RegisterStep(old(State()), body, isEmail, hash, salt)
    {
      RegisterKeepsValid(State(), body, isEmail, hash, salt);
      if !Provided(body.name) || !Provided(body.password) || !Provided(body.email) {
        return Refused(MissingDetails);
      }
      if !isEmail(body.email.value) {
        return Refused(InvalidEmail);
      }
      if Utf16Length(body.password.value) < MinPasswordLength {
        return Refused(WeakPassword);
      }
      var hashed := hash(body.password.value, salt);
      if EmailTaken(users, body.email.value) {
        return Refused(DuplicateKey);
      }
      var id := nextId;
      users := users[id := NewUser(body.name.value, body.email.value, hashed)];
      nextId := nextId + 1;
      reply := Issued(Token(id, None));
    }

    /** `loginUser`: reads the store and changes nothing. */
    method LoginUser(body: LoginBody, compare: (string, Hash) -> bool) returns (reply: AuthReply)
      requires Valid()
      ensures reply == LoginReply(State(), body, compare)
    {
      if !EmailTaken(users, body.email) {
        return Refused(UnknownUser);
      }
      var id :| id in users && users[id].profile.email == body.email;
      EmailOwnerUnique(State(), body.email, id);
      if !compare(body.password, users[id].password) {
        return Refused(InvalidCredentials);
      }
      reply := Issued(Token(id, Some(OneDay)));
    }

    /** `getProfile` for the id the auth gate attached. */
    method GetProfile(id: UserId) returns (reply: ProfileReply)
      ensures reply == ProfileOf(State(), id)
    {
      if id !in users {
        return Failed(404, UserNotFound);
      }
      reply := ProfileData(users[id].profile);
    }

    /** `updateProfile` for the id the auth gate attached. */
    method UpdateProfile(id: UserId, body: UpdateBody, imageFile: Option<string>,
                         parse: string -> Option<Value>, now: Time, unlinkOk: bool)
      returns (reply: UpdateReply)
      requires Valid()
      modifies this
      ensures Valid()
      ensures (State(), reply) == UpdateStep(old(State()), id, body, imageFile, parse, now, unlinkOk)
    {
      UpdateKeepsValid(State(), id, body, imageFile, parse, now, unlinkOk);
      if !Provided(body.name) || !Provided(body.phone) || !Provided(body.gender) {
        return Rejected(400, RequiredMissing);
      }
      var parsedAddress := body.address;
      if body.address.Some? && body.address.value.Str? {
        parsedAddress := parse(body.address.value.s);
        if parsedAddress.None? {
          return Rejected(400, BadAddress);
        }
      }
      assert ParseAddress(body.address, parse) == Parsed(parsedAddress);
      var data := UpdateData(body.name.value, body.phone.value, parsedAddress, body.gender.value, now,
                             None, None, None, None);
      if Provided(body.email) {
        data := data.(email := body.email);
      }
      if Provided(body.dob) {
        data := data.(dob := body.dob);
      }
      if Provided(body.language) {
        data := data.(language := body.language);
      }
      if imageFile.Some? {
        var imagePath := UploadUrl(imageFile.value);
        UnlinkStale(id, unlinkOk);
        data := data.(image := Some(imagePath));
      }
      assert data == BuildUpdate(body, parsedAddress, now, imageFile);
      reply := Commit(id, data);
    }

    /** The write at the end of `updateProfile`. */
    method Commit(id: UserId, data: UpdateData) returns (reply: UpdateReply)
      modifies this
      ensures (State(), reply) == CommitStep(old(State()), id, data)
    {
      if id !in users {
        return Rejected(404, UserNotFound);
      }
      if data.email.Some? && EmailTaken(users - {id}, data.email.value) {
        return Rejected(500, DuplicateKey);
      }
      var updated := users[id].(profile := ApplyUpdate(users[id].profile, data));
      users := users[id := updated];
      reply := Updated(updated.profile);
    }

    /** The unlink step of `updateProfile`: the user's current picture is
        deleted when it is a stored upload that exists and the deletion succeeds. */
    method UnlinkStale(id: UserId, unlinkOk: bool)
      modifies this
      ensures users == old(users) && nextId == old(nextId)
      ensures var stale := StaleFile(old(State()), id);
        files == if stale.Some? && unlinkOk then old(files) - {stale.value} else old(files)
    {
      if id in users {
        var existing := OldImage(users[id].profile);
        if existing.Some? && StartsWith(existing.value, UploadsPrefix) {
          var oldImagePath := DiskPath(existing.value);
          if oldImagePath in files && unlinkOk {
            files := files - {oldImagePath};
          }
        }
      }
    }
  }
}
