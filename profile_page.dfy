/** The profile page: the picture it shows, the defaults it fills in, the
    edits to the loaded profile and the multipart form its save sends. */
module ProfilePage {
  import opened Wrappers
  import opened Text
  import opened Json
  import UserController

  const DefaultGender := "Male"
  const DefaultLanguage := "English"

  /** An address object: line name to text. */
  type Address = map<string, string>

  /** The address the defaulting fills in. */
  const EmptyAddress: Address := map["line1" := "", "line2" := ""]

  /** The profile as the page holds it; any field may be missing. */
  datatype UserData = UserData(
    name: Option<string>,
    email: Option<string>,
    phone: Option<string>,
    gender: Option<string>,
    language: Option<string>,
    address: Option<Address>,
    image: Option<string>)

  /** A file chosen in the picture picker. */
  datatype PickedFile = PickedFile(name: string)

  /** `value || fallback` for an optional string: the empty string is falsy. */
  function Or(value: Option<string>, fallback: string): (r: string)
    ensures r == fallback || (value.Some? && r == value.value)
    ensures r == fallback <==> value.None? || value.value == "" || value.value == fallback
  {
    if value.Some? && value.value != "" then value.value else fallback
  }

  // ---------------------------------------------------------------------------
  // The picture

  /** What the avatar shows: the picked file (through an object URL), a URL,
      or nothing. */
  datatype ImageSrc = NoImage | ObjectUrl(file: PickedFile) | Src(url: string)

  /** `getImageUrl()`: a picked file wins; a stored path under `/uploads` is
      served by the backend; any other stored value (a full URL, base64 data)
      is used as it is. */
  function ImageUrl(user: UserData, picked: Option<PickedFile>, backendUrl: string): (r: ImageSrc)
    ensures picked.Some? ==> r == ObjectUrl(picked.value)
    ensures r == NoImage <==> picked.None? && Or(user.image, "") == ""
    ensures r.Src? ==> user.image.Some? && picked.None?
    ensures r.Src? && StartsWith(user.image.value, "/uploads") ==> r.url == backendUrl + user.image.value
    ensures r.Src? && !StartsWith(user.image.value, "/uploads") ==> r.url == user.image.value
  {
    if picked.Some? then ObjectUrl(picked.value)
    else if Or(user.image, "") != "" then
      if StartsWith(user.image.value, "/uploads") then Src(backendUrl + user.image.value)
      else Src(user.image.value)
    else NoImage
  }

  /** A picture stored by the profile update is shown from the backend under
      its upload path. */
  lemma UploadedPictureShown(user: UserData, filename: string, backendUrl: string)
    requires user.image == Some(UserController.UploadUrl(filename))
    ensures ImageUrl(user, None, backendUrl) == Src(backendUrl + "/uploads/" + filename)
  {
    var url := UserController.UploadUrl(filename);
    assert url[..|"/uploads"|] == "/uploads";
  }

  // ---------------------------------------------------------------------------
  // Defaults and edits

  /** The defaulting effect runs when gender or language is missing or empty. */
  predicate NeedsDefaults(user: UserData)
  {
    Or(user.gender, "") == "" || Or(user.language, "") == ""
  }

  /** The defaulting update: gender, language and address take their defaults
      only where missing (or falsy), every other field stays. */
  function WithDefaults(user: UserData): (r: UserData)
    ensures r.gender == Some(Or(user.gender, DefaultGender))
    ensures r.language == Some(Or(user.language, DefaultLanguage))
    ensures r.address == Some(user.address.GetOr(EmptyAddress))
    ensures r.name == user.name && r.email == user.email && r.phone == user.phone && r.image == user.image
  {
    user.(gender := Some(Or(user.gender, DefaultGender)),
          language := Some(Or(user.language, DefaultLanguage)),
          address := Some(user.address.GetOr(EmptyAddress)))
  }

  /** The effect as it runs on every change of the profile. */
  function DefaultingEffect(user: Option<UserData>): Option<UserData>
  {
    if user.Some? && NeedsDefaults(user.value) then Some(WithDefaults(user.value)) else user
  }

  /** The effect settles after one run, so it does not re-trigger itself, and
      it never replaces a gender or language that was already set. */
  lemma DefaultsSettle(user: Option<UserData>)
    ensures DefaultingEffect(DefaultingEffect(user)) == DefaultingEffect(user)
    ensures user.Some? <==> DefaultingEffect(user).Some?
    ensures user.Some? ==> !NeedsDefaults(DefaultingEffect(user).value)
    ensures user.Some? && Or(user.value.gender, "") != "" ==> DefaultingEffect(user).value.gender == user.value.gender
    ensures user.Some? && Or(user.value.language, "") != "" ==> DefaultingEffect(user).value.language == user.value.language
  {
  }

  /** The fields the page has inputs for. */
  datatype Field = Email | Phone | Gender | Language

  /** `handleInputChange(field, value)`. */
  function SetField(user: UserData, field: Field, value: string): (r: UserData)
    ensures r.name == user.name && r.address == user.address && r.image == user.image
    ensures r.email == (if field == Email then Some(value) else user.email)
    ensures r.phone == (if field == Phone then Some(value) else user.phone)
    ensures r.gender == (if field == Gender then Some(value) else user.gender)
    ensures r.language == (if field == Language then Some(value) else user.language)
  {
    match field
    case Email => user.(email := Some(value))
    case Phone => user.(phone := Some(value))
    case Gender => user.(gender := Some(value))
    case Language => user.(language := Some(value))
  }

  /** `handleAddressChange(line, value)`: the named line changes inside the
      (possibly missing) address; the other lines and fields stay. */
  function SetAddressLine(user: UserData, line: string, value: string): (r: UserData)
    ensures r.address.Some? && line in r.address.value && r.address.value[line] == value
    ensures forall other :: user.address.Some? && other in user.address.value && other != line ==>
      other in r.address.value && r.address.value[other] == user.address.value[other]
    ensures r.address.value.Keys == user.address.GetOr(map[]).Keys + {line}
    ensures r == user.(address := r.address)
  {
    user.(address := Some(user.address.GetOr(map[])[line := value]))
  }

  // ---------------------------------------------------------------------------
  // The save form

  /** A multipart value: text, or the picked file. */
  datatype FormValue = TextValue(text: string) | FileValue(file: PickedFile)

  /** One `formData.append(key, value)`. */
  datatype Entry = Entry(key: string, value: FormValue)

  /** The form `handleSave` sends, in append order; `stringify` is
      `JSON.stringify` on an address. */
  function SaveForm(user: UserData, picked: Option<PickedFile>, stringify: Address -> string): (form: seq<Entry>)
    ensures |form| == if picked.Some? then 7 else 6
    ensures forall i :: 0 <= i < |form| ==> form[i].key != "dob"
    ensures forall i :: 0 <= i < 6 ==> form[i].value.TextValue?
    ensures picked.Some? ==> form[6].value == FileValue(picked.value)
  {
    FormOf(Or(user.name, ""), Or(user.email, ""), Or(user.phone, ""), Or(user.gender, DefaultGender),
           Or(user.language, DefaultLanguage), stringify(user.address.GetOr(map[])),
           if picked.Some? then [Entry("image", FileValue(picked.value))] else [])
  }

  /** The six text entries in append order, then whatever follows them. */
  function FormOf(name: string, email: string, phone: string, gender: string, language: string,
                  address: string, tail: seq<Entry>): seq<Entry>
  {
    [Entry("name", TextValue(name)), Entry("email", TextValue(email)),
     Entry("phone", TextValue(phone)), Entry("gender", TextValue(gender)),
     Entry("language", TextValue(language)), Entry("address", TextValue(address))] + tail
  }

  /** The texts of the text fields named `key`, in append order. */
  function TextEntries(form: seq<Entry>, key: string): (r: seq<string>)
    ensures |r| <= |form|
  {
    if form == [] then []
    else (if form[0].key == key && form[0].value.TextValue? then [form[0].value.text] else [])
         + TextEntries(form[1..], key)
  }

  /** A text field as the upload middleware hands it to the service: the text
      when the key occurs once; a repeated key arrives as an array of its
      texts, which the service does not read as a string, so it counts as
      absent like a missing key. */
  function TextField(form: seq<Entry>, key: string): (r: Option<string>)
    ensures r.Some? <==> |TextEntries(form, key)| == 1
    ensures r.Some? ==> r.value == TextEntries(form, key)[0]
  {
    var texts := TextEntries(form, key);
    if |texts| == 1 then Some(texts[0]) else None
  }

  /** A key carried by exactly one entry, a text one, is read as its text. */
  lemma {:induction false} TextFieldOnly(form: seq<Entry>, key: string, i: nat)
    requires i < |form| && form[i].key == key && form[i].value.TextValue?
    requires forall j :: 0 <= j < |form| && j != i ==> form[j].key != key
    ensures TextEntries(form, key) == [form[i].value.text]
    ensures TextField(form, key) == Some(form[i].value.text)
  {
    if i == 0 {
      TextFieldAbsent(form[1..], key);
    } else {
      assert form[0].key != key;
      TextFieldOnly(form[1..], key, i - 1);
    }
  }

  /** A text field appended twice is not read as text at all. */
  lemma {:induction false} TextFieldRepeated(form: seq<Entry>, key: string, i: nat, j: nat)
    requires i < j < |form|
    requires form[i].key == key && form[i].value.TextValue?
    requires form[j].key == key && form[j].value.TextValue?
    ensures |TextEntries(form, key)| >= 2
    ensures TextField(form, key) == None
  {
    if i == 0 {
      TextEntriesHas(form[1..], key, j - 1);
    } else {
      TextFieldRepeated(form[1..], key, i - 1, j - 1);
    }
  }

  /** A text field with the key puts at least one text in the list. */
  lemma {:induction false} TextEntriesHas(form: seq<Entry>, key: string, j: nat)
    requires j < |form| && form[j].key == key && form[j].value.TextValue?
    ensures |TextEntries(form, key)| >= 1
  {
    if j > 0 {
      TextEntriesHas(form[1..], key, j - 1);
    }
  }

  /** The update body the user service reads from the form. */
  function Received(form: seq<Entry>): UserController.UpdateBody
  {
    UserController.UpdateBody(
      TextField(form, "name"), TextField(form, "email"), TextField(form, "phone"),
      match TextField(form, "address") case Some(t) => Some(Str(t)) case None => None,
      TextField(form, "dob"), TextField(form, "gender"), TextField(form, "language"))
  }

  /** Name, e-mail and phone arrive as the page's values or '', gender and
      language always arrive non-empty and the date of birth never arrives, so the service refuses the form as incomplete exactly when the
      page's name or phone is missing or empty. */
  lemma SaveFormRequiredFields(user: UserData, picked: Option<PickedFile>, stringify: Address -> string)
    ensures var body := Received(SaveForm(user, picked, stringify));
      && body.gender == Some(Or(user.gender, DefaultGender)) && UserController.Provided(body.gender)
      && body.language == Some(Or(user.language, DefaultLanguage)) && UserController.Provided(body.language)
      && body.name == Some(Or(user.name, "")) && body.email == Some(Or(user.email, ""))
      && body.phone == Some(Or(user.phone, ""))
      && body.dob == None
      && body.address == Some(Str(stringify(user.address.GetOr(map[]))))
      && (UserController.Provided(body.name) && UserController.Provided(body.phone)
          <==> Or(user.name, "") != "" && Or(user.phone, "") != "")
  {
    var tail := if picked.Some? then [Entry("image", FileValue(picked.value))] else [];
    FormReadsFirst(Or(user.name, ""), Or(user.email, ""), Or(user.phone, ""), Or(user.gender, DefaultGender),
                   Or(user.language, DefaultLanguage), stringify(user.address.GetOr(map[])), tail);
    FormReadsRest(Or(user.name, ""), Or(user.email, ""), Or(user.phone, ""), Or(user.gender, DefaultGender),
                  Or(user.language, DefaultLanguage), stringify(user.address.GetOr(map[])), tail);
  }

  /** The server reads the name, e-mail, phone and gender the form was built
      with when only an image follows the text entries. */
  lemma FormReadsFirst(name: string, email: string, phone: string, gender: string, language: string,
                       address: string, tail: seq<Entry>)
    requires forall i :: 0 <= i < |tail| ==> tail[i].key == "image"
    ensures var form := FormOf(name, email, phone, gender, language, address, tail);
      TextField(form, "name") == Some(name) && TextField(form, "email") == Some(email)
      && TextField(form, "phone") == Some(phone) && TextField(form, "gender") == Some(gender)
  {
    var form := FormOf(name, email, phone, gender, language, address, tail);
    TextFieldOnly(form, "name", 0);
    TextFieldOnly(form, "email", 1);
    TextFieldOnly(form, "phone", 2);
    TextFieldOnly(form, "gender", 3);
  }

  /** The server reads the language and address the form was built with, and
      no date of birth when only an image follows the text entries. */
  lemma FormReadsRest(name: string, email: string, phone: string, gender: string, language: string,
                      address: string, tail: seq<Entry>)
    requires forall i :: 0 <= i < |tail| ==> tail[i].key == "image"
    ensures var form := FormOf(name, email, phone, gender, language, address, tail);
      TextField(form, "language") == Some(language) && TextField(form, "address") == Some(address)
      && TextField(form, "dob") == None
  {
    var form := FormOf(name, email, phone, gender, language, address, tail);
    TextFieldOnly(form, "language", 4);
    TextFieldOnly(form, "address", 5);
    TextFieldAbsent(form, "dob");
  }

  /** A key no entry has is read as absent. */
  lemma {:induction false} TextFieldAbsent(form: seq<Entry>, key: string)
    requires forall i :: 0 <= i < |form| ==> form[i].key != key
    ensures TextEntries(form, key) == []
    ensures TextField(form, key) == None
  {
    if form != [] {
      TextFieldAbsent(form[1..], key);
    }
  }

  /** The profile page's state, updated in place by its handlers. */
  class ProfileView {
    var userData: Option<UserData>
    var isEditing: bool
    var image: Option<PickedFile>

    constructor (loaded: Option<UserData>)
      ensures userData == loaded && !isEditing && image == None
    {
      userData, isEditing, image := loaded, false, None;
    }

    /** One run of the defaulting effect. */
    method ApplyDefaults()
      modifies this
      ensures userData == DefaultingEffect(old(userData))
      ensures isEditing == old(isEditing) && image == old(image)
    {
      if userData.Some? && NeedsDefaults(userData.value) {
        userData := Some(WithDefaults(userData.value));
      }
    }

    /** `handleInputChange`; the inputs exist only while a profile is shown. */
    method HandleInputChange(field: Field, value: string)
      requires userData.Some?
      modifies this
      ensures userData == Some(SetField(old(userData).value, field, value))
      ensures isEditing == old(isEditing) && image == old(image)
    {
      userData := Some(SetField(userData.value, field, value));
    }

    /** `handleAddressChange`. */
    method HandleAddressChange(line: string, value: string)
      requires userData.Some?
      modifies this
      ensures userData == Some(SetAddressLine(old(userData).value, line, value))
      ensures isEditing == old(isEditing) && image == old(image)
    {
      userData := Some(SetAddressLine(userData.value, line, value));
    }

    /** Choosing a file in the picker. */
    method PickImage(file: PickedFile)
      modifies this
      ensures image == Some(file) && userData == old(userData) && isEditing == old(isEditing)
    {
      image := Some(file);
    }

    /** "Edit Profile" and "Cancel": only the mode changes; cancelling keeps
      the edits made so far. */
    method SetEditing(editing: bool)
      modifies this
      ensures isEditing == editing && userData == old(userData) && image == old(image)
    {
      isEditing := editing;
    }

    /** The form `handleSave` builds, one append at a time. */
    method BuildForm(stringify: Address -> string) returns (form: seq<Entry>)
      requires userData.Some?
      ensures form == SaveForm(userData.value, image, stringify)
    {
      var user := userData.value;
      form := [];
      form := form + [Entry("name", TextValue(Or(user.name, "")))];
      form := form + [Entry("email", TextValue(Or(user.email, "")))];
      form := form + [Entry("phone", TextValue(Or(user.phone, "")))];
      form := form + [Entry("gender", TextValue(Or(user.gender, DefaultGender)))];
      form := form + [Entry("language", TextValue(Or(user.language, DefaultLanguage)))];
      form := form + [Entry("address", TextValue(stringify(user.address.GetOr(map[]))))];
      if image.Some? {
        form := form + [Entry("image", FileValue(image.value))];
      }
    }

    /** The end of `handleSave`: on success the profile is reloaded, edit mode
      ends and the picked file is dropped; otherwise nothing changes. */
    method FinishSave(success: bool, reloaded: Option<UserData>)
      modifies this
      ensures success ==> userData == reloaded && !isEditing && image == None
      ensures !success ==> userData == old(userData) && isEditing == old(isEditing) && image == old(image)
    {
      if success {
        userData := reloaded;
        isEditing := false;
        image := None;
      }
    }
  }
}
