/** The user profiles of `number10.py`: field validation, the in-place
    preference merge, conversion to and from a key/value record tagged with a
    schema version, the structural checks of deserialization and the lenient
    backup recovery. The JSON text layer (`json.dumps`/`json.loads`) is a pair
    of parameters `encode`/`parse`; the clock is a parameter `now`. */
module UserProfiles {
  import opened Wrappers
  import opened PyText

  /** A Python value as it can appear in a profile record: the JSON shapes,
      plus an object that `json.dumps` refuses (such as `object()`). */
  datatype Value =
    | VNone
    | VBool(b: bool)
    | VInt(i: int)
    | VFloat(f: real)
    | VStr(s: string)
    | VList(items: seq<Value>)
    | VDict(entries: map<string, Value>)
    | VObject

  /** Python truthiness. */
  predicate Truthy(v: Value) {
    match v
    case VNone => false
    case VBool(b) => b
    case VInt(i) => i != 0
    case VFloat(f) => f != 0.0
    case VStr(s) => s != ""
    case VList(items) => items != []
    case VDict(entries) => entries != map[]
    case VObject => true
  }

  /** `json.dumps(v)` succeeds: no object it cannot encode occurs in `v`. */
  predicate Serializable(v: Value) {
    match v
    case VObject => false
    case VList(items) => forall i :: 0 <= i < |items| ==> Serializable(items[i])
    case VDict(entries) => forall k :: k in entries ==> Serializable(entries[k])
    case _ => true
  }

  /** Every value of a preference dictionary can be encoded. */
  predicate AllSerializable(m: map<string, Value>) {
    forall k :: k in m ==> Serializable(m[k])
  }

  /** `d.get(key, default)`. */
  function Get(d: map<string, Value>, key: string, default: Value): (r: Value)
    ensures key in d ==> r == d[key]
    ensures key !in d ==> r == default
  {
    if key in d then d[key] else default
  }

  /** The `ValueError`s of the validators and of `update_preferences`. */
  datatype ProfileError =
    | NameNotString
    | NameEmpty
    | NameTooLong
    | AgeNotInteger
    | AgeOutOfRange
    | EmailNotString
    | EmailInvalid
    | PreferencesNotDict
    | PreferenceNotSerializable(key: string)
    | PreferencesNotSerializable
    | PreferencesNotUpdatable(typeName: string)

  /** `type(v).__name__`. */
  function TypeName(v: Value): string {
    match v
    case VNone => "NoneType"
    case VBool(_) => "bool"
    case VInt(_) => "int"
    case VFloat(_) => "float"
    case VStr(_) => "str"
    case VList(_) => "list"
    case VDict(_) => "dict"
    case VObject => "object"
  }

  function Message(e: ProfileError): string {
    match e
    case NameNotString => "Name must be a string"
    case NameEmpty => "Name cannot be empty"
    case NameTooLong => "Name too long (max 100 characters)"
    case AgeNotInteger => "Age must be an integer"
    case AgeOutOfRange => "Age must be between 0 and 150"
    case EmailNotString => "Email must be a string"
    case EmailInvalid => "Invalid email format"
    case PreferencesNotDict => "Preferences must be a dictionary"
    case PreferenceNotSerializable(key) => "Preference value for '" + key + "' is not JSON serializable"
    case PreferencesNotSerializable => "Preferences must be JSON serializable"
    case PreferencesNotUpdatable(typeName) => "'" + typeName + "' object has no attribute 'update'"
  }

  /** A name that `_validate_name` accepts: not blank, at most 100 characters. */
  predicate ValidName(s: string) {
    !AllSpace(s) && |s| <= 100
  }

  /** An email that `_validate_email` accepts: it holds an '@' and a '.'. */
  predicate ValidEmail(s: string) {
    '@' in s && '.' in s
  }

  /** `_validate_name`: a string, non-empty after `strip()`, at most 100
      characters, the checks made in that order. */
  function ValidateName(v: Value): (r: Result<string, ProfileError>)
    ensures r.Success? <==> v.VStr? && ValidName(v.s)
    ensures r.Success? ==> r.value == v.s
    ensures !v.VStr? ==> r == Failure(NameNotString)
    ensures v.VStr? && AllSpace(v.s) ==> r == Failure(NameEmpty)
    ensures v.VStr? && !AllSpace(v.s) && |v.s| > 100 ==> r == Failure(NameTooLong)
  {
    if !v.VStr? then Failure(NameNotString)
    else
      StripEmptyIffAllSpace(v.s);
      if Strip(v.s) == "" then Failure(NameEmpty)
      else if |v.s| > 100 then Failure(NameTooLong)
      else Success(v.s)
  }

  /** `_validate_age` as written: `isinstance(age, int)` also holds for
      `True` and `False`, which then pass the range check as 1 and 0. */
  function CheckAgeAsWritten(v: Value): (r: Result<int, ProfileError>)
    ensures r.Success? <==> v.VBool? || (v.VInt? && 0 <= v.i <= 150)
  {
    var n := if v.VInt? then v.i else if v.VBool? && v.b then 1 else 0;
    if !(v.VInt? || v.VBool?) then Failure(AgeNotInteger)
    else if n < 0 || n > 150 then Failure(AgeOutOfRange)
    else Success(n)
  }

  /** `_validate_age` as intended: an integer (not a bool) from 0 to 150. */
  function ValidateAge(v: Value): (r: Result<int, ProfileError>)
    ensures r.Success? <==> v.VInt? && 0 <= v.i <= 150
    ensures r.Success? ==> r.value == v.i
    ensures !v.VInt? ==> r == Failure(AgeNotInteger)
    ensures v.VInt? && (v.i < 0 || v.i > 150) ==> r == Failure(AgeOutOfRange)
  {
    if !v.VInt? then Failure(AgeNotInteger)
    else if v.i < 0 || v.i > 150 then Failure(AgeOutOfRange)
    else Success(v.i)
  }

  /** `_validate_email`: a string holding both '@' and '.'. */
  function ValidateEmail(v: Value): (r: Result<string, ProfileError>)
    ensures r.Success? <==> v.VStr? && ValidEmail(v.s)
    ensures r.Success? ==> r.value == v.s
    ensures !v.VStr? ==> r == Failure(EmailNotString)
    ensures v.VStr? && !ValidEmail(v.s) ==> r == Failure(EmailInvalid)
  {
    if !v.VStr? then Failure(EmailNotString)
    else if '@' !in v.s || '.' !in v.s then Failure(EmailInvalid)
    else Success(v.s)
  }

  /** `preferences or {}`: a falsy value becomes the empty dictionary. */
  function DefaultPreferences(p: Value): (r: Value)
    ensures Truthy(p) ==> r == p
    ensures !Truthy(p) ==> r == VDict(map[])
  {
    if Truthy(p) then p else VDict(map[])
  }

  /** The state of a profile: its validated fields and the two timestamps. */
  datatype ProfileData = ProfileData(
    name: string, age: int, email: string, preferences: Value,
    createdAt: Value, lastUpdated: Value)

  /** What `preferences or {}` can leave behind: a truthy value, or `{}`. */
  predicate StoredPreferences(p: Value) {
    Truthy(p) || p == VDict(map[])
  }

  /** What construction guarantees of a profile's fields. */
  predicate ValidData(d: ProfileData) {
    && ValidName(d.name) && 0 <= d.age <= 150 && ValidEmail(d.email)
    && StoredPreferences(d.preferences) && Serializable(d.preferences)
  }

  /** What `__init__` checks, as written: name, age, email in that order;
      the preferences are stored unchecked. */
  predicate InitAcceptsAsWritten(name: Value, age: Value, email: Value, preferences: Value) {
    ValidateName(name).Success? && CheckAgeAsWritten(age).Success? && ValidateEmail(email).Success?
  }

  /** What `__init__` is meant to check: the three fields, then that the
      preferences (after `or {}`) can be encoded, as `update_preferences`
      demands of every value it stores. */
  predicate InitAccepts(name: Value, age: Value, email: Value, preferences: Value) {
    && ValidateName(name).Success? && ValidateAge(age).Success? && ValidateEmail(email).Success?
    && Serializable(DefaultPreferences(preferences))
  }

  /** The checks and initial state of `UserProfile(name, age, email,
      preferences)` at time `now`: the first failing check is reported; a
      new profile has `created_at == last_updated == now` and falsy
      preferences replaced by `{}`. */
  function CheckProfile(name: Value, age: Value, email: Value, preferences: Value, now: string)
    : (r: Result<ProfileData, ProfileError>)
    ensures r.Success? <==> InitAccepts(name, age, email, preferences)
    ensures r.Success? ==> ValidData(r.value)
    ensures r.Success? ==>
              && r.value.name == name.s && r.value.age == age.i && r.value.email == email.s
              && r.value.preferences == DefaultPreferences(preferences)
              && r.value.createdAt == r.value.lastUpdated == VStr(now)
    ensures ValidateName(name).Failure? ==> r == Failure(ValidateName(name).error)
    ensures ValidateName(name).Success? && ValidateAge(age).Failure? ==> r == Failure(ValidateAge(age).error)
    ensures ValidateName(name).Success? && ValidateAge(age).Success? && ValidateEmail(email).Failure? ==>
              r == Failure(ValidateEmail(email).error)
  {
    var p := DefaultPreferences(preferences);
    match ValidateName(name)
    case Failure(e) => Failure(e)
    case Success(n) =>
      match ValidateAge(age)
      case Failure(e) => Failure(e)
      case Success(a) =>
        match ValidateEmail(email)
        case Failure(e) => Failure(e)
        case Success(m) =>
          if !Serializable(p) then Failure(PreferencesNotSerializable)
          else Success(ProfileData(n, a, m, p, VStr(now), VStr(now)))
  }

  /** A bool passes the age check as written, though the intended rule
      accepts integers only. */
  lemma BoolAgeAccepted()
    ensures CheckAgeAsWritten(VBool(true)) == Success(1)
    ensures ValidateAge(VBool(true)) == Failure(AgeNotInteger)
  {
  }

  /** The demonstration's "Non-serializable preferences" scenario, for any
      valid name and email: as written, construction succeeds, while the
      demonstration expects an error, which the intended check raises. */
  lemma UnserializablePreferencesAccepted(name: string, email: string, now: string)
    requires ValidName(name) && ValidEmail(email)
    ensures InitAcceptsAsWritten(VStr(name), VInt(25), VStr(email), VDict(map["complex_obj" := VObject]))
    ensures CheckProfile(VStr(name), VInt(25), VStr(email), VDict(map["complex_obj" := VObject]), now)
         == Failure(PreferencesNotSerializable)
  {
    var p := map["complex_obj" := VObject];
    assert !Serializable(p["complex_obj"]);
  }

  /** The boundaries of the name and age checks: 100 characters pass and 101
      do not; 0 and 150 pass, -1 and 151 do not. */
  lemma ValidationBoundaries()
    ensures ValidateName(VStr(Repeat('a', 100))).Success?
    ensures ValidateName(VStr(Repeat('a', 101))) == Failure(NameTooLong)
    ensures ValidateAge(VInt(0)).Success? && ValidateAge(VInt(150)).Success?
    ensures ValidateAge(VInt(-1)) == Failure(AgeOutOfRange) && ValidateAge(VInt(151)) == Failure(AgeOutOfRange)
  {
    RepeatChars('a', 100);
    RepeatChars('a', 101);
    assert !IsSpace(Repeat('a', 100)[0]);
    assert !IsSpace(Repeat('a', 101)[0]);
  }

  /** The demonstration's "Invalid data types" scenario, for any valid name:
      the age is checked before the email, so the age error is the one
      reported. */
  lemma InvalidTypesReportAge(name: string, now: string)
    requires ValidName(name)
    ensures CheckProfile(VStr(name), VStr("not_an_integer"), VStr("invalid_email"), VNone, now)
         == Failure(AgeNotInteger)
  {
  }

  /** `to_dict()`: the fields under their names, plus `_version` "1.0". */
  function ToRecord(d: ProfileData): (r: map<string, Value>)
    ensures r.Keys == {"name", "age", "email", "preferences", "created_at", "last_updated", "_version"}
    ensures r["_version"] == VStr("1.0")
  {
    map[
      "name" := VStr(d.name),
      "age" := VInt(d.age),
      "email" := VStr(d.email),
      "preferences" := d.preferences,
      "created_at" := d.createdAt,
      "last_updated" := d.lastUpdated,
      "_version" := VStr("1.0")]
  }

  /** Why `from_dict` (and so deserialization) fails. */
  datatype DeserializeError =
    | MissingField(field: string)
    | InvalidData(cause: ProfileError)
    | NoData
    | InvalidJson
    | NotAnObject

  /** `from_dict(data)` at time `now`: name, age and email must be present
      (checked in that order); the profile is then built as the constructor
      builds it, from `data.get('preferences', {})`, and the timestamps
      present in `data` are restored. */
  function FromRecord(data: map<string, Value>, now: string): (r: Result<ProfileData, DeserializeError>)
    ensures "name" !in data ==> r == Failure(MissingField("name"))
    ensures "name" in data && "age" !in data ==> r == Failure(MissingField("age"))
    ensures "name" in data && "age" in data && "email" !in data ==> r == Failure(MissingField("email"))
    ensures "name" in data && "age" in data && "email" in data ==>
              var preferences := Get(data, "preferences", VDict(map[]));
              && (r.Success? <==> InitAccepts(data["name"], data["age"], data["email"], preferences))
              && (r.Failure? ==> r == Failure(InvalidData(CheckProfile(data["name"], data["age"], data["email"], preferences, now).error)))
              && (r.Success? ==>
                    && data["name"] == VStr(r.value.name) && data["age"] == VInt(r.value.age)
                    && data["email"] == VStr(r.value.email) && r.value.preferences == DefaultPreferences(preferences))
    ensures r.Success? ==> ValidData(r.value)
    ensures r.Success? ==> (r.value.createdAt == Get(data, "created_at", VStr(now))
                            && r.value.lastUpdated == Get(data, "last_updated", VStr(now)))
  {
    if "name" !in data then Failure(MissingField("name"))
    else if "age" !in data then Failure(MissingField("age"))
    else if "email" !in data then Failure(MissingField("email"))
    else
      match CheckProfile(data["name"], data["age"], data["email"], Get(data, "preferences", VDict(map[])), now)
      case Failure(e) => Failure(InvalidData(e))
      case Success(d) =>
        var createdAt := if "created_at" in data then data["created_at"] else d.createdAt;
        var lastUpdated := if "last_updated" in data then data["last_updated"] else d.lastUpdated;
        Success(d.(createdAt := createdAt, lastUpdated := lastUpdated))
  }

  /** The constructor accepts the fields of a valid profile unchanged. */
  lemma CheckProfileOfValid(d: ProfileData, now: string)
    requires ValidData(d)
    ensures CheckProfile(VStr(d.name), VInt(d.age), VStr(d.email), d.preferences, now)
         == Success(d.(createdAt := VStr(now), lastUpdated := VStr(now)))
  {
    assert DefaultPreferences(d.preferences) == d.preferences;
  }

  /** `from_dict(to_dict(p))` reproduces every field of a valid profile. */
  lemma RecordRoundTrip(d: ProfileData, now: string)
    requires ValidData(d)
    ensures FromRecord(ToRecord(d), now) == Success(d)
  {
    var r := ToRecord(d);
    assert r["name"] == VStr(d.name) && r["age"] == VInt(d.age) && r["email"] == VStr(d.email);
    assert Get(r, "preferences", VDict(map[])) == d.preferences;
    CheckProfileOfValid(d, now);
  }

  /** A validated profile that `update_preferences` changes in place. */
  class UserProfile {
    var name: string
    var age: int
    var email: string
    var preferences: Value
    var createdAt: Value
    var lastUpdated: Value

    function Data(): ProfileData
      reads this
    {
      ProfileData(name, age, email, preferences, createdAt, lastUpdated)
    }

    predicate Valid()
      reads this
    {
      ValidData(Data())
    }

    constructor (d: ProfileData)
      ensures Data() == d
    {
      name, age, email, preferences := d.name, d.age, d.email, d.preferences;
      createdAt, lastUpdated := d.createdAt, d.lastUpdated;
    }

    /** `UserProfile(name, age, email, preferences)` at time `now`. */
    static method Create(name: Value, age: Value, email: Value, preferences: Value, now: string)
      returns (r: Result<UserProfile, ProfileError>)
      ensures r.Failure? <==> !InitAccepts(name, age, email, preferences)
      ensures r.Failure? ==> r == Failure(CheckProfile(name, age, email, preferences, now).error)
      ensures r.Success? ==> (fresh(r.value) && r.value.Valid()
                              && r.value.Data() == CheckProfile(name, age, email, preferences, now).value)
    {
      var checked := CheckProfile(name, age, email, preferences, now);
      if checked.Failure? {
        return Failure(checked.error);
      }
      var profile := new UserProfile(checked.value);
      return Success(profile);
    }

    /** `update_preferences(new_preferences)` at time `now`: a non-dict is
        rejected; every value is checked before anything changes, and the
        first one found that cannot be encoded is reported; otherwise the
        preferences become the old ones overridden by the new entries and
        `last_updated` becomes `now`. */
    method UpdatePreferences(newPreferences: Value, now: string) returns (r: Result<(), ProfileError>)
      requires Valid()
      modifies this
      ensures Valid()
      ensures !newPreferences.VDict? ==> r == Failure(PreferencesNotDict)
      ensures newPreferences.VDict? && !AllSerializable(newPreferences.entries) ==>
                && r.Failure? && r.error.PreferenceNotSerializable?
                && r.error.key in newPreferences.entries && !Serializable(newPreferences.entries[r.error.key])
      ensures newPreferences.VDict? && AllSerializable(newPreferences.entries) && !old(preferences).VDict? ==>
                r == Failure(PreferencesNotUpdatable(TypeName(old(preferences))))
      ensures r.Failure? ==> Data() == old(Data())
      ensures newPreferences.VDict? && AllSerializable(newPreferences.entries) && old(preferences).VDict? ==>
                && r == Success(())
                && Data() == old(Data()).(preferences := VDict(old(preferences).entries + newPreferences.entries),
                                          lastUpdated := VStr(now))
    {
      if !newPreferences.VDict? {
        return Failure(PreferencesNotDict);
      }
      var entries := newPreferences.entries;
      var remaining := entries.Keys;
      while remaining != {}
        invariant remaining <= entries.Keys
        invariant forall k :: k in entries && k !in remaining ==> Serializable(entries[k])
        decreases |remaining|
      {
        var key :| key in remaining;
        if !Serializable(entries[key]) {
          return Failure(PreferenceNotSerializable(key));
        }
        remaining := remaining - {key};
      }
      if !preferences.VDict? {
        return Failure(PreferencesNotUpdatable(TypeName(preferences)));
      }
      preferences := VDict(preferences.entries + entries);
      lastUpdated := VStr(now);
      return Success(());
    }

    /** `to_dict()`. */
    function ToDict(): (r: map<string, Value>)
      reads this
      ensures "_version" in r && r["_version"] == VStr("1.0")
      ensures Valid() ==> FromRecord(r, "") == Success(Data())
    {
      if Valid() then RecordRoundTrip(Data(), ""); ToRecord(Data()) else ToRecord(Data())
    }

    /** `from_dict(data)` at time `now`: each of the required fields in
        turn, then construction, then the restored timestamps. */
    static method FromDict(data: map<string, Value>, now: string) returns (r: Result<UserProfile, DeserializeError>)
      ensures r.Failure? <==> FromRecord(data, now).Failure?
      ensures r.Failure? ==> r.error == FromRecord(data, now).error
      ensures r.Success? ==> fresh(r.value) && r.value.Valid() && r.value.Data() == FromRecord(data, now).value
    {
      var required := ["name", "age", "email"];
      for i := 0 to |required|
        invariant forall j :: 0 <= j < i ==> required[j] in data
      {
        if required[i] !in data {
          if i == 0 {
            assert "name" !in data;
          } else if i == 1 {
            assert required[0] in data && "age" !in data;
          } else {
            assert required[0] in data && required[1] in data && "email" !in data;
          }
          return Failure(MissingField(required[i]));
        }
      }
      assert required[0] in data && required[1] in data && required[2] in data;
      var created := Create(data["name"], data["age"], data["email"], Get(data, "preferences", VDict(map[])), now);
      if created.Failure? {
        return Failure(InvalidData(created.error));
      }
      var profile := created.value;
      if "created_at" in data {
        profile.createdAt := data["created_at"];
      }
      if "last_updated" in data {
        profile.lastUpdated := data["last_updated"];
      }
      return Success(profile);
    }
  }

  /** The `encode`/`parse` pair behaves as `json.dumps`/`json.loads` on `v`:
      it becomes a non-empty text that parses back to the same value. */
  predicate RoundTrips(encode: Value -> string, parse: string -> Option<Value>, v: Value) {
    encode(v) != "" && parse(encode(v)) == Some(v)
  }

  /** The integrity check of `serialize_user_profile`: the parsed-back text
      is an object whose "name" is `name`. */
  predicate NameReadBack(parsed: Option<Value>, name: string) {
    parsed.Some? && parsed.value.VDict? && "name" in parsed.value.entries
    && parsed.value.entries["name"] == VStr(name)
  }

  datatype SerializeError = NotSerializable | IntegrityCheckFailed

  /** `serialize_user_profile(profile)` without a file: the record is
      encoded, then parsed back, and its name must match. */
  function Serialize(d: ProfileData, encode: Value -> string, parse: string -> Option<Value>)
    : (r: Result<string, SerializeError>)
    ensures !Serializable(VDict(ToRecord(d))) <==> r == Failure(NotSerializable)
    ensures r.Success? <==> Serializable(VDict(ToRecord(d))) && NameReadBack(parse(encode(VDict(ToRecord(d)))), d.name)
    ensures Serializable(VDict(ToRecord(d))) && !NameReadBack(parse(encode(VDict(ToRecord(d)))), d.name) ==>
              r == Failure(IntegrityCheckFailed)
    ensures r.Success? ==> r.value == encode(VDict(ToRecord(d)))
    ensures r.Success? ==> exists e :: parse(r.value) == Some(VDict(e)) && "name" in e && e["name"] == VStr(d.name)
  {
    var record := VDict(ToRecord(d));
    if !Serializable(record) then Failure(NotSerializable)
    else
      var text := encode(record);
      match parse(text)
      case Some(VDict(e)) =>
        if "name" in e && e["name"] == VStr(d.name) then Success(text) else Failure(IntegrityCheckFailed)
      case _ => Failure(IntegrityCheckFailed)
  }

  /** `deserialize_user_profile(json_data)` at time `now`: empty input,
      text that does not parse and a top level that is not an object are
      rejected; the `_version` tag is read but any value is accepted; the
      profile is then built by `from_dict`. */
  function Deserialize(text: string, parse: string -> Option<Value>, now: string)
    : (r: Result<ProfileData, DeserializeError>)
    ensures text == "" <==> r == Failure(NoData)
    ensures text != "" && parse(text).None? ==> r == Failure(InvalidJson)
    ensures text != "" && parse(text).Some? && !parse(text).value.VDict? ==> r == Failure(NotAnObject)
    ensures text != "" && parse(text).Some? && parse(text).value.VDict? && "name" !in parse(text).value.entries ==>
              r == Failure(MissingField("name"))
    ensures text != "" && parse(text).Some? && parse(text).value.VDict? ==>
              r == FromRecord(parse(text).value.entries, now)
    ensures r.Success? ==> ValidData(r.value)
  {
    if text == "" then Failure(NoData)
    else
      match parse(text)
      case None => Failure(InvalidJson)
      case Some(v) =>
        // A `_version` other than "1.0" only draws a warning.
        if !v.VDict? then Failure(NotAnObject) else FromRecord(v.entries, now)
  }

  /** The `_version` tag has no effect on deserialization. */
  lemma VersionIgnored(data: map<string, Value>, version: Value, now: string)
    ensures FromRecord(data["_version" := version], now) == FromRecord(data - {"_version"}, now)
  {
    var a := data["_version" := version];
    var b := data - {"_version"};
    assert forall k :: k != "_version" ==> (k in a <==> k in b) && (k in a ==> a[k] == b[k]);
  }

  /** Serializing a valid profile and deserializing the text gives the same
      profile back, whatever the clock says, when the codec reproduces the
      profile's record. */
  lemma SerializeRoundTrip(d: ProfileData, encode: Value -> string, parse: string -> Option<Value>, now: string)
    requires RoundTrips(encode, parse, VDict(ToRecord(d)))
    requires ValidData(d) && Serializable(d.createdAt) && Serializable(d.lastUpdated)
    ensures Serialize(d, encode, parse).Success?
    ensures Deserialize(Serialize(d, encode, parse).value, parse, now) == Success(d)
  {
    var record := ToRecord(d);
    assert Serializable(VDict(record)) by {
      forall k | k in record
        ensures Serializable(record[k])
      {
        if k == "preferences" {
          assert record[k] == d.preferences;
        }
      }
    }
    RecordRoundTrip(d, now);
  }

  /** `str(v)` for the values whose rendering the model fixes; the rest
      (floats, lists, dicts, objects) are rendered by `render`. */
  function PyStr(v: Value, render: Value -> string): string {
    match v
    case VStr(s) => s
    case VInt(i) => Decimal(i)
    case VBool(b) => if b then "True" else "False"
    case VNone => "None"
    case _ => render(v)
  }

  /** The backup age rule: `int(age)` when `age` is an int, float or str
      whose `str()` is all decimal digits, otherwise 0. The `str()` of a
      float always holds '.', 'e', "inf" or "nan", so a float gives 0. */
  function RecoverAge(v: Value): (r: int)
    ensures r >= 0
  {
    match v
    case VInt(i) => DecimalDigits(i); if IsDigits(Decimal(i)) then i else 0
    case VBool(b) => if IsDigits(if b then "True" else "False") then (if b then 1 else 0) else 0
    case VStr(s) => if IsDigits(s) then DigitsValue(s) else 0
    case _ => 0
  }

  /** The backup age is kept exactly for a non-negative integer or a digit
      string, and is 0 otherwise ("invalid" gives 0). */
  lemma RecoverAgeExactly(v: Value)
    ensures v.VInt? && v.i >= 0 ==> RecoverAge(v) == v.i
    ensures v.VStr? && IsDigits(v.s) ==> RecoverAge(v) == DigitsValue(v.s)
    ensures !(v.VInt? && v.i >= 0) && !(v.VStr? && IsDigits(v.s)) ==> RecoverAge(v) == 0
    ensures RecoverAge(VStr("invalid")) == 0
  {
    assert !IsDigit("invalid"[0]);
    if v.VInt? {
      DecimalDigits(v.i);
    }
    if v.VBool? {
      assert !IsDigit("True"[0]) && !IsDigit("False"[0]);
    }
  }

  /** `backup_deserialization_attempt(json_data)` at time `now`: whatever
      fails gives no profile; missing or falsy names and emails take the
      defaults "Unknown User" and "unknown@example.com", the age follows
      `RecoverAge`, non-dict preferences become `{}`, and the profile must
      still pass the constructor's checks. */
  function BackupDeserialize(text: string, parse: string -> Option<Value>, render: Value -> string, now: string)
    : (r: Option<ProfileData>)
    ensures parse(text).None? || !parse(text).value.VDict? ==> r == None
    ensures r.Some? ==> ValidData(r.value) && r.value.createdAt == r.value.lastUpdated == VStr(now)
    ensures r.Some? ==> r.value.age == RecoverAge(Get(parse(text).value.entries, "age", VInt(0)))
    ensures r.Some? && !Truthy(Get(parse(text).value.entries, "name", VStr("Unknown User"))) ==>
              r.value.name == "Unknown User"
    ensures r.Some? && !Truthy(Get(parse(text).value.entries, "email", VStr("unknown@example.com"))) ==>
              r.value.email == "unknown@example.com"
    ensures r.Some? && !Get(parse(text).value.entries, "preferences", VDict(map[])).VDict? ==>
              r.value.preferences == VDict(map[])
    ensures parse(text).Some? && parse(text).value.VDict? ==>
              var data := parse(text).value.entries;
              var name := Get(data, "name", VStr("Unknown User"));
              var email := Get(data, "email", VStr("unknown@example.com"));
              var preferences := Get(data, "preferences", VDict(map[]));
              && (r.Some? <==> InitAccepts(VStr(if Truthy(name) then PyStr(name, render) else "Unknown User"),
                                           VInt(RecoverAge(Get(data, "age", VInt(0)))),
                                           VStr(if Truthy(email) then PyStr(email, render) else "unknown@example.com"),
                                           if preferences.VDict? then preferences else VDict(map[])))
              && (r.Some? && Truthy(name) ==> r.value.name == PyStr(name, render))
              && (r.Some? && Truthy(email) ==> r.value.email == PyStr(email, render))
              && (r.Some? && preferences.VDict? ==> r.value.preferences == DefaultPreferences(preferences))
  {
    match parse(text)
    case None => None
    case Some(parsed) =>
      if !parsed.VDict? then None
      else
        var data := parsed.entries;
        var name := Get(data, "name", VStr("Unknown User"));
        var age := Get(data, "age", VInt(0));
        var email := Get(data, "email", VStr("unknown@example.com"));
        var preferences := Get(data, "preferences", VDict(map[]));
        var nameText := if Truthy(name) then PyStr(name, render) else "Unknown User";
        var emailText := if Truthy(email) then PyStr(email, render) else "unknown@example.com";
        var prefs := if preferences.VDict? then preferences else VDict(map[]);
        match CheckProfile(VStr(nameText), VInt(RecoverAge(age)), VStr(emailText), prefs, now)
        case Failure(_) => None
        case Success(d) => Some(d)
  }

  /** The demonstration's corrupted record, for any valid name and email:
      the age "invalid" is recovered as 0 and the rest is kept. */
  lemma BackupRecoversCorrupted(text: string, parse: string -> Option<Value>, render: Value -> string,
                                name: string, email: string, now: string)
    requires ValidName(name) && ValidEmail(email)
    requires parse(text) == Some(VDict(map[
      "name" := VStr(name), "age" := VStr("invalid"), "email" := VStr(email), "preferences" := VDict(map[])]))
    ensures BackupDeserialize(text, parse, render, now)
         == Some(ProfileData(name, 0, email, VDict(map[]), VStr(now), VStr(now)))
  {
    RecoverAgeExactly(VStr("invalid"));
    assert name != "" && email != "";
  }

  /** On the record of a valid profile whose preferences are a dictionary,
      the backup path recovers the same profile as `from_dict`, except that
      both timestamps are `now`. */
  lemma BackupAgreesWithFromRecord(d: ProfileData, text: string, parse: string -> Option<Value>,
                                   render: Value -> string, now: string)
    requires ValidData(d) && d.preferences.VDict?
    requires parse(text) == Some(VDict(ToRecord(d)))
    ensures FromRecord(ToRecord(d), now) == Success(d)
    ensures BackupDeserialize(text, parse, render, now) == Some(d.(createdAt := VStr(now), lastUpdated := VStr(now)))
  {
    RecordRoundTrip(d, now);
    CheckProfileOfValid(d, now);
    RecoverAgeExactly(VInt(d.age));
    assert d.name != "" && d.email != "";
  }
}
