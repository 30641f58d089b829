/** The SDK's configuration: a fixed schema of seventeen property keys, read from a
    properties file, overridden key by key by environment variables, then checked. */
module BridgeConfig {
  import opened Wrappers
  import opened Text

  /** The seventeen keys of the schema. */
  datatype Key =
    | ParticipantEmail | ParticipantPassword
    | AdminEmail | AdminPassword
    | Host
    | AuthApi | ProfileApi | ConsentApi | StudyConsentApi | SchedulePlanningApi
    | SchedulesApi | ActivitiesApi | SurveysApi | SurveyResponseApi | TrackerApi
    | HealthDataApi | UploadApi

  /** The property name of a key, which is also the name of its environment variable. */
  function Name(k: Key): string {
    match k
    case ParticipantEmail => "PARTICIPANT_EMAIL"
    case ParticipantPassword => "PARTICIPANT_PASSWORD"
    case AdminEmail => "ADMIN_EMAIL"
    case AdminPassword => "ADMIN_PASSWORD"
    case Host => "HOST"
    case AuthApi => "AUTH_API"
    case ProfileApi => "PROFILE_API"
    case ConsentApi => "CONSENT_API"
    case StudyConsentApi => "STUDY_CONSENT_API"
    case SchedulePlanningApi => "SCHEDULE_PLANNING_API"
    case SchedulesApi => "SCHEDULES_API"
    case ActivitiesApi => "ACTIVITIES_API"
    case SurveysApi => "SURVEYS_API"
    case SurveyResponseApi => "SURVEY_RESPONSE_API"
    case TrackerApi => "TRACKER_API"
    case HealthDataApi => "HEALTH_DATA_API"
    case UploadApi => "UPLOAD_API"
  }

  /** The schema array, in the order every loop over it visits the keys. */
  const Properties: seq<Key> := [
    ParticipantEmail, ParticipantPassword, AdminEmail, AdminPassword, Host,
    AuthApi, ProfileApi, ConsentApi, StudyConsentApi, SchedulePlanningApi,
    SchedulesApi, ActivitiesApi, SurveysApi, SurveyResponseApi, TrackerApi,
    HealthDataApi, UploadApi]

  const DefaultConfig: string := "bridge-sdk.properties"

  /** The position of a key in the schema. */
  function IndexOf(k: Key): (i: nat)
    ensures i < |Properties| && Properties[i] == k
  {
    match k
    case ParticipantEmail => 0
    case ParticipantPassword => 1
    case AdminEmail => 2
    case AdminPassword => 3
    case Host => 4
    case AuthApi => 5
    case ProfileApi => 6
    case ConsentApi => 7
    case StudyConsentApi => 8
    case SchedulePlanningApi => 9
    case SchedulesApi => 10
    case ActivitiesApi => 11
    case SurveysApi => 12
    case SurveyResponseApi => 13
    case TrackerApi => 14
    case HealthDataApi => 15
    case UploadApi => 16
  }

  /** The schema lists every key exactly once, under seventeen distinct names. */
  lemma PropertiesSchema()
    ensures |Properties| == 17
    ensures Properties[0] == ParticipantEmail && Properties[16] == UploadApi
    ensures forall k: Key :: k in Properties
    ensures forall i, j :: 0 <= i < j < |Properties| ==> Name(Properties[i]) != Name(Properties[j])
  {
    forall k: Key ensures k in Properties {
      assert Properties[IndexOf(k)] == k;
    }
  }

  /** isValidEmail and isValidUrl of the SDK's Utilities, whose definitions are not part of this model. */
  datatype Validators = Validators(isValidEmail: string -> bool, isValidUrl: string -> bool)

  datatype ExceptionKind = AssertionError | IllegalArgumentException

  /** Why constructing a configuration fails. */
  datatype ConfigError =
    | NullPath                       // assert configPath != null
    | NotPropertiesFile(path: string) // assert configPath.endsWith(".properties")
    | MissingProperty(key: Key)      // assert config.getString(property) != null
    | InvalidEmail(address: string)
    | InvalidHost(host: string)
  {
    /** The three assertions raise AssertionError; the two validation failures IllegalArgumentException. */
    function Kind(): (r: ExceptionKind)
      ensures r == AssertionError <==> NullPath? || NotPropertiesFile? || MissingProperty?
    {
      if InvalidEmail? || InvalidHost? then IllegalArgumentException else AssertionError
    }

    /** The exception's message; the two path assertions carry none. */
    function Message(): (r: Option<string>)
      ensures r.None? <==> NullPath? || NotPropertiesFile?
      ensures MissingProperty? ==> EndsWith(r.value, " property is not present.")
      ensures InvalidEmail? ==> EndsWith(r.value, " is not a valid email address.")
      ensures InvalidHost? ==> EndsWith(r.value, " is not a valid URL. Needs to be of the form http://www.sagebase.org/")
    {
      match this
      case NullPath => None
      case NotPropertiesFile(_) => None
      case MissingProperty(k) => Some(Name(k) + " property is not present.")
      case InvalidEmail(a) => Some(a + " is not a valid email address.")
      case InvalidHost(h) => Some(h + " is not a valid URL. Needs to be of the form http://www.sagebase.org/")
    }
  }

  /** Every message opens with the offending key name or value. */
  lemma MessageNamesCulprit(e: ConfigError)
    ensures e.MissingProperty? ==> e.Message().Some? && StartsWith(e.Message().value, Name(e.key))
    ensures e.InvalidEmail? ==> e.Message().Some? && StartsWith(e.Message().value, e.address)
    ensures e.InvalidHost? ==> e.Message().Some? && StartsWith(e.Message().value, e.host)
  {
  }

  /** Configuration.getString: the stored value of a property, or null. */
  function GetString(props: map<string, string>, name: string): (r: Option<string>)
    ensures r.Some? <==> name in props
    ensures r.Some? ==> r.value == props[name]
  {
    if name in props then Some(props[name]) else None
  }

  /** The names of the keys of ks. */
  function NamesOf(ks: seq<Key>): set<string> {
    if ks == [] then {} else NamesOf(ks[..|ks| - 1]) + {Name(ks[|ks| - 1])}
  }

  /** props after the override loop has visited the keys of ks, in order. */
  function OverrideWith(props: map<string, string>, env: map<string, string>, ks: seq<Key>): map<string, string> {
    if ks == [] then props
    else
      var before := OverrideWith(props, env, ks[..|ks| - 1]);
      var property := Name(ks[|ks| - 1]);
      if property in env then before[property := env[property]] else before
  }

  /** The properties after overrideWithEnvironmentVariables. */
  function Overridden(file: map<string, string>, env: map<string, string>): map<string, string> {
    OverrideWith(file, env, Properties)
  }

  /** After visiting ks, a visited name holds its environment value if it has one; every other name is untouched. */
  lemma {:induction false} OverrideWithAt(props: map<string, string>, env: map<string, string>, ks: seq<Key>, n: string)
    ensures GetString(OverrideWith(props, env, ks), n) ==
      (if n in NamesOf(ks) && n in env then Some(env[n]) else GetString(props, n))
    decreases |ks|
  {
    if ks != [] {
      OverrideWithAt(props, env, ks[..|ks| - 1], n);
    }
  }

  lemma SchemaNames(k: Key)
    ensures Name(k) in NamesOf(Properties)
  {
    var i := IndexOf(k);
    assert NamesOf(Properties[..i + 1]) <= NamesOf(Properties) by {
      NamesOfPrefix(Properties, i + 1);
    }
    assert Properties[..i + 1][..i] == Properties[..i];
  }

  lemma {:induction false} NamesOfPrefix(ks: seq<Key>, m: nat)
    requires m <= |ks|
    ensures NamesOf(ks[..m]) <= NamesOf(ks)
    decreases |ks| - m
  {
    if m < |ks| {
      NamesOfPrefix(ks, m + 1);
      assert ks[..m + 1][..m] == ks[..m];
    } else {
      assert ks[..m] == ks;
    }
  }

  /** Environment wins key by key; every property outside the schema keeps its file value. */
  lemma OverriddenAt(file: map<string, string>, env: map<string, string>)
    ensures forall k: Key :: (GetString(Overridden(file, env), Name(k)) ==
      if Name(k) in env then Some(env[Name(k)]) else GetString(file, Name(k)))
    ensures forall n :: n !in NamesOf(Properties) ==> GetString(Overridden(file, env), n) == GetString(file, n)
  {
    forall k: Key
      ensures GetString(Overridden(file, env), Name(k)) ==
        (if Name(k) in env then Some(env[Name(k)]) else GetString(file, Name(k)))
    {
      SchemaNames(k);
      OverrideWithAt(file, env, Properties, Name(k));
    }
    forall n | n !in NamesOf(Properties)
      ensures GetString(Overridden(file, env), n) == GetString(file, n)
    {
      OverrideWithAt(file, env, Properties, n);
    }
  }

  /** Every name of the schema has a value. */
  ghost predicate AllPresent(props: map<string, string>) {
    forall k: Key :: Name(k) in props
  }

  /** The index of the first key of ks without a value, if any. */
  function FirstMissing(props: map<string, string>, ks: seq<Key>): (r: Option<nat>)
    ensures r.None? <==> forall j :: 0 <= j < |ks| ==> Name(ks[j]) in props
    ensures r.Some? ==> (r.value < |ks| && Name(ks[r.value]) !in props &&
      forall j :: 0 <= j < r.value ==> Name(ks[j]) in props)
  {
    if ks == [] then None
    else if Name(ks[0]) !in props then Some(0)
    else match FirstMissing(props, ks[1..])
      case None => None
      case Some(i) => Some(i + 1)
  }

  /** A value for every key listed by the schema is a value for every key. */
  lemma PresentByIndex(props: map<string, string>)
    ensures (forall j :: 0 <= j < |Properties| ==> Name(Properties[j]) in props) ==> AllPresent(props)
  {
    if forall j :: 0 <= j < |Properties| ==> Name(Properties[j]) in props {
      forall k: Key ensures Name(k) in props {
        assert Properties[IndexOf(k)] == k;
      }
    }
  }

  /** assertAllPropertiesPresent as a value: passes iff every key has a value, else names a missing key. */
  function CheckAllPresent(props: map<string, string>): (r: Outcome<ConfigError>)
    ensures r.Pass? <==> AllPresent(props)
    ensures r.Fail? ==> r.error.MissingProperty? && Name(r.error.key) !in props
  {
    PresentByIndex(props);
    match FirstMissing(props, Properties)
    case None => Pass
    case Some(i) => Fail(MissingProperty(Properties[i]))
  }

  /** The key reported missing is the first missing one in schema order. */
  lemma CheckAllPresentReportsFirst(props: map<string, string>)
    ensures CheckAllPresent(props).Fail? ==>
      forall j :: 0 <= j < IndexOf(CheckAllPresent(props).error.key) ==> Name(Properties[j]) in props
  {
    match FirstMissing(props, Properties)
    case None =>
    case Some(i) => IndexOfAt(i);
  }

  /** IndexOf inverts indexing into the schema. */
  lemma IndexOfAt(i: nat)
    requires i < |Properties|
    ensures IndexOf(Properties[i]) == i
  {
  }

  /** assertHostAndEmailValid: participant email, then admin email, then the host. */
  function CheckHostAndEmail(props: map<string, string>, utils: Validators): (r: Outcome<ConfigError>)
    requires AllPresent(props)
    ensures r.Pass? <==>
      && utils.isValidEmail(props[Name(ParticipantEmail)]) && utils.isValidEmail(props[Name(AdminEmail)])
      && utils.isValidUrl(props[Name(Host)]) && EndsWith(props[Name(Host)], "/")
    ensures r.Fail? ==> r.error.Kind() == IllegalArgumentException
    ensures r.Fail? ==>
      || r.error == InvalidEmail(props[Name(ParticipantEmail)])
      || r.error == InvalidEmail(props[Name(AdminEmail)])
      || r.error == InvalidHost(props[Name(Host)])
  {
    var participant := props[Name(ParticipantEmail)];
    var admin := props[Name(AdminEmail)];
    var host := props[Name(Host)];
    if !utils.isValidEmail(participant) then Fail(InvalidEmail(participant))
    else if !utils.isValidEmail(admin) then Fail(InvalidEmail(admin))
    else if !utils.isValidUrl(host) || !EndsWith(host, "/") then Fail(InvalidHost(host))
    else Pass
  }

  /** What the private constructor makes of a path, the file's properties and the environment. */
  function Load(configPath: Option<string>, file: map<string, string>, env: map<string, string>, utils: Validators)
    : (r: Result<map<string, string>, ConfigError>)
    ensures r.Success? ==> r.value == Overridden(file, env) && AllPresent(r.value)
    ensures r.Failure? && r.error.Kind() == IllegalArgumentException ==> AllPresent(Overridden(file, env))
    ensures r.Failure? && r.error.Kind() == AssertionError ==>
      configPath.None? || !EndsWith(configPath.value, ".properties") || !AllPresent(Overridden(file, env))
  {
    if configPath.None? then Failure(NullPath)
    else if !EndsWith(configPath.value, ".properties") then Failure(NotPropertiesFile(configPath.value))
    else
      var props := Overridden(file, env);
      match CheckAllPresent(props)
      case Fail(e) => Failure(e)
      case Pass =>
        match CheckHostAndEmail(props, utils)
        case Fail(e) => Failure(e)
        case Pass => Success(props)
  }

  /** Construction succeeds exactly when the path names a properties file, every key has a value
      after the override, both emails are valid and the host is a valid URL ending in "/". */
  lemma LoadSucceedsIff(configPath: Option<string>, file: map<string, string>, env: map<string, string>, utils: Validators)
    ensures Load(configPath, file, env, utils).Success? <==>
      var props := Overridden(file, env);
      && configPath.Some? && EndsWith(configPath.value, ".properties")
      && AllPresent(props)
      && utils.isValidEmail(props[Name(ParticipantEmail)])
      && utils.isValidEmail(props[Name(AdminEmail)])
      && utils.isValidUrl(props[Name(Host)])
      && EndsWith(props[Name(Host)], "/")
    ensures Load(configPath, file, env, utils).Success? ==>
      Load(configPath, file, env, utils).value == Overridden(file, env)
  {
  }

  /** The path is checked before anything else. */
  lemma LoadChecksPathFirst(configPath: Option<string>, file: map<string, string>, env: map<string, string>, utils: Validators)
    ensures configPath.None? ==> Load(configPath, file, env, utils) == Failure(NullPath)
    ensures configPath.Some? && !EndsWith(configPath.value, ".properties") ==>
      Load(configPath, file, env, utils) == Failure(NotPropertiesFile(configPath.value))
  {
  }

  /** A missing key is reported before any email or host check, and it is the first missing key of the schema. */
  lemma LoadReportsFirstMissing(path: string, file: map<string, string>, env: map<string, string>, utils: Validators, i: nat)
    requires EndsWith(path, ".properties")
    requires i < |Properties| && Name(Properties[i]) !in Overridden(file, env)
    requires forall j :: 0 <= j < i ==> Name(Properties[j]) in Overridden(file, env)
    ensures Load(Some(path), file, env, utils) == Failure(MissingProperty(Properties[i]))
  {
  }

  /** With every key present, the participant email is checked first, then the admin email, then the host. */
  lemma LoadValidationOrder(path: string, file: map<string, string>, env: map<string, string>, utils: Validators)
    requires EndsWith(path, ".properties") && AllPresent(Overridden(file, env))
    ensures var props := Overridden(file, env);
      var r := Load(Some(path), file, env, utils);
      && (!utils.isValidEmail(props[Name(ParticipantEmail)]) ==>
            r == Failure(InvalidEmail(props[Name(ParticipantEmail)])))
      && (utils.isValidEmail(props[Name(ParticipantEmail)]) && !utils.isValidEmail(props[Name(AdminEmail)]) ==>
            r == Failure(InvalidEmail(props[Name(AdminEmail)])))
      && (utils.isValidEmail(props[Name(ParticipantEmail)]) && utils.isValidEmail(props[Name(AdminEmail)]) &&
          (!utils.isValidUrl(props[Name(Host)]) || !EndsWith(props[Name(Host)], "/")) ==>
            r == Failure(InvalidHost(props[Name(Host)])))
  {
  }

  /** One "KEY=value" entry of toString. */
  function Entry(props: map<string, string>, k: Key): string
    requires AllPresent(props)
  {
    Name(k) + "=" + props[Name(k)]
  }

  /** What the toString loop has built after visiting ks: "Config[" and each entry followed by ", ". */
  function Appended(props: map<string, string>, ks: seq<Key>): string
    requires AllPresent(props)
  {
    if ks == [] then "Config[" else Appended(props, ks[..|ks| - 1]) + Entry(props, ks[|ks| - 1]) + ", "
  }

  lemma AppendedStep(props: map<string, string>, ks: seq<Key>, i: nat)
    requires AllPresent(props) && i < |ks|
    ensures Appended(props, ks[..i + 1]) == Appended(props, ks[..i]) + Entry(props, ks[i]) + ", "
  {
    assert ks[..i + 1][..i] == ks[..i];
  }

  /** The entries of ks separated by ", ", with nothing after the last. */
  function Joined(props: map<string, string>, ks: seq<Key>): string
    requires AllPresent(props) && ks != []
  {
    if |ks| == 1 then Entry(props, ks[0]) else Joined(props, ks[..|ks| - 1]) + ", " + Entry(props, ks[|ks| - 1])
  }

  /** The rendering toString promises. */
  function Render(props: map<string, string>): (r: string)
    requires AllPresent(props)
    ensures StartsWith(r, "Config[") && EndsWith(r, "]")
  {
    "Config[" + Joined(props, Properties) + "]"
  }

  lemma ConcatAssoc(a: string, b: string, c: string)
    ensures (a + b) + c == a + (b + c)
  {
  }

  /** The loop leaves exactly one ", " after the last entry. */
  lemma {:induction false} AppendedIsJoinedAndSeparator(props: map<string, string>, ks: seq<Key>)
    requires AllPresent(props) && ks != []
    ensures Appended(props, ks) == "Config[" + Joined(props, ks) + ", "
    decreases |ks|
  {
    if |ks| > 1 {
      var init := ks[..|ks| - 1];
      AppendedIsJoinedAndSeparator(props, init);
      var j, e := Joined(props, init), Entry(props, ks[|ks| - 1]);
      calc {
        Appended(props, ks);
        ("Config[" + j + ", ") + e + ", ";
        { ConcatAssoc("Config[" + j, ", ", e); }
        ("Config[" + j) + (", " + e) + ", ";
        { ConcatAssoc("Config[", j, ", " + e); ConcatAssoc(j, ", ", e); }
        "Config[" + (j + ", " + e) + ", ";
      }
    } else {
      assert ks[..0] == [];
    }
  }

  /** Deleting the last two characters of what the loop built, then appending "]", gives Render. */
  lemma DeletingLastSeparatorRenders(props: map<string, string>)
    requires AllPresent(props)
    ensures var built := Appended(props, Properties);
      |built| >= 2 && built[..|built| - 2] + "]" == Render(props)
  {
    AppendedIsJoinedAndSeparator(props, Properties);
    var joined := "Config[" + Joined(props, Properties);
    var built := Appended(props, Properties);
    assert built == joined + ", ";
    assert built[..|built| - 2] == joined;
  }

  /** A configuration in the shape the SDK holds it: the loaded properties, by name. */
  class Config {
    const utils: Validators
    var config: map<string, string>

    /** The properties read from the file; PropertiesConfiguration's parsing is not part of this model. */
    constructor FromFile(file: map<string, string>, utils: Validators)
      ensures config == file && this.utils == utils
    {
      this.utils := utils;
      config := file;
    }

    /** Holds of every configuration that construction returns. */
    ghost predicate Valid()
      reads this
    {
      AllPresent(config) && CheckHostAndEmail(config, utils).Pass?
    }

    /** Each getter: the stored value of its key. */
    function Get(k: Key): (r: string)
      reads this
      requires AllPresent(config)
      ensures GetString(config, Name(k)) == Some(r)
    {
      config[Name(k)]
    }

    method OverrideWithEnvironmentVariables(env: map<string, string>)
      modifies this
      ensures config == Overridden(old(config), env)
    {
      var i := 0;
      while i < |Properties|
        invariant 0 <= i <= |Properties|
        invariant config == OverrideWith(old(config), env, Properties[..i])
      {
        var property := Name(Properties[i]);
        assert Properties[..i + 1][..i] == Properties[..i];
        if property in env {
          config := config[property := env[property]];
        }
        i := i + 1;
      }
      assert Properties[..i] == Properties;
    }

    method AssertAllPropertiesPresent() returns (r: Outcome<ConfigError>)
      ensures r == CheckAllPresent(config)
    {
      var i := 0;
      while i < |Properties|
        invariant 0 <= i <= |Properties|
        invariant forall j :: 0 <= j < i ==> Name(Properties[j]) in config
      {
        if Name(Properties[i]) !in config {
          return Fail(MissingProperty(Properties[i]));
        }
        i := i + 1;
      }
      return Pass;
    }

    /** The imperative form of CheckHostAndEmail, tied to it by the ensures. */
    method AssertHostAndEmailValid() returns (r: Outcome<ConfigError>)
      requires AllPresent(config)
      ensures r == CheckHostAndEmail(config, utils)
    {
      var participant := Get(ParticipantEmail);
      var admin := Get(AdminEmail);
      var host := Get(Host);
      if !utils.isValidEmail(participant) {
        r := Fail(InvalidEmail(participant));
      } else if !utils.isValidEmail(admin) {
        r := Fail(InvalidEmail(admin));
      } else if !utils.isValidUrl(host) || !EndsWith(host, "/") {
        r := Fail(InvalidHost(host));
      } else {
        r := Pass;
      }
    }

    /** toString: asserts every key present, then "Config[" and the entries in schema order, then "]". */
    method ToString() returns (r: Result<string, ConfigError>)
      ensures CheckAllPresent(config).Fail? ==> r == Failure(CheckAllPresent(config).error)
      ensures CheckAllPresent(config).Pass? ==> r == Success(Render(config))
    {
      var present := AssertAllPropertiesPresent();
      if present.Fail? {
        return Failure(present.error);
      }
      var builder := "Config[";
      var i := 0;
      while i < |Properties|
        invariant 0 <= i <= |Properties|
        invariant builder == Appended(config, Properties[..i])
      {
        var property := Name(Properties[i]);
        AppendedStep(config, Properties, i);
        builder := builder + (property + "=" + config[property]) + ", ";
        i := i + 1;
      }
      assert Properties[..i] == Properties;
      DeletingLastSeparatorRenders(config);
      builder := builder[..|builder| - 2]; // remove the last ", "
      builder := builder + "]";
      return Success(builder);
    }
  }

  /** Config.valueOf: the private constructor's sequence of steps, run on a Config object.
      Load states the same steps as a function; the ensures ties the two together. */
  method ValueOf(configPath: Option<string>, file: map<string, string>, env: map<string, string>, utils: Validators)
    returns (r: Result<Config, ConfigError>)
    ensures r.Failure? ==> Load(configPath, file, env, utils) == Failure(r.error)
    ensures r.Success? ==> Load(configPath, file, env, utils) == Success(r.value.config)
    ensures r.Success? ==> fresh(r.value) && r.value.utils == utils && r.value.Valid()
  {
    if configPath.None? {
      return Failure(NullPath);
    }
    if !EndsWith(configPath.value, ".properties") {
      return Failure(NotPropertiesFile(configPath.value));
    }
    var c := new Config.FromFile(file, utils);
    c.OverrideWithEnvironmentVariables(env);
    var present := c.AssertAllPropertiesPresent();
    if present.Fail? {
      return Failure(present.error);
    }
    var valid := c.AssertHostAndEmailValid();
    if valid.Fail? {
      return Failure(valid.error);
    }
    return Success(c);
  }

  /** Config.valueOfDefault: valueOf on "bridge-sdk.properties". */
  method ValueOfDefault(file: map<string, string>, env: map<string, string>, utils: Validators)
    returns (r: Result<Config, ConfigError>)
    ensures r.Failure? ==> Load(Some(DefaultConfig), file, env, utils) == Failure(r.error)
    ensures r.Success? ==> Load(Some(DefaultConfig), file, env, utils) == Success(r.value.config)
    ensures r.Success? ==> fresh(r.value) && r.value.utils == utils && r.value.Valid()
  {
    r := ValueOf(Some(DefaultConfig), file, env, utils);
  }
}
