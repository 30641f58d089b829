# BridgeJavaSDK core, modelled in Dafny

This project models the client-side core of the Bridge Java SDK. The SDK is a Java client library
for Sage Bionetworks' Bridge research-study server. The model covers four parts:

- **Configuration** (`config.dfy`, module `BridgeConfig`). The seventeen-property schema is
  modelled. Environment variables override values named exactly like a property. Loading is
  validated in this order:
  1. the path is not null and ends in `.properties`;
  2. every schema property is present (the first missing one is reported);
  3. the participant e-mail, then the admin e-mail, then the host are valid.

  The `Config[...]` rendering is also modelled. `Config` is a class whose property map is a
  field that the override method replaces key by key in a loop, as the Java code does.
- **Participant record** (`participant.dfy`, module `Accounts`). `StudyParticipant` keeps its
  one mutable map of extra attributes. `setAttribute` ignores blank names and blank values. The
  constructor keeps everything it is given. Equality compares all twelve fields, and the
  language list is compared as a set. The fluent `Builder` is a class whose `with*` methods
  change one field and return the same builder.
- **HTTP helpers** (`api_caller.dfy`, module `ApiCalls`). The full URL is the host followed by
  the path. `get` sends no session header. `authorizedGet`, `post(url)` and `post(url, json)`
  set the `Bridge-Session` header from the provider's current token (null included) and then
  execute the request. `post(url, json)` also sends an `application/json; UTF-8` body. An I/O
  failure of the executor yields a null response. `getSessionToken` handles three cases: a null
  response, an unreadable response, and a response with or without the `Bridge-Session` header.
- **User client facade** (`user_client.dfy`, module `UserClient`). Each operation checks sign-in
  first. `saveProfile` then checks that its profile is non-null. Only then is exactly one delegate
  call made. Two lemmas cover a
  whole session:
  - delegates are called once per admitted operation;
  - nothing is called while signed out.

Supporting modules:

- `wrappers.dfy`: `Option` stands for Java `null`. `Result` and `Outcome` stand for a value or a
  thrown exception.
- `text.dfy`: `isBlank` (Java whitespace, `Character.isWhitespace`), `endsWith`, and ASCII
  case-insensitive equality for header names.
- `provider.dfy`: a stand-in for `ClientProvider`, whose own code is not part of this model. It
  holds the configuration and the session token. What `isSignedIn()` answers is an argument of
  each facade operation.

Behaviour of the code worth noting:

- `authorizedGet` and `post` do not refuse to run without a session token. They set the header
  to whatever the provider holds, `null` included.
- A failed request yields a null response rather than a server exception.
- `getSchema` passes a null tracker straight to its delegate.

## Model

| member | source | states |
|---|---|---|
| BridgeConfig.PropertiesSchema | src/main/java/org/sagebionetworks/bridge/sdk/Config.java:13-34 | The schema has exactly 17 properties. It runs from PARTICIPANT_EMAIL to UPLOAD_API, lists every key, and gives distinct keys distinct names. |
| BridgeConfig.MessageNamesCulprit | src/main/java/org/sagebionetworks/bridge/sdk/Config.java:92-106 | Each validation message names the missing property, the bad e-mail address or the bad host. |
| BridgeConfig.ConfigError.Kind | src/main/java/org/sagebionetworks/bridge/sdk/Config.java:39-105 | The two path assertions and the presence assertion raise AssertionError. Only the e-mail and host checks raise IllegalArgumentException. |
| BridgeConfig.ConfigError.Message | src/main/java/org/sagebionetworks/bridge/sdk/Config.java:92-106 | The path assertions carry no message. A missing property ends in " property is not present.", a bad e-mail in " is not a valid email address.", and a bad host in the URL-form hint. |
| BridgeConfig.GetString | src/main/java/org/sagebionetworks/bridge/sdk/Config.java:64-80 | The lookup has a value if and only if the name is stored, and the value is the stored one. |
| BridgeConfig.OverrideWithAt | src/main/java/org/sagebionetworks/bridge/sdk/Config.java:82-90 | After overriding with any list of keys, a name listed there maps to the environment value if the environment has one, else to the original value. Any other name is unchanged. |
| BridgeConfig.OverriddenAt | src/main/java/org/sagebionetworks/bridge/sdk/Config.java:82-90 | Key by key over the whole schema, an environment variable of the same name wins. Names outside the schema are never touched. |
| BridgeConfig.Config.OverrideWithEnvironmentVariables | src/main/java/org/sagebionetworks/bridge/sdk/Config.java:82-90 | The loop leaves the property map equal to the key-by-key overlay of the environment on the old map. |
| BridgeConfig.FirstMissing | src/main/java/org/sagebionetworks/bridge/sdk/Config.java:92-96 | The result is None exactly when every listed key's name is present. Otherwise it is the index of the first key whose name is absent, and all earlier keys are present. |
| BridgeConfig.CheckAllPresent | src/main/java/org/sagebionetworks/bridge/sdk/Config.java:92-96 | It passes if and only if every schema property is present. On failure it reports a missing property. |
| BridgeConfig.CheckAllPresentReportsFirst | src/main/java/org/sagebionetworks/bridge/sdk/Config.java:92-96 | The failure names the first missing property in schema order. |
| BridgeConfig.Config.AssertAllPropertiesPresent | src/main/java/org/sagebionetworks/bridge/sdk/Config.java:92-96 | The loop over the schema returns exactly the presence check's verdict and error. |
| BridgeConfig.Config.AssertHostAndEmailValid | src/main/java/org/sagebionetworks/bridge/sdk/Config.java:98-106 | For properties that are all present, it gives the host-and-e-mail verdict: participant e-mail first, then admin e-mail, then the host must be a valid URL ending in "/". |
| BridgeConfig.CheckHostAndEmail | src/main/java/org/sagebionetworks/bridge/sdk/Config.java:98-106 | It passes if and only if both e-mails are valid and the host is a valid URL ending in "/". A failure is an IllegalArgumentException naming the participant e-mail, the admin e-mail or the host. |
| BridgeConfig.Load | src/main/java/org/sagebionetworks/bridge/sdk/Config.java:38-54 | A success holds the overlaid map with every property present. An IllegalArgumentException only arises once every property is present. An AssertionError means a null path, a non-.properties path or a missing property. |
| BridgeConfig.LoadSucceedsIff | src/main/java/org/sagebionetworks/bridge/sdk/Config.java:38-54 | Loading succeeds if and only if four things hold: the path is non-null and ends in ".properties"; after the overlay every property is present; both e-mails are valid; and the host is a valid URL ending in "/". The result is then the overlaid map. |
| BridgeConfig.LoadChecksPathFirst | src/main/java/org/sagebionetworks/bridge/sdk/Config.java:39-40 | A null path or a non-.properties path fails with that error, whatever the file and environment hold. |
| BridgeConfig.LoadReportsFirstMissing | src/main/java/org/sagebionetworks/bridge/sdk/Config.java:52 | With a good path, an incomplete overlaid map fails on its first missing property. |
| BridgeConfig.LoadValidationOrder | src/main/java/org/sagebionetworks/bridge/sdk/Config.java:98-106 | With a good path and complete properties, an invalid participant e-mail is reported before the admin e-mail, which is reported before the host. |
| BridgeConfig.Config.FromFile | src/main/java/org/sagebionetworks/bridge/sdk/Config.java:43-47 | The new configuration holds exactly the file's properties and the given validators. |
| BridgeConfig.Config.Get | src/main/java/org/sagebionetworks/bridge/sdk/Config.java:64-80 | Each getter returns the value stored under its property's name. |
| BridgeConfig.AppendedIsJoinedAndSeparator | src/main/java/org/sagebionetworks/bridge/sdk/Config.java:118-122 | Appending "name=value, " for each key is the same as the entries joined by ", ", followed by one trailing ", ". |
| BridgeConfig.DeletingLastSeparatorRenders | src/main/java/org/sagebionetworks/bridge/sdk/Config.java:123-125 | Deleting the last two characters of the builder and appending "]" gives "Config[" followed by the entries joined by ", " and then "]". |
| BridgeConfig.Render | src/main/java/org/sagebionetworks/bridge/sdk/Config.java:118-125 | The rendering starts with "Config[" and ends with "]". |
| BridgeConfig.Config.ToString | src/main/java/org/sagebionetworks/bridge/sdk/Config.java:113-126 | An incomplete configuration fails with the presence check's error. A complete one renders as "Config[k1=v1, ..., k17=v17]" in schema order. |
| BridgeConfig.ValueOf | src/main/java/org/sagebionetworks/bridge/sdk/Config.java:38-58 | It yields a fresh valid Config holding the loaded map if loading succeeds. Otherwise it yields loading's error. |
| BridgeConfig.ValueOfDefault | src/main/java/org/sagebionetworks/bridge/sdk/Config.java:60-62 | It is valueOf applied to "bridge-sdk.properties": the same result as loading that path, a fresh valid Config on success, holding the given validators. |
| Text.AllWhitespace | src/main/java/org/sagebionetworks/bridge/sdk/models/accounts/StudyParticipant.java:100 | It is true if and only if every character is Java whitespace. |
| Text.NotBlankMeansVisibleCharacter | src/main/java/org/sagebionetworks/bridge/sdk/models/accounts/StudyParticipant.java:100 | A non-blank string is non-null and has a non-whitespace character. |
| Text.IsBlank | src/main/java/org/sagebionetworks/bridge/sdk/models/accounts/StudyParticipant.java:100 | A string is blank if and only if it is null or every character is Java whitespace. |
| Text.IsWhitespace | src/main/java/org/sagebionetworks/bridge/sdk/models/accounts/StudyParticipant.java:100 | On ASCII it holds exactly for tab, line feed, vertical tab, form feed, carriage return, the four separators U+001C..U+001F and space. The non-breaking spaces U+00A0, U+2007 and U+202F are not whitespace. |
| Accounts.PutIfNotBlank | src/main/java/org/sagebionetworks/bridge/sdk/models/accounts/StudyParticipant.java:99-103 | No name is ever removed, and the only name that can be added is the given one. |
| Accounts.PutIfNotBlankMeans | src/main/java/org/sagebionetworks/bridge/sdk/models/accounts/StudyParticipant.java:99-103 | The pair is stored if and only if both name and value are non-blank. Every other entry is unchanged. |
| Accounts.WhitespaceNameIgnored | src/main/java/org/sagebionetworks/bridge/sdk/models/accounts/StudyParticipant.java:100 | For any map and value, a name made only of whitespace leaves the attributes unchanged. |
| Accounts.StudyParticipant.SetAttribute | src/main/java/org/sagebionetworks/bridge/sdk/models/accounts/StudyParticipant.java:99-103 | The attributes become the conditional put on the old attributes. Nothing else changes. |
| Accounts.StudyParticipant.constructor | src/main/java/org/sagebionetworks/bridge/sdk/models/accounts/StudyParticipant.java:41-68 | Every field holds its argument. The attributes are the given map, blank entries included, or empty when null is given. |
| Accounts.ConstructorKeepsBlankAttributes | src/main/java/org/sagebionetworks/bridge/sdk/models/accounts/StudyParticipant.java:65-67 | For any map and any entry with a blank name or value, the constructed participant keeps the whole map, including that entry, which setAttribute would not have stored. |
| Accounts.StudyParticipant.Equals | src/main/java/org/sagebionetworks/bridge/sdk/models/accounts/StudyParticipant.java:120-133 | It is true if and only if the other participant is non-null and all twelve fields agree, with languages compared as a set. |
| Accounts.EqualsIsEquivalence | src/main/java/org/sagebionetworks/bridge/sdk/models/accounts/StudyParticipant.java:120-133 | Equality is reflexive, symmetric and transitive. |
| Accounts.LanguageOrderIgnored | src/main/java/org/sagebionetworks/bridge/sdk/models/accounts/StudyParticipant.java:130 | Two participants that agree on every other field, and whose language lists are permutations of each other, are equal. |
| Accounts.Builder.constructor | src/main/java/org/sagebionetworks/bridge/sdk/models/accounts/StudyParticipant.java:145-152 | A new builder has no names, no external id and no sharing scope. notifyByEmail is false, and the data groups, attributes and languages are empty. |
| Accounts.Builder.WithFirstName | src/main/java/org/sagebionetworks/bridge/sdk/models/accounts/StudyParticipant.java:154-157 | Only the first name changes, and the same builder is returned. |
| Accounts.Builder.WithLastName | src/main/java/org/sagebionetworks/bridge/sdk/models/accounts/StudyParticipant.java:158-161 | Only the last name changes, and the same builder is returned. |
| Accounts.Builder.WithExternalId | src/main/java/org/sagebionetworks/bridge/sdk/models/accounts/StudyParticipant.java:162-165 | Only the external id changes, and the same builder is returned. |
| Accounts.Builder.WithSharingScope | src/main/java/org/sagebionetworks/bridge/sdk/models/accounts/StudyParticipant.java:166-169 | Only the sharing scope changes, and the same builder is returned. |
| Accounts.Builder.WithNotifyByEmail | src/main/java/org/sagebionetworks/bridge/sdk/models/accounts/StudyParticipant.java:170-173 | Only notifyByEmail changes, and the same builder is returned. |
| Accounts.Builder.WithDataGroups | src/main/java/org/sagebionetworks/bridge/sdk/models/accounts/StudyParticipant.java:174-179 | A non-null argument replaces the data groups. A null one changes nothing. Either way the same builder is returned. |
| Accounts.Builder.WithLanguages | src/main/java/org/sagebionetworks/bridge/sdk/models/accounts/StudyParticipant.java:180-185 | A non-null argument replaces the languages. A null one changes nothing. Either way the same builder is returned. |
| Accounts.Builder.WithAttributes | src/main/java/org/sagebionetworks/bridge/sdk/models/accounts/StudyParticipant.java:186-191 | A non-null argument replaces the attributes. A null one changes nothing. Either way the same builder is returned. |
| Accounts.Builder.Build | src/main/java/org/sagebionetworks/bridge/sdk/models/accounts/StudyParticipant.java:193-196 | It makes a fresh participant with the builder's fields. Email, health code, consent histories and roles are null. |
| Accounts.BuilderScenario | src/main/java/org/sagebionetworks/bridge/sdk/models/accounts/StudyParticipant.java:144-196 | One scenario: a default builder, a first name, a data-group set, then a null data-group set. It builds a participant with exactly that first name and those groups, and with every other field at its default or null. |
| ApiCalls.FirstIndex | src/main/java/org/sagebionetworks/bridge/sdk/BaseApiCaller.java:111-112 | The result is None exactly when no header has the name, ignoring ASCII case. Otherwise it is the index of the first such header. |
| ApiCalls.ContainsHeader | src/main/java/org/sagebionetworks/bridge/sdk/BaseApiCaller.java:111 | It holds if and only if some header has the name, ignoring ASCII case. |
| ApiCalls.FirstHeader | src/main/java/org/sagebionetworks/bridge/sdk/BaseApiCaller.java:112 | It finds a header if and only if one with that name exists, and the one found is the first header in the list with that name, ignoring ASCII case. |
| ApiCalls.UpdateHeader | src/main/java/org/sagebionetworks/bridge/sdk/BaseApiCaller.java:58 | The header set is in the result, and the list grows by at most one. |
| ApiCalls.Request.constructor | src/main/java/org/sagebionetworks/bridge/sdk/BaseApiCaller.java:57 | A new request has the given verb and URI, no headers and no body. |
| ApiCalls.UpdateHeaderThenFirst | src/main/java/org/sagebionetworks/bridge/sdk/BaseApiCaller.java:58 | After setHeader, the first header of that name is the one set, at the index of the old first match, or appended at the end when the name was new. Headers of other names keep their positions, and so do later headers of the same name. The count grows by one only if the name was new. |
| ApiCalls.Request.SetHeader | src/main/java/org/sagebionetworks/bridge/sdk/BaseApiCaller.java:58 | The request's headers become the updated list, and the body is unchanged. |
| ApiCalls.Request.BodyString | src/main/java/org/sagebionetworks/bridge/sdk/BaseApiCaller.java:86 | The body becomes the given text with the given content type and charset, and the headers are unchanged. |
| ApiCalls.Executor.Execute | src/main/java/org/sagebionetworks/bridge/sdk/BaseApiCaller.java:59 | The request as it stands is recorded as sent, and the outcome is returned. |
| ApiCalls.Received | src/main/java/org/sagebionetworks/bridge/sdk/BaseApiCaller.java:41-52 | There is a response if and only if the request was delivered, and then it is the delivered response. An I/O or protocol failure gives null. |
| ApiCalls.FullUrl | src/main/java/org/sagebionetworks/bridge/sdk/BaseApiCaller.java:118-120 | The full URL is the host then the path, exactly, with nothing inserted or removed. |
| ApiCalls.FullUrlSingleSeparator | src/main/java/org/sagebionetworks/bridge/sdk/BaseApiCaller.java:118-120 | For a host ending in "/" and a path not starting with "/", the host's last character is "/", and when the path is non-empty the next character, the first of the path, is not "/". A host ending in "//" keeps both slashes. |
| ApiCalls.FullUrlExample | src/main/java/org/sagebionetworks/bridge/sdk/BaseApiCaller.java:118-120 | "https://x.org/" with "v1/profile" gives "https://x.org/v1/profile". |
| ApiCalls.BaseApiCaller.constructor | src/main/java/org/sagebionetworks/bridge/sdk/BaseApiCaller.java:25-33 | The caller keeps the given provider and owns a fresh executor that has sent nothing. |
| ApiCalls.BaseApiCaller.GetProvider | src/main/java/org/sagebionetworks/bridge/sdk/BaseApiCaller.java:37-39 | It returns the provider the caller was built with. |
| ApiCalls.BaseApiCaller.GetFullUrl | src/main/java/org/sagebionetworks/bridge/sdk/BaseApiCaller.java:118-120 | It is the configured host joined with the path. |
| ApiCalls.BaseApiCaller.Get | src/main/java/org/sagebionetworks/bridge/sdk/BaseApiCaller.java:41-52 | Exactly one GET of the full URL is sent, with no headers and no body. A failed execution gives a null response. |
| ApiCalls.BaseApiCaller.AuthorizedGet | src/main/java/org/sagebionetworks/bridge/sdk/BaseApiCaller.java:54-66 | Exactly one GET of the full URL is sent, whose only header is Bridge-Session with the provider's token (possibly null). A failed execution gives a null response. |
| ApiCalls.BaseApiCaller.Post | src/main/java/org/sagebionetworks/bridge/sdk/BaseApiCaller.java:68-81 | Exactly one POST of the full URL is sent, with the Bridge-Session header and no body. A failed execution gives a null response. |
| ApiCalls.BaseApiCaller.PostJson | src/main/java/org/sagebionetworks/bridge/sdk/BaseApiCaller.java:83-96 | Exactly one POST is sent, with the Bridge-Session header and the JSON as an application/json, UTF-8 body. A failed execution gives a null response. |
| ApiCalls.BaseApiCaller.GetSessionToken | src/main/java/org/sagebionetworks/bridge/sdk/BaseApiCaller.java:98-116 | There are four modelled outcomes. A null response is an IllegalArgumentException. An unreadable response is a server exception on the full URL. A readable one gives the first Bridge-Session value if and only if that header exists; otherwise it is an AssertionError. |
| ApiCalls.SessionTokenRoundTrip | src/main/java/org/sagebionetworks/bridge/sdk/BaseApiCaller.java:111-112 | A response whose Bridge-Session header was set to t yields t. |
| UserClient.GetProfile | src/main/java/org/sagebionetworks/bridge/sdk/BridgeUserClient.java:26-31 | It succeeds if and only if signed in, returning the delegate's profile after exactly one call. Signed out, it raises IllegalStateException and makes no call. |
| UserClient.SaveProfile | src/main/java/org/sagebionetworks/bridge/sdk/BridgeUserClient.java:33-40 | It succeeds if and only if signed in and the profile is non-null, after one updateProfile call with that profile. The sign-in check comes first; a null profile gives IllegalArgumentException. |
| UserClient.GetAllTrackers | src/main/java/org/sagebionetworks/bridge/sdk/BridgeUserClient.java:42-47 | It succeeds if and only if signed in, returning the delegate's list after exactly one call. Otherwise it raises IllegalStateException and makes no call. |
| UserClient.GetSchema | src/main/java/org/sagebionetworks/bridge/sdk/BridgeUserClient.java:49-54 | It succeeds if and only if signed in, passing the tracker on unchecked. Otherwise it raises IllegalStateException with the double-spaced message. |
| UserClient.CallsOfAdmitted | src/main/java/org/sagebionetworks/bridge/sdk/BridgeUserClient.java:26-54 | One operation makes one delegate call if it is admitted and none otherwise. It is admitted when signed in, and for saveProfile only when the profile is also non-null. |
| UserClient.RunCallsOncePerAdmitted | src/main/java/org/sagebionetworks/bridge/sdk/BridgeUserClient.java:26-54 | Over any session, the number of delegate calls equals the number of admitted operations. |
| UserClient.SignedOutRunCallsNothing | src/main/java/org/sagebionetworks/bridge/sdk/BridgeUserClient.java:26-54 | A session spent signed out calls no delegate. |
| UserClient.BridgeUserClient.constructor | src/main/java/org/sagebionetworks/bridge/sdk/BridgeUserClient.java:14-18 | Both resource callers are new and share the client's provider. |
| UserClient.BridgeUserClient.GetProvider | src/main/java/org/sagebionetworks/bridge/sdk/BridgeUserClient.java:24 | The provider returned is the one both resource callers use. |

## Left out

- HTTP transport (the Apache client, its five-retry handler, lax redirects and request execution)
  is not modelled. The result of executing a request is a parameter: delivered, I/O failure or
  protocol failure.
- Reading the properties file (`PropertiesConfiguration`, its comma list-splitting, and the
  exception it swallows and only prints) is not modelled. The file's properties are a parameter,
  already a string map. So a missing or unreadable file is not modelled either. In Java it leaves
  the configuration null, and construction then fails with a NullPointerException. That happens
  at Config.java:87 if any of the seventeen environment variables is set, and otherwise at the
  first getString.
- BridgeConfig.GetString, BridgeConfig.OverrideWith: the library behaviour of `setProperty` and
  `getString` is not modelled. `setProperty` at Config.java:87 also splits an environment value
  on commas. `getString` (Config.java:64-80, 94, 121) returns only the first element of a list
  and interpolates `${...}` references. The model stores and reads each value as one plain string.
  For example, a `HOST` of `https://a.org/,b` is validated whole here, where Java would read
  `https://a.org/`.
- `System.getenv` is a parameter map.
- `Utilities.isValidEmail` and `Utilities.isValidUrl` are not modelled. They are arbitrary
  functions carried by the configuration.
- Java assertions in `Config` are modelled as enabled. The JVM runs with assertions off unless
  `-ea` is given, so the modelled AssertionError failures happen only with assertions on: the null
  path, the non-`.properties` path and the missing property. With them off (the default, or `-da`),
  three things change:
  - A null path leaves the configuration null (the loader's exception is caught and printed), so
    construction fails with a NullPointerException, as for a missing file.
  - A readable file whose name does not end in `.properties` loads normally, and construction
    goes on.
  - The presence check at Config.java:94 does nothing, so a missing property is never reported
    and its getter returns null.
- JSON mapping (`ObjectMapper`, the `@JsonCreator` and `@JsonAnySetter` routing) is not
  modelled. `setAttribute` is modelled as the method it routes to.
- `StudyParticipant.toString` and `hashCode`, and the plain field getters, are not modelled.
  The getters are field reads.
- `StudyParticipant.equals` against an object of another class is not covered. Only
  participant-or-null arguments are modelled.
- Aliasing is not modelled. Sets, lists and maps handed to the builder or the participant are
  Dafny values, so later mutation of the caller's own collection through a shared reference is
  not captured.
- Null keys and null values inside the collections a participant holds are not modelled.
- ApiCalls.BaseApiCaller.Get, ApiCalls.BaseApiCaller.AuthorizedGet, ApiCalls.BaseApiCaller.Post,
  ApiCalls.BaseApiCaller.PostJson: `Request.Get` and `Request.Post` parse the URL with
  `URI.create`. On a malformed URL, such as a path with a space, that throws an
  IllegalArgumentException, the call ends, and nothing is sent. The model takes every URL as
  well formed and records one sent request.
- ApiCalls.BaseApiCaller.PostJson: the JSON text is never null here. In Java, `bodyString(null, …)`
  throws a NullPointerException before anything is sent.
- ApiCalls.BaseApiCaller.GetSessionToken: the IllegalStateException that `returnResponse()`
  throws on a response already consumed is not modelled. A response is either readable or
  fails with an IOException.
- Header-name matching ignores case for ASCII letters only. Unicode case folding is not
  modelled.
- `Text.IsWhitespace`: the whitespace set is Java's for characters in the Basic Multilingual
  Plane. U+180E, which older Java releases also counted as whitespace, is excluded.
- `ClientProvider`, `UserProfileApiCaller`, `TrackerApiCaller` and `AuthenticationApiCaller` are
  not part of this model. Only the state the core reads from the provider is kept.
- UserClient: each operation's delegate result is a parameter. The facade's own logic is the
  order of the checks and the single call.
- Concurrency is not modelled. The SDK makes no thread-safety promise for a shared
  configuration or participant.
