# CraftenLauncher authentication and OS helper, modelled in Dafny

This project models two pieces of the CraftenLauncher Minecraft launcher.

1. **`AuthenticationService`** keeps a session with Mojang's authentication
   server. It is a class whose fields (`response`, `accessToken`,
   `clientToken`, `profileId`, `valid`, `lastLogin`) the methods update in
   place. The two login entry points are `GetSessionIdWithCredentials` and
   `GetSessionIdFromLastLogin`. Each method's postcondition ties the new
   fields and its result to a function over a snapshot of the fields
   (`ServiceState`). Those functions (`CredentialLogin`, `CachedLogin`,
   `AccessTokenStep`, ...) follow the Java statement order, including the
   points where a parse exception escapes, and the login properties are
   lemmas about them.
2. **`OSHelper`** classifies the operating system and the processor
   architecture, and builds the Java and game directory paths. The
   normalising constructor and the singleton live in a class over the
   static fields (`OsHelperStatics`). The two architecture tests are loops
   with early return. The rest are functions of the stored name and of the
   system values, which are passed in as parameters.

Files:

- `wrappers.dfy`: `Option` and `Result`.
- `java.dfy`: Java string references (`StrRef`, used to model `!=` on
  strings), `startsWith`, `endsWith`, `contains`, and the exceptions.
- `json.dfy`: the JSON values Gson handles and member lookup. It also has
  Gson's compact writer with its string escaping, and a reader for quoted
  strings used to prove that what is written can be read back.
- `transport.dfy`: `executePost` as a loop over the lines of the reply,
  which comes from an oracle.
- `auth.dfy`: the authentication service.
- `os_helper.dfy`: the OS helper.

How the surroundings are abstracted:

- **Network.** The network is an oracle, `Wire`. It maps a URL and a request
  body to the reply's lines, or to `None` when `executePost` would catch an
  exception.
- **JSON parsing.** `JsonParser.parse` is the service's `parser`, a function
  from text to an optional JSON value. `None` stands for a syntax error.
- **JSON accessors.** Gson's `get` returns an optional member and never
  fails; a missing member makes the call on its null result throw a
  NullPointerException. `getAsString` throws an UnsupportedOperationException
  on JSON null or an object, and an IllegalStateException on an array whose
  length is not one. `getAsJsonObject` throws an IllegalStateException on a
  non-object. The ClassCastException comes from the `(JsonObject)` cast of
  the parsed response, not from an accessor.
- **Disk.** The disk is a `Disk` object mapping paths to saved `LastLogin`
  records. `JSONWriter.saveLastLogin` writes at the disk's `savePath`.

## Quirks of the source reproduced by the model

- **String comparison.** `getSessionID(username, password)` compares the
  response with `""` using `!=`, which compares references. A response
  from `executePost` is always a new string, so an empty reply body passes
  the guard (`GuardOnPostResult`). Gson parses the empty text to JSON null,
  and the `(JsonObject)` cast of that result then throws. In the model,
  without a valid cached session, a reply that passes the guard but does
  not read as credentials makes the login throw with the files unchanged
  (`CredentialLoginThrows`).
- **Valid flag not reset.** The credential login never resets the valid
  flag. After a successful cached login, a credential login takes the
  access token, the client token and the name from the cached record, and
  only the profile id from the new reply. This is
  `CredentialLoginWhileCached`.
- **`getName` while valid.** It returns the record's username, not its
  display name.
- **`getProfileID`.** It has no branch on the valid flag.
- **`setProfileIDFromRequest`.** It ignores its argument and parses the
  retained response.
- **`getOSasEnum`.** It never recognises the system, because the
  constructor has already replaced every matching name by a lower-case one.
  This is `OsAsEnumAlwaysUndefined`.
- **`getJavaPath`.** It compares the stored String with an enum constant,
  which is never equal, so it always returns the `java` program. This is
  `JavaPathIsAlwaysJava`.
- **`getMinecraftPath`.** Its Mac branch tests for "mac", but a Mac is
  normalised to "osx", which gets the empty path. The Application Support
  path is reached only when `os.name` is exactly "mac". This is
  `MinecraftPathOfNormalized`.

## Model

| member | source | states |
|---|---|---|
| Auth.AuthenticationService.constructor | src/de/craften/craftenlauncher/logic/auth/AuthenticationService.java:43-48 | a new service holds the interned "" as its response, empty access token, client token and profile id, is not valid and has no record |
| Auth.AuthenticationService.GetResponse | src/de/craften/craftenlauncher/logic/auth/AuthenticationService.java:50-52 | returns the retained response |
| Auth.AuthenticationService.SetAccessToken | src/de/craften/craftenlauncher/logic/auth/AuthenticationService.java:102-104 | replaces the access token field and nothing else |
| Auth.AuthenticationService.SetClientToken | src/de/craften/craftenlauncher/logic/auth/AuthenticationService.java:113-115 | replaces the client token field and nothing else |
| Auth.AuthenticationService.SetProfileId | src/de/craften/craftenlauncher/logic/auth/AuthenticationService.java:134-136 | replaces the profile id field and nothing else |
| Auth.AuthenticationService.GetProfileId | src/de/craften/craftenlauncher/logic/auth/AuthenticationService.java:138-140 | returns the profile id field whether or not the session is valid |
| Auth.AuthenticationService.GetClientToken | src/de/craften/craftenlauncher/logic/auth/AuthenticationService.java:106-111 | while valid, the cached record's client token; otherwise the field |
| Auth.AuthenticationService.GetName | src/de/craften/craftenlauncher/logic/auth/AuthenticationService.java:142-153 | while valid, the cached record's username; otherwise selectedProfile.name of the parsed response, or the exception the parse or a lookup throws |
| Auth.AuthenticationService.GetAccessToken | src/de/craften/craftenlauncher/logic/auth/AuthenticationService.java:90-100 | while valid, the record's token with no field changed; otherwise the parsed accessToken, which is also stored in the field, or the exception, with the fields unchanged |
| Auth.AuthenticationService.SetClientTokenFromResponse | src/de/craften/craftenlauncher/logic/auth/AuthenticationService.java:117-123 | stores the clientToken of its parsed argument, or throws and changes nothing |
| Auth.AuthenticationService.SetProfileIdFromRequest | src/de/craften/craftenlauncher/logic/auth/AuthenticationService.java:125-132 | stores selectedProfile.id of the retained response, whatever its argument, or throws and changes nothing |
| Auth.AuthenticationService.GetSsid | src/de/craften/craftenlauncher/logic/auth/AuthenticationService.java:155-169 | posts the credential request to the authenticate URL and retains exactly what executePost returned, changing no other field |
| Auth.AuthenticationService.IsValid | src/de/craften/craftenlauncher/logic/auth/AuthenticationService.java:171-177 | true exactly when the validate POST of the token returns a body; it changes no field |
| Auth.AuthenticationService.GetSessionIdWithCredentials | src/de/craften/craftenlauncher/logic/auth/AuthenticationService.java:54-70 | the new fields, the saved files and the result are those of CredentialLogin on the reply to the credential request |
| Auth.AuthenticationService.GetSessionIdFromLastLogin | src/de/craften/craftenlauncher/logic/auth/AuthenticationService.java:72-88 | the new fields, the saved files and the result are those of CachedLogin, given whether the validation POST answered |
| Auth.AuthenticationService.DeleteLastLogin | src/de/craften/craftenlauncher/logic/auth/AuthenticationService.java:238-260 | removes exactly the record at the joined lastLogin.json path; when no file is there nothing changes, so a second call is a no-op |
| Auth.Disk.Save | src/de/craften/craftenlauncher/logic/auth/AuthenticationService.java:64 | the record is written at the save path and every other path keeps its record |
| Auth.Disk.Exists | src/de/craften/craftenlauncher/logic/auth/AuthenticationService.java:251 | true exactly when a record is stored at the path |
| Auth.Disk.Delete | src/de/craften/craftenlauncher/logic/auth/AuthenticationService.java:253 | the path no longer holds a record and every other path keeps its record |
| Auth.AuthRequestText | src/de/craften/craftenlauncher/logic/auth/AuthenticationService.java:156-166 | the request body is the agent member followed by the username and the password as quoted strings, in that order |
| Auth.AuthRequestInjective | src/de/craften/craftenlauncher/logic/auth/AuthenticationService.java:156-166 | two credential pairs with the same request text are equal, so the body carries exactly what was typed |
| Auth.ValidateRequestText | src/de/craften/craftenlauncher/logic/auth/AuthenticationService.java:172-175 | the validation body is one accessToken member holding the quoted token |
| Auth.ValidateRequestInjective | src/de/craften/craftenlauncher/logic/auth/AuthenticationService.java:172-175 | two tokens with the same validation body are equal |
| Auth.GuardOnPostResult | src/de/craften/craftenlauncher/logic/auth/AuthenticationService.java:57 | an executePost result passes the reference-comparing guard exactly when it is not null; it passes with empty text exactly when the reply had no lines |
| Auth.ReadReplyMembers | src/de/craften/craftenlauncher/logic/auth/AuthenticationService.java:90-153 | any reply object, whatever its other members and their order, whose accessToken, clientToken, selectedProfile.id and selectedProfile.name members are strings yields exactly those four values |
| Auth.ReadDocumentedReply | src/de/craften/craftenlauncher/logic/auth/AuthenticationService.java:90-153 | a reply parsing to the documented object yields exactly its accessToken, clientToken, selectedProfile.id and selectedProfile.name |
| Auth.ClientTokenOf | src/de/craften/craftenlauncher/logic/auth/AuthenticationService.java:106-111 | while valid, the cached record's client token; otherwise the client token field |
| Auth.NameOf | src/de/craften/craftenlauncher/logic/auth/AuthenticationService.java:142-153 | while valid, the record's username and never an exception; otherwise the selectedProfile.name read from the retained response, with its exceptions |
| Auth.CredentialLogin | src/de/craften/craftenlauncher/logic/auth/AuthenticationService.java:54-70 | a login that throws or returns null leaves the files alone; one that returns a handle has saved a record for the given username at the save path |
| Auth.CachedLogin | src/de/craften/craftenlauncher/logic/auth/AuthenticationService.java:72-88 | never throws; returns a handle exactly when the record was accepted, and the valid flag becomes that answer; the response is kept; a rejected record leaves the files and the adopted record alone |
| Auth.AccessTokenStep | src/de/craften/craftenlauncher/logic/auth/AuthenticationService.java:90-100 | changes at most the access token field and keeps the state invariant; while valid, or on an exception, it changes nothing; while valid, the result is the record's access token; when not valid, the result is the accessToken string of the parsed response or the exception reading it throws, and a token read successfully is stored in the access token field |
| Auth.ClientTokenFromResponseStep | src/de/craften/craftenlauncher/logic/auth/AuthenticationService.java:117-123 | changes at most the client token field, changes nothing when it throws, and succeeds exactly when its argument parses to an object whose clientToken is a value getAsString accepts, and on success the field holds that value |
| Auth.ProfileIdFromResponseStep | src/de/craften/craftenlauncher/logic/auth/AuthenticationService.java:125-132 | changes at most the profile id field, changes nothing when it throws, and succeeds exactly when the retained response carries a selectedProfile.id that getAsString accepts, and on success the field holds that id |
| Auth.AccessTokenIdempotent | src/de/craften/craftenlauncher/logic/auth/AuthenticationService.java:90-100 | once getAccessToken has succeeded, calling it again returns the same token and changes nothing |
| Auth.CredentialLoginSucceeds | src/de/craften/craftenlauncher/logic/auth/AuthenticationService.java:54-70 | without a valid cached session, a reply carrying all four credentials returns "token:"+accessToken+":"+profileId, stores the three tokens, and saves LastLogin(username, name, accessToken, profileId, clientToken) |
| Auth.CredentialLoginThrows | src/de/craften/craftenlauncher/logic/auth/AuthenticationService.java:57-63 | without a valid cached session, a reply that passes the guard but lacks a credential throws and saves nothing |
| Auth.CredentialLoginNullReply | src/de/craften/craftenlauncher/logic/auth/AuthenticationService.java:55-69 | a failed POST returns null, saves nothing and changes only the retained response |
| Auth.CredentialLoginKeepsSession | src/de/craften/craftenlauncher/logic/auth/AuthenticationService.java:54-70 | any credential login retains the reply and leaves the valid flag and the cached record as they were |
| Auth.CredentialLoginSavesOnlyOnSuccess | src/de/craften/craftenlauncher/logic/auth/AuthenticationService.java:57-69 | the result is null exactly when the guard rejects the reply; otherwise the files are untouched, or one record for the username is written at the save path alongside the returned handle |
| Auth.CredentialLoginWhileCached | src/de/craften/craftenlauncher/logic/auth/AuthenticationService.java:54-70 | while a cached session is valid, the handle and the saved record take the access token, client token and name (the username) from the cached record, and only the profile id from the reply |
| Auth.CachedLoginAccepted | src/de/craften/craftenlauncher/logic/auth/AuthenticationService.java:72-83 | an accepted record makes the session valid, is adopted and saved again, has its three tokens copied into the fields, yields "token:"+accessToken+":"+profileId, and afterwards the accessors answer from it, getName with its username |
| Auth.CachedLoginRejected | src/de/craften/craftenlauncher/logic/auth/AuthenticationService.java:73-87 | a rejected record returns null, clears the valid flag and changes nothing else, so the previous record and the disk stay and the accessors parse the response again |
| Auth.LastLoginPath | src/de/craften/craftenlauncher/logic/auth/AuthenticationService.java:241-247 | the path starts with the directory, ends with the separator and "lastLogin.json", and adds a separator only when the directory lacks one |
| Auth.LastLoginPathTrailingSeparator | src/de/craften/craftenlauncher/logic/auth/AuthenticationService.java:243-247 | a directory given with or without its trailing separator names the same file |
| Transport.ExecutePost | src/de/craften/craftenlauncher/logic/auth/AuthenticationService.java:179-228 | null when the exchange fails; otherwise a new string with each reply line followed by a carriage return |
| Transport.SplitFirstLine | src/de/craften/craftenlauncher/logic/auth/AuthenticationService.java:210-213 | a line without a carriage return, then the carriage return appended after it, splits off as exactly that line |
| Transport.SplitJoined | src/de/craften/craftenlauncher/logic/auth/AuthenticationService.java:209-213 | splitting the concatenated response on carriage returns gives back the reply's lines |
| Transport.JoinedEmpty | src/de/craften/craftenlauncher/logic/auth/AuthenticationService.java:209-215 | the response text is empty exactly when the reply has no lines |
| Json.Get | src/de/craften/craftenlauncher/logic/auth/AuthenticationService.java:130-131 | no value exactly when no member has the key; otherwise the value of the last member with that key |
| Json.ReadQuoted | src/de/craften/craftenlauncher/logic/auth/AuthenticationService.java:163-166 | a string escaped as Gson writes it, then a closing quote, reads back as the same string followed by the rest of the text |
| Json.QuoteInjective | src/de/craften/craftenlauncher/logic/auth/AuthenticationService.java:163-166 | two quoted strings that start equal texts are the same string, followed by the same rest |
| OsHelper.NormalizeOsName | src/main/java/de/craften/util/OSHelper.java:60-68 | the result is os.name itself or one of "windows", "linux", "osx", and a replaced name contains none of "Win", "Linux", "Mac" |
| OsHelper.OsAsEnum | src/main/java/de/craften/util/OSHelper.java:167-177 | UNDEFINED exactly for the names the constructor's normalisation leaves unchanged |
| OsHelper.JavaPath | src/main/java/de/craften/util/OSHelper.java:193-204 | starts with java.home, separator, "bin", separator, and ends with "java" or "javaw.exe" |
| OsHelper.MinecraftPath | src/main/java/de/craften/util/OSHelper.java:136-160 | empty exactly when the stored name is none of "windows", "linux", "mac"; otherwise ends with "minecraft" and the separator |
| OsHelper.NormalizeCases | src/main/java/de/craften/util/OSHelper.java:59-69 | first match wins: "Win" gives "windows", else "Linux" gives "linux", else "Mac" gives "osx", and a name matching none is kept |
| OsHelper.NormalizedNamesLackKeys | src/main/java/de/craften/util/OSHelper.java:167-177 | none of "windows", "linux" or "osx" contains "Win", "Linux" or "Mac" |
| OsHelper.OsAsEnumAlwaysUndefined | src/main/java/de/craften/util/OSHelper.java:167-177 | on any name the constructor has normalised, getOSasEnum returns UNDEFINED |
| OsHelper.OsAsString | src/main/java/de/craften/util/OSHelper.java:183-185 | the result has the stored name's length, and each character is the lower case of the corresponding one |
| OsHelper.OsAsStringIdempotent | src/main/java/de/craften/util/OSHelper.java:183-185 | lower-casing twice is lower-casing once |
| OsHelper.OsAsStringOfLowerCase | src/main/java/de/craften/util/OSHelper.java:183-185 | a name without capitals is returned unchanged |
| OsHelper.OsAsStringOfNormalized | src/main/java/de/craften/util/OSHelper.java:183-185 | unchanged for "windows", "linux" and "osx"; for an unrecognised os.name, the lower case of that name |
| OsHelper.OsArch | src/main/java/de/craften/util/OSHelper.java:109-129 | always "32" or "64", and "64" exactly when either processor variable ends with "64" |
| OsHelper.ArchListsDisjoint | src/main/java/de/craften/util/OSHelper.java:37-38 | no architecture name is in both lists, so at most one of the two tests holds |
| OsHelper.JavaPathIsAlwaysJava | src/main/java/de/craften/util/OSHelper.java:193-204 | whatever the system and the files, the path is java.home, separator, "bin", separator, "java" |
| OsHelper.MinecraftPathOfNormalized | src/main/java/de/craften/util/OSHelper.java:136-160 | Windows gives APPDATA/.minecraft/ and Linux user.home/.minecraft/, both ending with the separator; a Mac ("osx") gives ""; os.name "mac" gives the Application Support path; other names give "" |
| OsHelper.OsHelperStatics.constructor | src/main/java/de/craften/util/OSHelper.java:34-35 | before any helper exists there is no system name and no instance |
| OsHelper.OsHelper.constructor | src/main/java/de/craften/util/OSHelper.java:59-69 | the shared system name becomes the normalised os.name |
| OsHelper.OsHelper.GetInstance | src/main/java/de/craften/util/OSHelper.java:44-49 | the first call creates the helper and normalises the name; later calls return the same helper and change nothing |
| OsHelper.OsHelper.TestCreateInstance | src/main/java/de/craften/util/OSHelper.java:55-57 | a new helper, which re-normalises the shared name and leaves the singleton alone |
| OsHelper.OsHelper.IsJava32bit | src/main/java/de/craften/util/OSHelper.java:75-86 | true exactly when os.arch is "x86", "i386" or "i686"; null or empty gives false |
| OsHelper.OsHelper.IsJava64bit | src/main/java/de/craften/util/OSHelper.java:92-103 | true exactly when os.arch is "x64", "ia64" or "amd64"; null or empty gives false |

## Left out

- HTTP itself: the connection, the headers, the UTF-8 encoding of the body
  and `disconnect`. `executePost` keeps only its line concatenation and its
  null-on-exception rule, and the exchange is the `Wire` oracle.
- Logging through `Logger` and the `System.out.println` of the URL: output
  only.
- `genUUID`: randomness.
- `readLastLogin`: it only forwards to `JSONReader`, whose source is not
  part of this model.
- `JSONWriter.saveLastLogin`'s file format and location: the record is
  stored whole at the disk's `savePath`.
- The failure of `File.delete`: a delete that returns false or throws is
  not modelled, and the delete always succeeds.
- `getMinecraftPath`'s existence check and `mkdirs`: they do not change the
  returned path, so the model returns only the path.
- `File.isFile` in `getJavaPath`: it is a parameter that is never consulted,
  because the comparison before it is always false.
- Gson's parser: it is a parameter. Duplicate keys are read with the last
  one winning, as Gson's object keeps only the last. Numbers are kept as
  their literal text, so `version` is written as `1`.
- OsHelper.OsAsString: lower-cases only the letters A to Z, not the whole of
  Unicode with Java's locale rules.
- `synchronized` on `getInstance`, and the thread safety of both classes:
  concurrency.
- `System.getProperty` and `System.getenv`: their values are parameters.
  `os.name` is taken to be set, since the constructor dereferences it.
- Null record fields: a `LastLogin` holds strings, never null.
- Null arguments: the types exclude a null `LastLogin` for the cached login
  (a NullPointerException in the source), a null `minecraftDir` for
  `deleteLastLogin` (the same), and a null username or password, whose
  member `gson.toJson` leaves out of the request (nulls are not serialised).
- Java strings are sequences of UTF-16 code units; a Dafny `string` is a
  sequence of Unicode scalar values. A lone surrogate in a username or
  password cannot be represented, and lengths differ for characters outside
  the Basic Multilingual Plane. Nothing proved depends on string lengths in
  code units.
- The service's JSON parser is a constructor parameter rather than a new
  `JsonParser` in each method. This is a modelling device, and the parser
  is stateless.
- A logout operation: the class has none.
