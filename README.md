# zipacres in Dafny

A model of zipacres, a real-estate listing application. It has two parts:

- **Backend.** An Express server over two MongoDB collections, User and Property. It provides registration, login and Google sign-in, a JWT `protect`/`adminOnly` middleware, and create/read/update/delete of property listings by the admin who owns them. A leads controller over the users is written but never mounted.
- **Frontend.** A React app:
  - an auth context that mirrors the signed-in user into `localStorage`;
  - a property cache with an `idle → loading → succeeded | failed` fetch status;
  - a route guard with a table of which roles may see which page;
  - pages: admin dashboard, leads, add-property form, public listing with its price parser, one listing with its image gallery, home page with testimonials and locations, sign-up and sign-in.

Each source file is a module:

| source | module |
|---|---|
| `backend/models/User.js`, `backend/models/Property.js` | `UserModel`, `PropertyModel` |
| `backend/controllers/authController.js`, `addproperty.js`, `leads.js` | `AuthController`, `PropertyController`, `LeadsController` |
| `backend/middleware/auth.js`, `backend/routes/property.js`, `backend/server.js` | `AuthMiddleware`, `PropertyRoutes`, `Server` |
| `frontend/src/context/*`, `components/Protectedroute.jsx`, `App.jsx` | `AuthContext`, `PropertyContext`, `ProtectedRoute`, `AppRoutes` |
| `frontend/src/pages/...` | `Dashboard`, `LeadsPage`, `AddPropertyPage`, `ShowPropertyPage`, `PropertyDetailsPage`, `HomePage`, `SignupPage`, `SigninPage` |

Helper modules:
- `Wrappers`, `Text`, `Decimal`, `Json`, `Lists` and `Sorting` hold the language-level pieces. These are JavaScript values and truthiness, lowercase, trim, `split`, `includes`, and `filter`.
- `SchemaTypes` holds Mongoose's casting and unique indexes.
- `Crypto` holds concrete stand-ins for bcrypt, JSON web tokens and Google ID-token verification.
- `Env` holds the environment variables.

How the source's forms are modelled:
- A JSON document is a `map<string, Value>`.
- A MongoDB collection is a class holding `docs: map<Id, Doc>`. Its controllers are methods that return a status and change the map.
- The auth session and the property cache are classes whose methods update their fields.
- Home's `locationProjects` pushes into an accumulator, so it is a method with a loop.
- Everything else on the pages is functions plus lemmas.

The model also exposes mismatches between files. Each one is a lemma:
- The Property `type` enum refuses seven of the nine options the admin form offers.
- The dashboard and the listing page call context members the provider does not export, so their mount effects throw.
- The leads search reads a `phoneNumber` field that users do not have.
- A first Google sign-in always fails with 500, because the user it creates has no phone.
- Agents are turned away from every guarded page.

## Model

| member | source | states |
|---|---|---|
| UserModel.NewUser | backend/models/User.js:4-31 | a saved user satisfies every validator: a non-empty trimmed name, an email that matches the regex, a numeric phone, a password of at least 6 characters when present, and a role among user/admin/agent; it keeps only schema paths |
| UserModel.CastUser | backend/models/User.js:4-29 | strict casting keeps exactly the input keys that are schema paths, each cast by its path's type and setters |
| UserModel.Stamped | backend/models/User.js:24-30 | the stored user keeps every given field; role defaults to "user", contacted to false, note to "" and tags to []; both timestamps are the creation time |
| UserModel.NewUserRequiresPhone | backend/models/User.js:18-22 | an input without a phone is never saved |
| UserModel.NewUserDefaults | backend/models/User.js:24-30 | a saved user has the defaults for every missing defaulted field and createdAt equal to now |
| UserModel.NewUserEmail | backend/models/User.js:7-12 | the stored email is the input email lowercased and trimmed |
| UserModel.StoredCast | backend/models/User.js:4-29 | a given field other than the timestamps is stored, as the cast of its path's type and setters |
| UserModel.PasswordMinLength | backend/models/User.js:23 | a password shorter than 6 characters is refused |
| UserModel.RoleEnum | backend/models/User.js:24 | a role outside user/admin/agent is refused |
| UserModel.ValidEmailAccepts | backend/models/User.js:14 | the validator regex accepts a plain address |
| UserModel.ValidEmailJoin | backend/models/User.js:14 | a word-run local part, "@" and a domain with a 2-3 character suffix form a valid email |
| UserModel.ValidEmailAcceptsSubdomains | backend/models/User.js:14 | dotted local parts and several suffix groups ("ab.c@mail.co.in") are accepted |
| UserModel.ValidEmailRejectsLongSuffix | backend/models/User.js:14 | a final suffix longer than three characters is refused |
| UserModel.ValidEmailRejectsNoLocalPart | backend/models/User.js:14 | an address with nothing before "@" is refused |
| UserModel.FindByKey | backend/controllers/authController.js:28 | `findOne` on a uniquely indexed key returns the one user holding the value, and nothing only when no user holds it |
| UserModel.UserCollection.Insert | backend/models/User.js:7-22 | insertion fails, leaving the collection unchanged, exactly when the email or the phone clashes with a stored user; otherwise exactly one fresh id is added |
| UserModel.UserCollection.UpdateById | backend/controllers/leads.js:18-22 | an unknown id changes nothing; an update that clashes on email or phone changes nothing; otherwise only that user becomes the old record overwritten by the changes |
| SchemaTypes.CastNumber | backend/models/Property.js:6 | a Number path stores a number or null: null exactly for the empty text, and any other text exactly when `Number(text)` reads it, as that value |
| SchemaTypes.CastNumberBlank | backend/models/Property.js:6 | non-empty blank text, a no-break space included, is stored as 0 |
| SchemaTypes.CastNumberPadded | backend/models/User.js:18-22 | an integer written out, with white space around it, is stored as itself |
| SchemaTypes.CastNumberPlus | backend/models/User.js:18-22 | a leading plus sign is read |
| SchemaTypes.CastNumberHex | backend/models/Property.js:6 | a 0x numeral is read as hexadecimal |
| SchemaTypes.CastNumberSignedHex | backend/models/Property.js:6 | a sign before a 0x prefix is a cast error |
| Decimal.NumberOfIntText | frontend/src/pages/user/Showproperty.jsx:53 | `Number` reads back any integer `String` writes, whatever white space surrounds it |
| SchemaTypes.CastFields | backend/models/Property.js:3-25 | casting succeeds exactly when every schema-path field casts; the result has exactly those fields, each cast |
| SchemaTypes.StoreKeepsUnique | backend/models/User.js:10 | storing a record that clashes with no other keeps a unique index unique |
| PropertyModel.NewProperty | backend/models/Property.js:3-26 | a saved property satisfies every validator (required title, location, price, type, image and owner; the type and status enums) and keeps only schema paths |
| PropertyModel.CastProperty | backend/models/Property.js:3-25 | strict casting keeps exactly the schema-path fields, each cast by its type |
| PropertyModel.WithDefaults | backend/models/Property.js:9-24 | missing bedrooms and bathrooms become 0, gallery [], status "listed", createdAt now; given fields are kept |
| PropertyModel.NewPropertyRequires | backend/models/Property.js:4-17 | a saved property had title, location, price, type, image and ownerId in its input |
| PropertyModel.KeptFromInput | backend/models/Property.js:3-25 | every non-defaulted field of a saved property came from the input |
| PropertyModel.StoredCast | backend/models/Property.js:3-17 | a stored field without a default came from the input and is its cast by the path's type |
| PropertyModel.TypeEnum | backend/models/Property.js:7 | a saved property's type is one of Apartment, House, Land, Villa, Office, as given |
| PropertyModel.TypeEnumRejects | backend/models/Property.js:7 | any other type string is refused |
| PropertyModel.PriceIsNumber | backend/models/Property.js:6 | a saved price is a number |
| PropertyModel.NewPropertyDefaults | backend/models/Property.js:9-24 | with none of the defaulted fields given, bedrooms and bathrooms are 0, gallery empty, status "listed", createdAt now |
| PropertyModel.NewPropertyFromForm | backend/models/Property.js:17-24 | a saved property built without status or createdAt is listed, dated now and owned by the given owner |
| PropertyModel.PropertyCollection.Insert | backend/controllers/addproperty.js:46 | exactly one record is added under a fresh id |
| PropertyModel.PropertyCollection.UpdateById | backend/controllers/addproperty.js:152-156 | an unknown id changes nothing; otherwise only that record becomes the old record overwritten by the changes, and it is returned |
| PropertyModel.PropertyCollection.DeleteById | backend/controllers/addproperty.js:185 | exactly that record is removed |
| Collections.FindWhere | backend/controllers/leads.js:7 | `find` returns exactly the stored records that match, each once |
| Env.OrElse | backend/controllers/authController.js:8-10 | `process.env.X \|\| fallback`: the variable when set and non-empty, else the fallback |
| Env.LoadsIffGoogleClientId | backend/controllers/authController.js:12-14 | the controller loads exactly when GOOGLE_CLIENT_ID is set and non-empty (the other two always have fallbacks) |
| Crypto.CompareHash | backend/controllers/authController.js:73 | a password matches the hash of a stored password exactly when the two are equal |
| Crypto.HashIsNotPlaintext | backend/controllers/authController.js:37-42 | a hash never equals the password, and nothing matches an empty hash |
| Crypto.VerifySign | backend/middleware/auth.js:28 | a signed token verifies exactly when the verifying key is the signing key, and then yields the signed id and role |
| Crypto.VerifyIdToken | backend/controllers/authController.js:101-104 | an ID token yields a profile exactly when Google issued it for the given client id (the audience), and then the profile it was issued with |
| AuthController.Issue | backend/controllers/authController.js:47 | the token carries the user's id and role and verifies under the JWT secret it was signed with |
| AuthController.RegisterGuard | backend/controllers/authController.js:22-35 | registration goes ahead exactly when name, email, password and role are present, no user holds the email, and the admin code is right when the role is admin; every early reply has no token and no user |
| AuthController.RegisterMissingField | backend/controllers/authController.js:24-26 | any missing or falsy name, email, password or role gives 400 "All fields are required" |
| AuthController.RegisterDuplicateFirst | backend/controllers/authController.js:28-31 | a taken email gives 409, whatever the role and admin code |
| AuthController.RegisterAdminCode | backend/controllers/authController.js:33-35 | a fresh email with role admin and the wrong code gives 403 "Invalid admin code" |
| AuthController.RegisterInput | backend/controllers/authController.js:37-44 | the new user gets the hash of the password, never the plaintext; the phone is passed on only when asked to |
| AuthController.Create | backend/controllers/authController.js:39-45 | a user is stored, under a fresh id and with nothing else changed, exactly when the schema accepts the input and no stored user holds its email or phone; otherwise nothing changes |
| AuthController.CreateAndReply | backend/controllers/authController.js:39-54 | the success status exactly when the schema accepts the input and neither its email nor its phone is taken: then one fresh user is stored and the reply holds its token and its public fields (no password); otherwise 500 and the collection is unchanged |
| AuthController.Register | backend/controllers/authController.js:19-58 | the guard's early replies as above; past the guards the reply is always 500 "Server error", and no user is ever created |
| AuthController.RegisterWithPhone | backend/controllers/authController.js:19-58 | register with the phone passed on: 201 exactly when the guards pass, the schema accepts the record and neither its email nor its phone is taken; then exactly one fresh user is added, holding the password hash, and the reply holds its token and public fields; any other status changes nothing |
| AuthController.RegisterWithPhoneAccepts | backend/controllers/authController.js:19-54 | a complete sign-up with a phone, from an email and phone no user holds, passes every guard and validator and is admitted by the unique indexes, so it is answered 201 |
| UserModel.NewUserKeepsPassword | backend/controllers/authController.js:37-42 | the stored password is exactly the hashed one that was given |
| AuthController.Login | backend/controllers/authController.js:61-88 | 400 exactly when the email or password is missing; every 401 is the same "Invalid email or password"; 200 only for a stored user whose hash matches, with that user's token and public fields |
| AuthController.LoginHidesWhichFailed | backend/controllers/authController.js:68-76 | an unknown email and a wrong password get identical replies |
| AuthController.LoginAfterRegister | backend/controllers/authController.js:73-84 | the right password for a stored hash logs in, and the token verifies to that user's id and role |
| AuthController.NoPasswordNoLogin | backend/controllers/authController.js:73-76 | a user without a password (a Google account) can never log in with one |
| AuthController.GoogleProfileOf | backend/controllers/authController.js:94-110 | without a tokenId the body's email and name are trusted unverified; with one, a profile exactly when Google issued the token for GOOGLE_CLIENT_ID, and then that profile's email and name |
| AuthController.GoogleAuth | backend/controllers/authController.js:93-152 | the collection never changes and the reply is never "Signup successful"; 200 "Login successful" with the user's token exactly when the profile's email finds a stored user; otherwise 500 "Google authentication failed" |
| AuthController.GoogleSignInBypass | backend/controllers/authController.js:95-113 | a body with no tokenId naming any stored user's email is taken to that user, so Google sign-in hands out that user's token unverified |
| AuthMiddleware.BearerToken | backend/middleware/auth.js:27 | a token is read exactly when the header splits into more than one word on spaces |
| AuthMiddleware.ProtectWith | backend/middleware/auth.js:22-44 | a missing or non-"Bearer" header gives 401 "No token"; every refusal is 401; passing sets the caller to a stored user with the password removed |
| AuthMiddleware.Protect | backend/middleware/auth.js:3 | `protect` as written, verifying with "ZIPCARE": a caller it passes carries no password |
| AuthMiddleware.ProtectConfigured | backend/middleware/auth.js:22-44 | `protect` verifying with the configured JWT secret: a caller it passes carries no password |
| AuthMiddleware.AdminOnly | backend/middleware/auth.js:46-52 | next runs exactly when there is a caller whose role is "admin"; otherwise 403 "Access denied: Admins only" |
| AuthMiddleware.BearerTokenOf | backend/middleware/auth.js:25-27 | a token sent as "Bearer <token>" passes the prefix test and is read back unchanged |
| AuthMiddleware.ProtectAcceptsIff | backend/middleware/auth.js:25-38 | a signed token for a stored user passes exactly when the signing and verifying keys agree, yielding that user; otherwise 401 "Invalid token"; for every role and every key, spaces included |
| AuthMiddleware.ProtectUnknownUser | backend/middleware/auth.js:30-33 | a valid token whose id matches no user gives 401 "User not found" |
| AuthMiddleware.ConfiguredSecretLocksOut | backend/middleware/auth.js:3 | with JWT_SECRET set to anything but "ZIPCARE", every token register and login issue is refused with 401 "Invalid token" |
| AuthMiddleware.ConfiguredSecretAccepts | backend/middleware/auth.js:22-44 | verifying with the configured secret accepts every token the controller issues, as that user without the password |
| AuthMiddleware.DefaultSecretAccepts | backend/middleware/auth.js:3 | without JWT_SECRET, issued tokens pass `protect` |
| AuthMiddleware.LegacyAuth | backend/middleware/auth.js:6-19 | the first middleware passes only a header whose token, after removing "Bearer ", verifies under "ZIPCARE" |
| AuthMiddleware.Exported | backend/middleware/auth.js:54-57 | the module exports the last value assigned to module.exports |
| AuthMiddleware.LastAssignmentWins | backend/middleware/auth.js:54-57 | a further assignment to module.exports replaces the earlier export |
| AuthMiddleware.LegacyIsDead | backend/middleware/auth.js:54-57 | the exported value is { protect, adminOnly }, not the first middleware |
| PropertyController.AddInput | backend/controllers/addproperty.js:13-44 | the new property holds exactly the form fields given in the body, unchanged, plus the caller as owner |
| PropertyController.AddInputIgnoresStatus | backend/controllers/addproperty.js:13-44 | a status or creation time in the body never reaches the new property; the owner is always the caller |
| PropertyController.AddedProperty | backend/controllers/addproperty.js:32-46 | a saved new property is listed, dated now and owned by the caller |
| PropertyController.AddProperty | backend/controllers/addproperty.js:4-65 | a non-admin gets 403 and a missing required field 400; 201 exactly for an admin with every required field whose listing the schema accepts: then exactly one record is added, the caller's; any other reply changes nothing |
| PropertyController.ZeroPriceIsMissing | backend/controllers/addproperty.js:26-30 | a price of 0 or "" counts as missing |
| PropertyController.GetAllProperties | backend/controllers/addproperty.js:69-81 | exactly the listed records, each once, newest createdAt first, whoever asks |
| PropertyController.GetMyProperties | backend/controllers/addproperty.js:84-111 | 401 without a caller, 403 for a non-admin, else exactly the caller's own records, listed or not |
| PropertyController.GetPropertyById | backend/controllers/addproperty.js:114-131 | the record under the id, 404 for an unknown id, 500 for an id that is not one |
| PropertyController.OwnerCheck | backend/controllers/addproperty.js:142-150 | the check passes exactly for an admin who owns the record; a non-admin or another admin gets 403 |
| PropertyController.UpdateProperty | backend/controllers/addproperty.js:134-164 | 404 for an unknown id before any ownership check; 403 from the owner check; for the owning admin only that record changes, overwritten by the cast body, and is returned; any other reply changes nothing |
| PropertyController.UpdateTouchesOnlyBodyFields | backend/controllers/addproperty.js:152-156 | an update sets exactly the schema fields present in the body and leaves every other field as it was |
| PropertyController.DeleteProperty | backend/controllers/addproperty.js:167-192 | 404 for an unknown id, 403 from the owner check; for the owning admin exactly that record is removed and all others are kept |
| PropertyController.OwnerSummary | backend/controllers/addproperty.js:48-51 | the populated owner holds only the selected paths name, email and phoneNumber, so neither phone, password, role, tags nor the timestamps; `populate` also returns the owner's `_id`, which the model keeps as the record's key rather than as a field; each is the stored value, and each of the three the user has is present |
| LeadsController.GetLeads | backend/controllers/leads.js:5-13 | exactly the users whose role is "user", each once, with every stored field |
| LeadsController.LeadsExposePasswords | backend/controllers/leads.js:7-8 | admins and agents are left out, and each lead is returned whole, its password hash included |
| LeadsController.LeadChanges | backend/controllers/leads.js:18-22 | a cast error exactly when some body field that is a user path does not cast; otherwise exactly those fields are written, each as its cast, plus updatedAt set to now, and nothing else |
| LeadsController.RoleIsNotGuarded | backend/controllers/leads.js:18-22 | a body can set any role, "admin" included |
| LeadsController.RoleCastAsIs | backend/controllers/leads.js:18-22 | an update casts a role without checking the enum |
| LeadsController.UpdateLead | backend/controllers/leads.js:16-29 | 500 for an id or body that does not cast, 404 for an unknown id; for a stored user the updated lead is returned exactly when the merged record shares no email or phone with another user, and then only that user changes; any other reply changes nothing |
| PropertyRoutes.Lookup | backend/routes/property.js:8-15 | the route chosen is one whose method and pattern match, and no route means none matched |
| PropertyRoutes.ChainsGuarded | backend/routes/property.js:8-15 | every route runs protect first; POST, PUT and DELETE run exactly protect then adminOnly; no GET runs adminOnly |
| PropertyRoutes.MyBeforeId | backend/routes/property.js:8-10 | "/my" would match "/:id", yet GET "/my" reaches getMyProperties |
| PropertyRoutes.IdRoute | backend/routes/property.js:10-15 | any other single segment reaches getPropertyById on GET and updateProperty behind adminOnly on PUT |
| PropertyRoutes.PutById | backend/routes/property.js:14 | a PUT to any one-segment path reaches updateProperty, since no earlier route is a PUT |
| PropertyRoutes.Dispatch | backend/routes/property.js:8-15 | an unmatched path gives 404 and a refused token 401, changing nothing; the collection changes only on a non-GET request by a verified admin |
| PropertyRoutes.WritesAreNotGets | backend/routes/property.js:13-15 | the add, update and delete handlers are only reached by POST, PUT and DELETE |
| PropertyRoutes.RunHandler | backend/routes/property.js:13-15 | only add, update and delete run by an admin can change the collection |
| Server.Cors | backend/server.js:16-24 | a refused origin gets the error "Not allowed by CORS" |
| Server.CorsAllowsIff | backend/server.js:14-20 | an origin is allowed exactly when it is absent or exactly one of the two listed origins |
| Server.CorsIsExact | backend/server.js:19 | a trailing slash or another scheme is refused |
| Server.Reachable | backend/server.js:35-36 | every handler of a mounted router is reachable |
| Server.UnmountedHandlers | backend/server.js:31-36 | the leads and OTP handlers are unreachable; every auth and property handler is reachable |
| AuthContext.ParseSerialise | frontend/src/context/AuthContext.jsx:12-19 | reading back the stored serialisation gives the same user |
| AuthContext.Session.IsAuthenticated | frontend/src/context/AuthContext.jsx:36 | holds exactly when there is a user |
| AuthContext.Session.IsAdmin | frontend/src/context/AuthContext.jsx:37 | holds exactly when the user's role is "admin", and implies IsAuthenticated |
| AuthContext.Session.RendersChildren | frontend/src/context/AuthContext.jsx:40 | children render exactly when loading is over |
| AuthContext.Session.constructor | frontend/src/context/AuthContext.jsx:6-7 | no user, loading, and the browser's storage |
| AuthContext.Session.Restore | frontend/src/context/AuthContext.jsx:10-14 | a stored "authUser" becomes the user and loading ends; an unparsable one throws and leaves the state; storage is not touched |
| AuthContext.Session.Persist | frontend/src/context/AuthContext.jsx:17-23 | storage holds the user's serialisation, or loses "authUser" when there is no user; nothing else changes |
| AuthContext.Session.Mount | frontend/src/context/AuthContext.jsx:10-23 | after mounting, storage mirrors the user restored from "authUser" and children render; other keys are untouched; an unparsable entry throws and nothing renders |
| AuthContext.Session.Reload | frontend/src/context/AuthContext.jsx:10-23 | a page reload with a stored user restores exactly that user |
| AuthContext.Session.SetUser | frontend/src/context/AuthContext.jsx:17-23 | the new user is set and mirrored under "authUser"; loading is kept |
| AuthContext.Session.Logout | frontend/src/context/AuthContext.jsx:25-28 | no user, not authenticated and not admin; only "authUser" is removed from storage |
| PropertyContext.Prepend | frontend/src/context/PropertyContext.jsx:94-96 | the new item comes first and the rest follow in order |
| PropertyContext.ReplaceById | frontend/src/context/PropertyContext.jsx:98-102 | same length; exactly the items with a matching _id are replaced |
| PropertyContext.RemoveById | frontend/src/context/PropertyContext.jsx:104-106 | every item with the _id is removed and every other item is kept |
| PropertyContext.RemoveByIdAppend | frontend/src/context/PropertyContext.jsx:104-106 | removal distributes over concatenation, so relative order is kept |
| PropertyContext.RemoveByIdAbsent | frontend/src/context/PropertyContext.jsx:104-106 | removing an absent _id changes nothing |
| PropertyContext.AddThenDelete | frontend/src/context/PropertyContext.jsx:94-106 | deleting what was just added is the same as deleting from the list before |
| PropertyContext.ReplaceByIdIdempotent | frontend/src/context/PropertyContext.jsx:98-102 | updating twice is updating once |
| PropertyContext.CallMember | frontend/src/context/PropertyContext.jsx:113-123 | calling a context member works exactly when the provider exports that name |
| PropertyContext.PagesCallMissingMembers | frontend/src/context/PropertyContext.jsx:113-123 | fetchProperties and fetchallProperties throw a TypeError; fetchAllProperties does not |
| PropertyContext.PropertyStore.constructor | frontend/src/context/PropertyContext.jsx:17-21 | an empty list, not loading, status idle |
| PropertyContext.PropertyStore.StartFetchAll | frontend/src/context/PropertyContext.jsx:55-62 | a fetch starts exactly from idle or failed, setting loading and status loading; otherwise nothing changes |
| PropertyContext.PropertyStore.SettleFetchAll | frontend/src/context/PropertyContext.jsx:63-83 | success stores data.data or [] and status succeeded; failure stores [] and status failed; loading ends either way |
| PropertyContext.PropertyStore.FetchAll | frontend/src/context/PropertyContext.jsx:55-84 | a no-op while loading or after success; otherwise the settled state of the answer |
| PropertyContext.PropertyStore.StatusEffect | frontend/src/context/PropertyContext.jsx:88-92 | the effect fetches only from idle, so a failure is not retried |
| PropertyContext.PropertyStore.ForceRefresh | frontend/src/context/PropertyContext.jsx:109-111 | the status returns to idle and nothing else changes |
| PropertyContext.PropertyStore.FetchMine | frontend/src/context/PropertyContext.jsx:24-52 | does nothing unless the user is an admin; then stores data.data or [] and ends loading; the status is never touched |
| PropertyContext.PropertyStore.Add | frontend/src/context/PropertyContext.jsx:94-96 | the list becomes the prepended list; loading and status are kept |
| PropertyContext.PropertyStore.Update | frontend/src/context/PropertyContext.jsx:98-102 | the list becomes the replaced list; loading and status are kept |
| PropertyContext.PropertyStore.Delete | frontend/src/context/PropertyContext.jsx:104-106 | the list becomes the filtered list; loading and status are kept |
| ProtectedRoute.Guard | frontend/src/components/Protectedroute.jsx:5-20 | no user goes to /login whatever the roles; a role outside the list goes to "/"; those are the only redirects |
| ProtectedRoute.GuardAdmitsIff | frontend/src/components/Protectedroute.jsx:5-20 | the children show exactly for a user when no roles are given or the role is listed |
| ProtectedRoute.NoRolesAdmitsAnyUser | frontend/src/components/Protectedroute.jsx:14-19 | without a roles list every signed-in user is admitted |
| ProtectedRoute.EmptyRolesAdmitNobody | frontend/src/components/Protectedroute.jsx:14-16 | an empty roles list admits nobody |
| AppRoutes.AccessOf | frontend/src/App.jsx:23-66 | a path has an access rule exactly when the table declares it |
| AppRoutes.Visit | frontend/src/App.jsx:23-66 | looked up by route pattern (such as "/properties/:id"), not by URL: a declared pattern renders something; a public one always renders its page |
| AppRoutes.AdminPagesAdmitOnlyAdmins | frontend/src/App.jsx:34-64 | the dashboard, add-property and leads pages show exactly for admins |
| AppRoutes.AdminAccess | frontend/src/App.jsx:34-64 | the dashboard, add-property and leads paths are guarded with the roles ["admin"] |
| AppRoutes.MemberPagesAdmitUsersAndAdmins | frontend/src/App.jsx:27-56 | /properties/:id and /contact show exactly for users and admins |
| AppRoutes.MemberAccess | frontend/src/App.jsx:27-56 | the contact and details paths are guarded with the roles ["user", "admin"] |
| AppRoutes.ListingIsPublic | frontend/src/App.jsx:45-48 | /properties shows to everyone, signed in or not |
| AppRoutes.AgentsLockedOut | frontend/src/App.jsx:27-64 | an agent is redirected to "/" from every guarded page |
| LeadsPage.WithCountryPrefix | frontend/src/pages/admin/Leads.jsx:27-36 | the number shown always starts with "+91" |
| LeadsPage.FormatPhoneNumbers | frontend/src/pages/admin/Leads.jsx:23-39 | "No phone" exactly for a falsy phone; otherwise the prefixed number |
| LeadsPage.WithCountryPrefixTrimmed | frontend/src/pages/admin/Leads.jsx:27-36 | the formatted number has no surrounding spaces |
| LeadsPage.WithCountryPrefixIdempotent | frontend/src/pages/admin/Leads.jsx:27-36 | formatting a formatted number changes nothing |
| LeadsPage.TenDigitsStartingNinetyOne | frontend/src/pages/admin/Leads.jsx:32-35 | a ten-digit number beginning with 91 loses those two digits and shows only eight after "+91" |
| LeadsPage.LeadingZeroDropped | frontend/src/pages/admin/Leads.jsx:30-31 | a leading 0 is replaced by "+91" |
| LeadsPage.InitMaps | frontend/src/pages/admin/Leads.jsx:67-72 | both maps have exactly the leads' ids; for each id the last lead's contacted (or false) and note (or "") |
| LeadsPage.SavePayload | frontend/src/pages/admin/Leads.jsx:93-97 | lastContactedAt is now exactly when contacted is truthy, else null; contacted and note are sent as given |
| LeadsPage.ReplaceLead | frontend/src/pages/admin/Leads.jsx:112-114 | same length; exactly the leads with the id become the updated lead |
| LeadsPage.Filtered | frontend/src/pages/admin/Leads.jsx:152-169 | a subsequence of the leads holding exactly those that match the search and the tab |
| LeadsPage.EmptySearchShowsAll | frontend/src/pages/admin/Leads.jsx:152-169 | the "all" tab with no search shows every lead |
| LeadsPage.SearchIgnoresPhone | frontend/src/pages/admin/Leads.jsx:154-158 | for a stored user, which has no phoneNumber field, a search matches only on name or email |
| LeadsPage.TabCount | frontend/src/pages/admin/Leads.jsx:210-213 | a tab count never exceeds the number of leads |
| LeadsPage.TabCountsAddUp | frontend/src/pages/admin/Leads.jsx:210-213 | the contacted and uncontacted counts add up to the number of leads |
| Dashboard.Filtered | frontend/src/pages/admin/Dashboard.jsx:77-81 | a subsequence holding exactly the listings whose title contains the search, ignoring case, and whose type is the chosen one, if any |
| Dashboard.NoFilterShowsAll | frontend/src/pages/admin/Dashboard.jsx:77-81 | with no search and no type every listing is shown, in order |
| Dashboard.TotalPages | frontend/src/pages/admin/Dashboard.jsx:82 | the ceiling of the count divided by 5 |
| Dashboard.PageOf | frontend/src/pages/admin/Dashboard.jsx:83-86 | a page holds at most 5 listings |
| Dashboard.PastLastPageIsEmpty | frontend/src/pages/admin/Dashboard.jsx:83-86 | a page past the last one, left over after filtering, is empty |
| Dashboard.PageContents | frontend/src/pages/admin/Dashboard.jsx:83-86 | page p is the listings from (p-1)*5, five or up to the end |
| Dashboard.PagesUpToPrefix | frontend/src/pages/admin/Dashboard.jsx:83-86 | the first k pages together are the first 5k listings |
| Dashboard.AllPagesGiveTheList | frontend/src/pages/admin/Dashboard.jsx:82-86 | pages 1 to totalPages together are the filtered list |
| Dashboard.Prev | frontend/src/pages/admin/Dashboard.jsx:244 | never below 1, and one back otherwise |
| Dashboard.Next | frontend/src/pages/admin/Dashboard.jsx:251 | never past totalPages, and one on otherwise |
| Dashboard.ButtonsStayInRange | frontend/src/pages/admin/Dashboard.jsx:243-256 | from a page in range both buttons stay in range |
| Dashboard.ShowsPagination | frontend/src/pages/admin/Dashboard.jsx:237 | the controls show exactly when not loading with more than one page |
| Dashboard.UserName | frontend/src/pages/admin/Dashboard.jsx:88 | never empty: the name when there is one; with an empty name, the email before "@" when that is not empty, else "Admin" |
| Dashboard.EmailHead | frontend/src/pages/admin/Dashboard.jsx:88 | a prefix of the email without "@" |
| Dashboard.EmailHeadIsFirstPiece | frontend/src/pages/admin/Dashboard.jsx:88 | it is the first piece of splitting on "@" |
| Dashboard.MountEffect | frontend/src/pages/admin/Dashboard.jsx:33-37 | the effect calls the fetch exactly for an admin |
| Dashboard.AdminMountThrows | frontend/src/pages/admin/Dashboard.jsx:24-37 | for an admin that call is to an unexported member and throws a TypeError |
| AddPropertyPage.InitialFormShape | frontend/src/pages/admin/Addproperty.jsx:12-24 | five empty gallery slots, unit "sqft", type "Apartment" |
| AddPropertyPage.FormTypesAccepted | frontend/src/pages/admin/Addproperty.jsx:172-180 | of the nine form options, only Apartment and Villa are in the schema's enum |
| AddPropertyPage.RejectedFormType | frontend/src/pages/admin/Addproperty.jsx:172-180 | a property sent with any of the other seven types is refused by the schema |
| AddPropertyPage.ConvertToSqFt | frontend/src/pages/admin/Addproperty.jsx:64-75 | sqyd and gaj multiply by 9; sqft and any other unit leave the area as is |
| AddPropertyPage.GalleryChange | frontend/src/pages/admin/Addproperty.jsx:29-33 | only slot i changes; the length and every other slot and field are kept |
| AddPropertyPage.Flip | frontend/src/pages/admin/Addproperty.jsx:53-57 | the mode always changes |
| AddPropertyPage.ToggleUploadMode | frontend/src/pages/admin/Addproperty.jsx:51-61 | the chosen slot's mode flips and its image is cleared; nothing else changes; an unknown target changes nothing |
| AddPropertyPage.ToggleTwice | frontend/src/pages/admin/Addproperty.jsx:51-61 | toggling twice restores the modes, with the image still cleared |
| AddPropertyPage.FormToSend | frontend/src/pages/admin/Addproperty.jsx:89-94 | every form field but areaUnit, with the area converted to square feet |
| AddPropertyPage.Submit | frontend/src/pages/admin/Addproperty.jsx:80-100 | without a user token an alert and no request; otherwise the converted form sent with the bearer token |
| ShowPropertyPage.NumericText | frontend/src/pages/user/Showproperty.jsx:11 | exactly the digits and dots of the text, in order |
| ShowPropertyPage.LeadingDecimal | frontend/src/pages/user/Showproperty.jsx:11 | parseFloat of that text is never negative |
| ShowPropertyPage.LeadingDecimalOfDigits | frontend/src/pages/user/Showproperty.jsx:11 | parseFloat of a run of digits is its decimal value |
| ShowPropertyPage.ParsePrice | frontend/src/pages/user/Showproperty.jsx:7-18 | never negative, and 0 for a falsy price |
| ShowPropertyPage.NumberPriceReadsAsItself | frontend/src/pages/user/Showproperty.jsx:7-18 | a positive numeric price is read as itself |
| ShowPropertyPage.DigitsThenWord | frontend/src/pages/user/Showproperty.jsx:10-11 | for digits followed by a lowercase word, the number part is the digits' value |
| ShowPropertyPage.WrittenInCrore | frontend/src/pages/user/Showproperty.jsx:14 | "N crore" reads as N times 10,000,000 |
| ShowPropertyPage.WrittenInLakh | frontend/src/pages/user/Showproperty.jsx:15 | "N lakh" reads as N times 100,000 |
| ShowPropertyPage.NoCroreInLakh | frontend/src/pages/user/Showproperty.jsx:14-15 | "N lakh" does not contain "crore", so the lakh branch is the one taken |
| ShowPropertyPage.Edit | frontend/src/pages/user/Showproperty.jsx:24-30 | editing changes the pending filters and leaves the applied ones |
| ShowPropertyPage.ApplyFilters | frontend/src/pages/user/Showproperty.jsx:34 | the applied filters become the pending ones |
| ShowPropertyPage.FilteredList | frontend/src/pages/user/Showproperty.jsx:40-60 | never longer than the list |
| ShowPropertyPage.DefaultShowsAll | frontend/src/pages/user/Showproperty.jsx:24-60 | the default filters show the whole list |
| ShowPropertyPage.FilteredListMembers | frontend/src/pages/user/Showproperty.jsx:40-60 | a listing is shown exactly when it matches every set filter: search on title or location ignoring case, the type, and the price range |
| ShowPropertyPage.PriceRangeInclusive | frontend/src/pages/user/Showproperty.jsx:52-58 | whatever type is chosen, a listing of that type is shown exactly when its price lies in the range, both bounds included |
| ShowPropertyPage.MountCallThrows | frontend/src/pages/user/Showproperty.jsx:22-38 | the mount effect calls an unexported member and throws a TypeError |
| PropertyDetailsPage.KeyOf | frontend/src/pages/user/PropertyDetails.jsx:36 | _id when truthy, else id |
| PropertyDetailsPage.Find | frontend/src/pages/user/PropertyDetails.jsx:36 | the first listing whose key reads as the route id, and nothing exactly when none does |
| PropertyDetailsPage.Lookup | frontend/src/pages/user/PropertyDetails.jsx:35-44 | the listing is shown exactly when found; a redirect to /properties exactly when not found and loading is over |
| PropertyDetailsPage.ListedIsFound | frontend/src/pages/user/PropertyDetails.jsx:35-44 | a listing whose key is the route id is always shown |
| PropertyDetailsPage.AllImages | frontend/src/pages/user/PropertyDetails.jsx:64-69 | the cover first if truthy, then every gallery entry that differs from it and nothing else, never the cover again |
| PropertyDetailsPage.CoverShownOnce | frontend/src/pages/user/PropertyDetails.jsx:64-69 | the cover appears at index 0 and nowhere else |
| PropertyDetailsPage.GalleryWithoutCover | frontend/src/pages/user/PropertyDetails.jsx:64-69 | a gallery not repeating the cover is shown whole after it |
| PropertyDetailsPage.ActiveImage | frontend/src/pages/user/PropertyDetails.jsx:70 | the image at the index when in range and truthy, else "" |
| PropertyDetailsPage.NavigateImage | frontend/src/pages/user/PropertyDetails.jsx:72-78 | nothing with at most one image; otherwise always in range, and the plain step when it stays in range |
| PropertyDetailsPage.ArrowsWrapAround | frontend/src/pages/user/PropertyDetails.jsx:72-78 | a step of 1 or -1 moves round a circle: (index + step + n) mod n |
| PropertyDetailsPage.ArrowsUndoEachOther | frontend/src/pages/user/PropertyDetails.jsx:72-78 | left undoes right and right undoes left |
| PropertyDetailsPage.ArrowsKeepAnImage | frontend/src/pages/user/PropertyDetails.jsx:70-78 | after an arrow the index is in range and the active image is the one there |
| PropertyDetailsPage.SimilarProperties | frontend/src/pages/user/PropertyDetails.jsx:81-87 | at most 3, in list order, all with another key and the same location; the first three such listings |
| PropertyDetailsPage.FewSimilarAllShown | frontend/src/pages/user/PropertyDetails.jsx:81-87 | with three or fewer similar listings every one is shown |
| HomePage.NextTestimonial | frontend/src/pages/Home.jsx:162-164 | stays in [0, n): one on, or back to 0 from the last |
| HomePage.PrevTestimonial | frontend/src/pages/Home.jsx:166-170 | stays in [0, n): one back, or to the last from 0 |
| HomePage.NextPrevUndo | frontend/src/pages/Home.jsx:162-170 | next and prev undo each other |
| HomePage.AdvanceIsRotation | frontend/src/pages/Home.jsx:372-377 | k automatic advances land on (i + k) mod n |
| HomePage.CarouselCycles | frontend/src/pages/Home.jsx:224-296 | on the page's eight testimonials, eight presses of "next" show the same one again and fewer never do |
| HomePage.HandleSubscribe | frontend/src/pages/Home.jsx:154-160 | submitted becomes true exactly when the email has a non-space character (or already was) |
| HomePage.Locations | frontend/src/pages/Home.jsx:352-359 | each location appears once |
| HomePage.LocationsMembers | frontend/src/pages/Home.jsx:352-359 | a key is a location exactly when some listing has it (its location, or "Other") |
| HomePage.GroupMembership | frontend/src/pages/Home.jsx:352-359 | a listing is in a group exactly when the group is its own location, so it is in exactly one |
| HomePage.GroupAbsent | frontend/src/pages/Home.jsx:352-359 | a key that is no listing's location has an empty group |
| HomePage.LocationProjects | frontend/src/pages/Home.jsx:352-359 | the keys are exactly the locations in first-seen order, and each group holds that location's listings in input order |
| HomePage.Entries | frontend/src/pages/Home.jsx:361 | one entry per key, in key order, with its group |
| HomePage.TopLocations | frontend/src/pages/Home.jsx:361-363 | min(count, 4) entries from the input, largest group first; every entry left out is no larger than any kept |
| HomePage.TopLocationsOf | frontend/src/pages/Home.jsx:352-363 | at most 4 groups, sorted by size and taken from the grouping; four when there are four locations; no location left out is larger |
| HomePage.TopAreGroups | frontend/src/pages/Home.jsx:352-363 | every top entry is a location with its whole group |
| HomePage.TopAreLargest | frontend/src/pages/Home.jsx:352-363 | every location left out is no larger than any kept |
| SignupPage.IsStrongPassword | frontend/src/pages/auth/Signup.jsx:49-51 | exactly: at least 6 characters, an A-Z letter and a digit |
| SignupPage.NoCapitalNotStrong | frontend/src/pages/auth/Signup.jsx:49-51 | without a capital, no length is enough |
| SignupPage.ShortestStrong | frontend/src/pages/auth/Signup.jsx:49-51 | "Abcde1" passes; five characters or no capital fail |
| SignupPage.Validate | frontend/src/pages/auth/Signup.jsx:58-66 | the phone message exactly when a +91 phone is not 10 characters; else the password message exactly when it is weak; no error exactly when both pass |
| SignupPage.PhoneCheckedFirst | frontend/src/pages/auth/Signup.jsx:58-66 | a bad phone is reported even when the password is weak |
| SignupPage.InitialFormRefused | frontend/src/pages/auth/Signup.jsx:33-61 | the form as it opens fails the phone check |
| SignupPage.RequestBody | frontend/src/pages/auth/Signup.jsx:74 | exactly the six form fields and the role, as given |
| SignupPage.EmptyNameRefusedByServer | frontend/src/pages/auth/Signup.jsx:74 | an empty name passes the page but register answers 400 "All fields are required" |
| SignupPage.HandleResponse | frontend/src/pages/auth/Signup.jsx:77-85 | an error exactly when success is falsy, with the server's message or "Registration failed", and storage unchanged; otherwise the token is stored |
| SignupPage.FailureKeepsToken | frontend/src/pages/auth/Signup.jsx:78-83 | a failure leaves any stored token as it was |
| SigninPage.Guard | frontend/src/pages/auth/Signin.jsx:44-47 | "Please fill all fields." exactly when the email or password is empty |
| SigninPage.LandingPage | frontend/src/pages/auth/Signin.jsx:64-68 | /admin/dashboard exactly for an admin, /properties for everyone else |
| SigninPage.LandingAdmits | frontend/src/pages/auth/Signin.jsx:64-68 | the page a user lands on lets that user in |
| SigninPage.WithToken | frontend/src/pages/auth/Signin.jsx:60 | the session user keeps the server's role and carries the token |
| SigninPage.HandleSubmit | frontend/src/pages/auth/Signin.jsx:40-74 | no request on an empty field; a refusal shows the server's message and changes nothing; acceptance sets the user with the token, mirrors it, stores the token and lands by role |
| SigninPage.HandleGoogleSuccess | frontend/src/pages/auth/Signin.jsx:77-104 | a refusal shows the message or "Google login failed" and changes nothing; acceptance does what the form does and also stores the user under "user" |
| SigninPage.SameLandingBothWays | frontend/src/pages/auth/Signin.jsx:96-100 | both ways of signing in send a user to the same page, which admits the user |

## Left out

- Request and response plumbing are not modelled: Express's `req`/`res`, async/await, and `try`/`catch` beyond the error status each handler returns. A database failure is modelled only where the cast or validation of a value fails.
- Token expiry (`expiresIn: "1d"`), bcrypt's salt rounds and the token format are not modelled. `Crypto` uses concrete stand-ins that keep only the properties the handlers rely on: a hash matches only its own password, and a token verifies only under its signing key. The role and the key are escaped into the token (`Crypto.Escape`), so that, as with base64url in a real token, no token holds a space or a "." whatever the secret or the role.
- The OAuth2 client's network call is not modelled. Google verification is a map from issued ID tokens to the client id each was issued for and its profile.
- backend/controllers/otpController.js is left out: it wraps the Twilio SDK and has no logic of its own. It appears only as unreachable handlers in `Server`.
- `populate` is modelled only as the owner summary (`PropertyController.OwnerSummary`). The records returned by the listing handlers are not populated.
- PropertyController.GetAllProperties: the order among records with equal createdAt is not fixed. A record without a date is given the sort key -1.
- PropertyController.GetAllProperties, GetMyProperties: the 500 reply on a database error is not modelled.
- The email a findOne looks for is cast like a stored email (`UserModel.EmailQuery`). An `undefined` email (googleAuth with neither `tokenId` nor `email`) is queried as null and so finds a stored user whose email is null or missing, as MongoDB does. An array email is a cast error, answered 500 by login and googleAuth, where Mongoose turns it into an `$in` query and finds a user holding any of the listed emails. Object filters (NoSQL operator injection such as `{"$ne": null}`) cannot be written as a `Json.Value` and are not modelled.
- Express routing details are left out: case-insensitive paths, trailing slashes, and parameters containing "/".
- Dates are abstract integers (`now` is a parameter). Date strings and time zones are not modelled.
- Case conversion is ASCII-only; Unicode lowercase is not modelled. `trim` and `Number` skip the full JavaScript white-space set (`Text.IsSpace`). Lengths count characters, not UTF-16 code units, for passwords and phones.
- CastNumber: `Number(text)` is modelled on integer numerals only (`Decimal.NumberOfText`): optional white space, an optional sign and decimal digits, or an unsigned 0x/0o/0b numeral. Text with a fraction or an exponent ("1.5", "1e3", "5."), and "Infinity", is refused where Mongoose stores the number. JSON numbers are integers too (`Json.Num`). So addProperty, updateProperty and updateLead answer 500 on, say, a fractional price or area, where the program succeeds.
- CastBool: Mongoose's "yes" and "no" are not among the strings cast to booleans, so updateLead refuses them for `contacted`.
- Prices are exact reals: floating-point rounding in `parseFloat` and in the multiplications is not modelled, nor is `toLocaleString`. The price-range bounds use the same integer `Number` as `CastNumber`.
- JavaScript values that are neither text, number, boolean, array, date nor reference (objects, NaN, undefined inside arrays) are not modelled. An array or date converted with `String` is treated as having no text: `NamedBy` matches no route for it, `LocationKey` files it under "Other", `MessageOr` falls back, and a stored token becomes "".
- Home's `Object.entries` would list integer-like location names first. The model keeps first-seen order for every name.
- Home's accumulator: a location named after an `Object.prototype` member (e.g. "toString") would be pushed onto a function. This is not modelled.
- `JSON.stringify` of the session user is modelled by a length-prefixed field encoding that reads back exactly (`AuthContext.ParseSerialise`). Stored text that is valid JSON but not a user object is not modelled.
- Timers and concurrency are left out: the testimonial `setInterval` (modelled only as repeated `next`), message `setTimeout`s, the sign-up redirect delay, lodash `debounce`, AbortController and React's render scheduling.
- PropertyContext.PropertyStore.FetchMine: the loading flag it raises before the request is not a separate step. Two fetches running at once are not modelled.
- `fetch` failures (network errors, a body that is not JSON) are not modelled. An answer is either the server's refusal with its body or its success.
- SigninPage.HandleSubmit: an accepted answer without `data.user` (a TypeError in the page) is not modelled. Neither are the Signin and Signup loading flags.
- The sign-up page's Google handler (frontend/src/pages/auth/Signup.jsx:95-137) is left out, because it is mostly I/O against Google's userinfo endpoint. It POSTs `{tokenId, email, name}` to /api/auth/google. `tokenId` is taken from `tokenResponse.credential`, which `useGoogleLogin` leaves undefined, so the server trusts the body email (the path `AuthController.GoogleSignInBypass` states). On success it stores the token, alerts by message and navigates to /properties. PropertyDetails' `popstate` listener is left out too, because it only navigates.
- FileReader uploads (data URLs) in the add-property form are I/O and are left out. Only the mode toggle and the slot update are modelled.
- Presentational components and JSX (Navbar, Footer, PropertyCard, Blog, Contact, main.jsx), styling and animation are left out.
- backend/routes/auth.js and backend/routes/leads.js are wiring only. Body-size limits and console logging are left out.

## Findings

| source | as written | input that shows it | evidently intended | confidence | as-written member | corrected member |
|---|---|---|---|---|---|---|
| backend/controllers/authController.js:39-44 | `register` builds the user from name, email, hashed password and role only, but the User schema requires `phone` (backend/models/User.js:18-22), so `save` always throws and the reply is 500 | `{name: "Asha", email: "a@x.com", password: "secret", role: "user", phone: 9876543210}` with no user stored: 500 "Server error" and no user created | the phone the sign-up page sends is passed to `new User`, and registration answers 201 with the new user (for this input: AuthController.RegisterWithPhoneAccepts) | not executed | AuthController.Register | AuthController.RegisterWithPhone |
| backend/controllers/authController.js:8 | tokens are signed with `process.env.JWT_SECRET \|\| "ZIPCARE"` but `protect` verifies with the constant "ZIPCARE" (backend/middleware/auth.js:3) | JWT_SECRET set to "s3cret": a token from `login` is answered 401 "Invalid token" on every property route | both sides use the same configured secret | not executed | AuthMiddleware.ConfiguredSecretLocksOut | AuthMiddleware.ConfiguredSecretAccepts |
