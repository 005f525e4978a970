# Identity-gated notes and accounts

A model of the two small services of a notes application. The notes service
keeps personal notes in a document collection. Every one of its six handlers
compares the user the request is about with the `username` claim of the
caller's verified token, and touches the collection only when the two are
equal. The auth service keeps the account collection and issues the claims
that end up in those tokens.

The collections are modelled as sequences of records in the store's natural
order, held by a class whose handlers are methods:

- `Find` with a filter returns the matching records in that order.
- `FindOne`, `UpdateOne` and `DeleteOne` act on the first match.
- `InsertOne` appends.

Files:

- `collection.dfy` (module `Collection`): the generic store semantics. It has
  first match, filter, update-first and delete-first, each proved against an
  independent statement of what it does.
- `jwt.dfy` (module `Jwt`): the claims map of a token and its two keys.
- `notes.dfy` (module `Notes`): `Note`, `NoteReturn`, the normaliser
  `Defaults`, the gate `Authorized`, the filters, and the class `NoteStore`
  with the handlers `Create`, `Read`, `ReadMany`, `ReadAll`, `Update` and
  `Delete`.
- `auth.dfy` (module `Auth`): `User`, `SignIn`, `JwtCreate`, and the class
  `UserStore` with `SignUpHandler`, `SignInHandler`, `UpdateUser` and
  `DeleteUser`.
- `service.dfy` (module `Service`): how the two services meet. Claims issued
  for an account open exactly that account's notes. It also has two client
  methods that drive the handlers through a session.

Abstractions:

- Time is an integer, and 0 stands for Go's zero `time.Time`. The current
  time is the parameter `now`.
- The id `InsertOne` generates is the parameter `id` of `Create`. The nil
  ObjectID is 0.
- A token is its claims map `map<string, string>`. A missing `username` key
  compares unequal to every string, exactly as Go's comparison of a `string`
  with a nil `interface{}` does.
- Request bodies and form values are taken already decoded.

Behaviour of the code worth knowing:

- `Update` `$set`s the title from the payload (notes/main.go:315). A note can
  therefore be renamed, and a payload without a title blanks it.
- `JwtCreate` puts the password into the claims (auth/main.go:221).
- `UpdateUser` updates the first account whose username, password and email
  all match the form values (auth/main.go:146).
- `SignInHandler` sets the `Authorization` header after writing the miss
  message (auth/main.go:134,137). Go's HTTP server ignores header changes
  after the first write, so a failed sign-in delivers no token.

## Model

| member | source | states |
|---|---|---|
| Collection.FirstMatch | auth/main.go:132 | the position a single-document operation acts on: it satisfies the filter and no earlier record does; none exists exactly when no record matches |
| Collection.Filter | notes/main.go:215-224 | a filtered Find returns a subsequence of the store; each record occurs as often as in the store if it matches and not at all otherwise |
| Collection.UpdateFirst | notes/main.go:314-316 | UpdateOne keeps the length; it rewrites only the first matching record, and with no match it changes nothing |
| Collection.DeleteFirst | notes/main.go:358 | DeleteOne removes exactly the first matching record and keeps the rest in order; with no match it changes nothing |
| Collection.UpdateFirstTouchesOnlyFirstMatch | auth/main.go:170 | a record that does not match is never changed, and at most one record is changed |
| Collection.DeleteFirstKeepsOthers | auth/main.go:204 | the store shrinks by one exactly when something matched; the survivors are a subsequence; every non-matching record keeps its multiplicity |
| Notes.Defaults | notes/main.go:50-58 | a zero date becomes now and any other date stays; an empty description becomes "N/A" and any other description stays; title and user never change |
| Notes.DefaultsIdempotent | notes/main.go:50-58 | normalising twice with the same clock equals normalising once |
| Notes.DefaultsCompletes | notes/main.go:50-58 | with a non-zero clock the result has a non-zero date and a non-empty description |
| Notes.DefaultsFixesComplete | notes/main.go:50-58 | a note with a date and a description is left exactly as it is |
| Notes.DefaultsStable | notes/main.go:112 | a note normalised with a real clock is unaffected by any later normalisation, whatever that clock says |
| Notes.MissingClaimDenies | notes/main.go:164 | without a username claim the gate denies every target user, the empty one included |
| Notes.GateAdmitsOneUser | notes/main.go:214 | one token is authorised for at most one user |
| Notes.UpdateKeepsOwnership | notes/main.go:313-316 | an update keeps the store length and every note's user and id; notes without the key (t, u) are untouched |
| Notes.NoteStore.Create | notes/main.go:112-132 | gated on the body's user: when allowed, exactly one note is appended, the normalised payload under the fresh non-nil id the store generated, and the reply names its title; when denied, the store is unchanged and the reply is the fixed denial; ids stay unique |
| Notes.NoteStore.Read | notes/main.go:164-181 | when allowed, the reply is the last note in store order with title t and user u, or the zero note if there is none; otherwise the denial; nothing is modified |
| Notes.NoteStore.ReadMany | notes/main.go:214-227 | when allowed, the reply lists, in store order, exactly the notes of u whose title starts with t, with their multiplicities; otherwise the denial |
| Notes.NoteStore.ReadAll | notes/main.go:256-269 | when allowed, the reply lists, in store order, exactly the notes of u, with their multiplicities; otherwise the denial |
| Notes.NoteStore.Update | notes/main.go:297-323 | when allowed, only the first note with title t and user u changes: title, description and date from the normalised payload, user and id kept; all else stays; the reply names the payload's title even if nothing matched; when denied, nothing changes |
| Notes.NoteStore.Delete | notes/main.go:336-365 | when allowed, only the first note with title t and user u is removed and the rest keep their order; the reply names t even if nothing matched; when denied, nothing changes |
| Notes.Authorized | notes/main.go:116 | the gate `u == claims["username"]` of all six handlers (also :164, :214, :256, :313, :357): the claim must be present and equal to the target user |
| Notes.HasKey | notes/main.go:165 | the exact filter `{title: t, user: u}` of Read, Update (:314) and Delete (:338) |
| Notes.HasPrefix | notes/main.go:215 | ReadMany's filter: user equals u and the title starts with t, the pattern `"^" + t` read literally |
| Notes.OwnerMatch | notes/main.go:257 | ReadAll's filter `{user: u}` |
| Notes.Stored | notes/main.go:125 | the document InsertOne stores: the note's four fields under the generated id |
| Notes.Revised | notes/main.go:315 | Update's `$set` of title, description and date; id and user are not in it |
| Notes.IdsUniqueAfterRemoval | notes/main.go:358 | deleting one note keeps the stored ids non-nil and pairwise distinct |
| Auth.HasCredentials | auth/main.go:120 | SignInHandler's filter `{username, password}` on the submitted credentials |
| Auth.HasAccount | auth/main.go:146 | UpdateUser's filter on username, password and email from the form |
| Auth.UsernameMatch | auth/main.go:192 | DeleteUser's filter `{username}` on the form value |
| Auth.Reset | auth/main.go:159 | UpdateUser's `$set` of username, password and email from the body; the date of birth is not in it |
| Auth.JwtCreate | auth/main.go:219-222 | the claims have exactly the keys "username" and "password", mapped to the two arguments |
| Auth.UpdateUserKeepsOthers | auth/main.go:145-170 | an account update keeps the store length and every date of birth, and leaves non-matching accounts untouched |
| Auth.UserStore.SignUpHandler | auth/main.go:83-103 | the decoded record is appended unchanged, with no uniqueness check; the claims carry its username and password |
| Auth.UserStore.SignInHandler | auth/main.go:118-137 | the miss message is written exactly when no account has both the submitted username and password; a token is delivered exactly when one has, and its claims are exactly the submitted username and password; nothing is modified |
| Auth.UserStore.UpdateUser | auth/main.go:142-175 | only the first account matching username, password and email gets those three fields from the body, and its date of birth stays; the success reply is always written |
| Auth.UserStore.DeleteUser | auth/main.go:191-208 | only the first account with the form's username is removed and the rest keep their order; the reply is always "Successfully deleted account!" |
| Service.IssuedTokenOpensOwnNotes | auth/main.go:221 | claims issued for a username authorise a notes request exactly when the request's user is that username |
| Service.PrefixLookupExample | notes/main.go:215 | a prefix lookup of "Gro" over alice's "Groceries", "Grocery2" and "Work" answers the first two, in order |

## Left out

- HTTP routing, the logger and CORS middleware, and `ListenAndServe`: these are transport. The model starts at the decoded request.
- Token signing and verification (HS256, section 3.2 of RFC 7518, in a JWT as in RFC 7519): these are foreign library calls. A token is its claims, and verification is taken to have succeeded.
- Environment loading, the database connection and the hard-coded URI of `UpdateUser`: these are I/O.
- The `log.Fatal` paths: a failed connection, store call or (in Create, Update and UpdateUser) body decode ends the whole server process. The model has no failing store and takes decoded bodies as given.
- Ignored decode errors: `SignUpHandler` (auth/main.go:84) and `SignInHandler` (auth/main.go:119) go on with a zero or partly filled record when the body does not decode. The model takes that record as its input, whatever it is.
- `UpdateUser` when `UpdateOne` fails: it writes "The update could not be parsed" and then the success message as well (auth/main.go:171-174). The model has no failing store, so only the success message appears.
- JSON and BSON encoding of replies: a reply is a `Reply` value or a string. An empty list and a null list are not told apart.
- Auth.UserStore.UpdateUser: takes the form values and the JSON body as independent inputs, which admits combinations the program never reaches. On a form-encoded request `r.PostFormValue` consumes the body, so `io.ReadAll` (auth/main.go:150) reads nothing and `json.Unmarshal` fails into `log.Fatal`. With a JSON body all three form values are empty strings.
- Concurrency: the server runs requests concurrently. Each handler is modelled as one atomic step on the collection, and `Read`'s cursor loop as a walk over one snapshot of it.
- The `Update` struct of auth/main.go: it is declared and never used.
- Notes.NoteStore.ReadMany: the title pattern `"^" + t` is a literal prefix test. `t` is assumed to hold no regular-expression metacharacters.
- Notes.NoteStore.Read: assumes every stored document has all five fields. Decoding a document without a field into the reused result would keep the previous match's value.
- Notes.Authorized: claim values are strings. A non-string `username` claim denies in Go too, but cannot arise in the model.
- Collection.FirstMatch: the store's natural order is taken to be the sequence order. The driver promises no order.
