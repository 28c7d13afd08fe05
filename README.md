# Feedback application: accounts, sessions and ownership

A Dafny model of a small Flask application. Users register and log in, and
each logged-in user can add, edit and delete feedback records of their own.
The model covers the application state that the route handlers drive and the
rules that the table declarations impose on it:

- the `users` table, keyed by username, whose email is unique;
- the `feedback` table, keyed by an autoincremented id, in which each record
  names its owner;
- the client's session, which holds at most one logged-in username.

`models.dfy` (module `Models`) models `models.py`. Its members are values and
functions:

- rows as datatypes, and each table constraint as a predicate over the maps
  (`StoreValid` gathers them);
- `User.register` and `User.authenticate` as functions;
- the delete-orphan cascade as `WithoutOwner`;
- lemmas showing that each change a handler commits keeps the constraints.

Password hashing is abstract in one place only: the key-derivation function
`kdf` is a parameter, so every property holds whatever function bcrypt
computes. `Hash` and `Verify` are ordinary definitions over it. A `Digest`
carries its salt the way a bcrypt hash string does, `Hash` derives the key from
the salt and the password, and `Verify` derives it again and compares. The
source's hash/verify axiom is then `Hash`'s proved postcondition
`Verify(kdf, Hash(kdf, s, p), p)`.

`app.dfy` (module `Handlers`) models `app.py`. Class `App` keeps the two tables
(`users`, `feedback`), the id sequence (`nextId`) and the session
(`sessionUser`) as fields. There is one method per route, and each returns a
`Response`: a redirect path, a template name, or the profile page with the
rows it shows. `Valid()` is the class invariant. It holds the table
constraints, plus the fact that a session names a stored user. Every method
keeps `Valid()` and states its new state for each outcome. When a handler
refuses, its contract says that nothing changed. A method with no `modifies`
clause, such as `HomePage` or `UserProfile`, cannot change the state at all.

Form validation (`validate_on_submit`, with the `InputRequired` validators of
`forms.py:8-24`) is modelled, not assumed. A handler receives `None` for a GET
request. It processes a submitted form only when every field is non-empty;
otherwise it re-renders the form and changes nothing.

`scenario.dfy` is a client of the handlers, proved from their contracts
alone, in three steps (`AliceAndBobPost`, `BobIsRefused`, `AliceLeaves`). Alice and bob register and each add one record. Alice is refused on
bob's page. Bob is refused on alice's profile, on adding feedback on her page,
on her record and on her account. Alice logs back in and deletes her account.
At the end alice and her record are gone, and bob and his record remain.

The model follows the code, including where its behaviour is arguably unintended:

- The code does not handle a feedback id that does not exist on the update
  and delete routes: `Feedback.query.get` returns `None`, and the code then
  dereferences it. So the model makes that id's presence a precondition,
  once a session is open, instead of inventing a not-found answer.
- The register handler does not check whether a session is already open. A
  successful registration replaces the session user.

## Model

| member | source | states |
|---|---|---|
| Models.Hash | models.py:31-32 | the stored hash verifies against the password it was made from and keeps the salt it was made with |
| Models.Register | models.py:27-33 | username, email and both names are copied verbatim; the password column is the hash of the password (a `Digest`, never the plaintext) and verifies against it; only a value is built, no table is touched |
| Models.Authenticate | models.py:36-44 | returns a user exactly when the username is stored and the password verifies against its hash, and then it is that stored row; otherwise the single failure value |
| Models.RegisterThenAuthenticate | models.py:31-42 | once a freshly registered row is stored, authenticating with its username and password returns that row |
| Models.FailuresIndistinguishable | models.py:40-44 | an unknown username and a wrong password for a known one give the same answer, None |
| Models.CommitSucceedsIff | models.py:21-23 | for a fresh primary key, "email not taken" (the register handler's duplicate check) holds exactly when the unique-email constraint still holds after the insert |
| Models.CascadePartition | models.py:56 | the owner's records and everyone else's split the feedback table: disjoint, together the whole table, sizes adding up |
| Models.CascadeLeavesNoOrphans | models.py:54-56 | after deleting a user and cascading, every remaining record's owner exists and the deleted user owns nothing |
| Models.AddedFeedbackListed | app.py:124-127 | a record added under a fresh id appears in its owner's listing beside the earlier ones; other users' listings are unchanged |
| Models.InsertUserKeepsStore | models.py:21-25 | storing a row under a fresh username with a fresh email and fitting columns keeps every table constraint |
| Models.DeleteUserKeepsStore | models.py:54-56 | removing a user together with the cascade keeps every table constraint, foreign key included |
| Models.InsertFeedbackKeepsStore | models.py:51-54 | the next id of the sequence is unused, and inserting a fitting record owned by a stored user under it keeps every constraint once the sequence advances |
| Models.ReplaceFeedbackKeepsStore | models.py:52-54 | replacing title and content of a stored record, owner kept, keeps every constraint |
| Models.DeleteFeedbackKeepsStore | models.py:51 | deleting one record keeps every constraint |
| Models.Verify | models.py:41 | the stored hash matches a password exactly when re-deriving the key from the stored salt and the password gives the stored key |
| Models.StoreValid | models.py:21-25 | the table declarations together: rows keyed by username, unique emails, columns within their widths and non-empty, feedback owners stored (models.py:54), ids issued by the sequence (models.py:51) |
| Models.FeedbackOf | app.py:92 | exactly the records whose owner is the given user, each under its id and unchanged |
| Models.WithoutOwner | models.py:56 | what the cascade leaves: exactly the records owned by someone else, each unchanged |
| Handlers.App.Valid | models.py:16-56 | the class invariant: the tables satisfy every table constraint, and an open session names a stored user |
| Handlers.Guard | app.py:84-89 | a request is let through exactly when the session user is the owner; no session gives a redirect to /login, another session user a redirect to that user's own profile |
| Handlers.App.constructor | app.py:7-16 | the state of a freshly created database: empty tables, the id sequence at 1 and no session, satisfying the invariant |
| Handlers.App.HomePage | app.py:20-26 | no session redirects to /register, a session user u to /users/u; nothing changes |
| Handlers.App.RegisterUser | app.py:28-52 | an unsubmitted or incomplete form, or a taken username or email, re-renders the form with nothing changed; otherwise exactly one row is added under the username, the session becomes that user and the reply redirects to the profile |
| Handlers.App.LoginUser | app.py:54-72 | with a session open, only a redirect to that user's profile; otherwise a successful authenticate sets the session to the username and redirects, and a failed one or an incomplete form re-renders with no session; the tables never change |
| Handlers.App.LogoutUser | app.py:74-79 | the session is cleared and the reply redirects to /; the tables are unchanged |
| Handlers.App.UserProfile | app.py:81-93 | the ownership guard, then the profile page with the stored user and exactly the records that user owns; nothing changes |
| Handlers.App.DeleteUser | app.py:95-108 | refusals change nothing; for the owner, the user is removed, exactly that user's records are cascaded away with all others kept, the session is cleared and the reply redirects to / |
| Handlers.App.AddFeedback | app.py:110-129 | refusals and incomplete forms change nothing; otherwise one record with the given title and content, owned by the session user, is stored under the unused next id, the sequence advances and every earlier record is kept |
| Handlers.App.UpdateFeedback | app.py:131-153 | no session gives /login; a non-owner is redirected to their own profile; an incomplete form re-renders; otherwise only that record's title and content change, its id and owner are kept, and resubmitting the stored values leaves the table as it was |
| Handlers.App.DeleteFeedback | app.py:155-169 | no session gives /login and a non-owner is redirected to their own profile, with nothing changed; otherwise exactly that record is removed |

## Left out

- Routing, HTTP methods and template rendering: a `Response` records only the redirect path, the template name or the profile's rows.
- Flash messages and their categories: they are a user-interface side channel with no effect on state.
- CSRF protection inside `validate_on_submit`: the model assumes that the token is valid.
- bcrypt internals (salt generation, cost factor, constant-time comparison, the UTF-8 text encoding of the hash): the key-derivation function is a parameter and the salt an argument.
- Transactions: each commit is an atomic map update. The source's missing rollback after an integrity error is not modelled.
- Over-long strings: in the source, a value wider than its column raises a data error that no handler catches. This is modelled as a precondition on the path that writes the row (a validated form in `RegisterUser`; a validated form from the owner in `AddFeedback` and `UpdateFeedback`), not as an outcome. Refused requests carry no width precondition.
- Handlers.App.UpdateFeedback: models the crash on a missing id as a precondition, as the source has no error path for it.
- Handlers.App.DeleteFeedback: models the crash on a missing id as a precondition, for the same reason.
- Handlers.App.UserProfile: returns the owner's records as a map keyed by id. The order of the list that `.all()` returns is not modelled, and the source does not fix one.
- The nullable `feedback.username` column: no handler ever writes a null owner, so the owner is a plain string.
- Existing database contents: the constructor builds a freshly created database, but every handler contract holds from any state that satisfies `Valid()`.
- Handlers.App.AddFeedback: always succeeds in the model, because `nextId` is unbounded. In the source the id column is a 32-bit integer, and its sequence fails after 2147483647 ids have been issued.
- Application configuration, the secret key and `connect_db`: setup with no behaviour.
- Concurrent requests and other clients: only one client's session is modelled. `Valid()` requires a session to name a stored user, and that holds only because no other client can delete the account behind an open session. Session expiry belongs to the cookie and is not modelled either.
