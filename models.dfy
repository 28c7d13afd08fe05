/** The data layer of the feedback application: the `users` and `feedback`
    tables, the constraints their column declarations impose, and the two
    class methods of `User` (register and authenticate). Everything here is a
    value or a function of values; the handlers in module Handlers keep the
    tables as fields and change them. */
module Models {

  datatype Option<T> = None | Some(value: T)

  // ---------------------------------------------------------------------
  // Password hashing
  // ---------------------------------------------------------------------

  /** Only bcrypt's key-derivation function is left abstract: it is a
      parameter of the model, so every property proved below holds whatever
      function it is. Hash and Verify are defined over it. The salt is drawn
      at random by bcrypt; here it is an argument. */
  type Salt = seq<bv8>
  type Kdf = (Salt, string) -> seq<bv8>

  /** A stored password hash. Like a bcrypt hash string, it carries the salt
      next to the derived key, so verification needs nothing else. */
  datatype Digest = Digest(salt: Salt, key: seq<bv8>)

  /** check_password_hash: re-derive the key from the stored salt. */
  predicate Verify(kdf: Kdf, d: Digest, password: string) {
    kdf(d.salt, password) == d.key
  }

  /** generate_password_hash: a hash verifies against the password it was
      made from. */
  function Hash(kdf: Kdf, salt: Salt, password: string): (d: Digest)
    ensures Verify(kdf, d, password)
    ensures d.salt == salt
  {
    Digest(salt, kdf(salt, password))
  }

  // ---------------------------------------------------------------------
  // Rows
  // ---------------------------------------------------------------------

  /** A row of `users`. The password column holds a Digest, never a string,
      so the plaintext cannot be stored. */
  datatype User = User(username: string, password: Digest, email: string,
                       firstName: string, lastName: string)

  /** A row of `feedback`, without its id: the id is the key under which the
      row is stored. `username` is the owner. */
  datatype Feedback = Feedback(title: string, content: string, username: string)

  // Column widths of the table declarations.
  const UsernameWidth := 20
  const EmailWidth := 50
  const NameWidth := 30
  const TitleWidth := 100

  /** A users row that the handlers can store: every column fits its width,
      and every text column is non-empty because the registration form
      requires each field. The password column is Text (unbounded). */
  predicate UserRow(u: User) {
    && 0 < |u.username| <= UsernameWidth
    && 0 < |u.email| <= EmailWidth
    && 0 < |u.firstName| <= NameWidth
    && 0 < |u.lastName| <= NameWidth
  }

  /** A feedback row that the handlers can store: the title fits its width,
      title and content are non-empty (the feedback form requires both) and
      content is Text (unbounded). */
  predicate FeedbackRow(f: Feedback) {
    0 < |f.title| <= TitleWidth && 0 < |f.content| && |f.username| <= UsernameWidth
  }

  // ---------------------------------------------------------------------
  // Table constraints
  // ---------------------------------------------------------------------

  /** username is the primary key: each row is stored under its own username. */
  predicate UsersKeyed(users: map<string, User>) {
    forall name :: name in users ==> users[name].username == name
  }

  /** email is declared unique. */
  predicate EmailsUnique(users: map<string, User>) {
    forall a, b :: a in users && b in users && a != b ==> users[a].email != users[b].email
  }

  predicate EmailTaken(users: map<string, User>, email: string) {
    exists name :: name in users && users[name].email == email
  }

  /** The foreign key from feedback.username to users.username. */
  predicate OwnersExist(users: map<string, User>, feedback: map<nat, Feedback>) {
    forall id :: id in feedback ==> feedback[id].username in users
  }

  /** id is an autoincremented key: every id in use was issued by the
      sequence, which starts at 1 and whose next value is nextId. */
  predicate IdsIssued(feedback: map<nat, Feedback>, nextId: nat) {
    forall id :: id in feedback ==> 0 < id < nextId
  }

  /** Every constraint the two tables declare, together. */
  predicate StoreValid(users: map<string, User>, feedback: map<nat, Feedback>, nextId: nat) {
    && UsersKeyed(users)
    && EmailsUnique(users)
    && (forall name :: name in users ==> UserRow(users[name]))
    && (forall id :: id in feedback ==> FeedbackRow(feedback[id]))
    && OwnersExist(users, feedback)
    && IdsIssued(feedback, nextId)
    && 0 < nextId
  }

  // ---------------------------------------------------------------------
  // User.register and User.authenticate
  // ---------------------------------------------------------------------

  /** User.register: hash the password and build the row. It only builds a
      value; storing it, and the uniqueness checks, happen at the caller's
      commit. */
  function Register(kdf: Kdf, salt: Salt, username: string, password: string,
                    email: string, firstName: string, lastName: string): (u: User)
    ensures u.username == username && u.email == email
    ensures u.firstName == firstName && u.lastName == lastName
    ensures u.password == Hash(kdf, salt, password)
    ensures Verify(kdf, u.password, password)
  {
    User(username, Hash(kdf, salt, password), email, firstName, lastName)
  }

  /** User.authenticate. None stands for the source's `False`, returned alike
      for an unknown username and for a wrong password. */
  function Authenticate(kdf: Kdf, users: map<string, User>, username: string,
                        password: string): (r: Option<User>)
    ensures r.Some? <==> username in users && Verify(kdf, users[username].password, password)
    ensures r.Some? ==> r.value == users[username]
  {
    if username in users && Verify(kdf, users[username].password, password)
    then Some(users[username])
    else None
  }

  /** A freshly registered user can log in with the password it registered
      with. */
  lemma RegisterThenAuthenticate(kdf: Kdf, users: map<string, User>, salt: Salt,
                                 username: string, password: string,
                                 email: string, firstName: string, lastName: string)
    ensures var u := Register(kdf, salt, username, password, email, firstName, lastName);
            Authenticate(kdf, users[username := u], username, password) == Some(u)
  {
  }

  /** An unknown username and a wrong password give the caller the same
      answer. */
  lemma FailuresIndistinguishable(kdf: Kdf, users: map<string, User>,
                                  unknown: string, p1: string, known: string, p2: string)
    requires unknown !in users
    requires known in users && !Verify(kdf, users[known].password, p2)
    ensures Authenticate(kdf, users, unknown, p1) == Authenticate(kdf, users, known, p2) == None
  {
  }

  // ---------------------------------------------------------------------
  // Queries and the delete-orphan cascade
  // ---------------------------------------------------------------------

  /** Feedback.query.filter_by(username=owner): the records owned by owner,
      under their ids. */
  function FeedbackOf(feedback: map<nat, Feedback>, owner: string): (r: map<nat, Feedback>)
    ensures forall id :: id in r <==> id in feedback && feedback[id].username == owner
    ensures forall id :: id in r ==> r[id] == feedback[id]
  {
    map id | id in feedback && feedback[id].username == owner :: feedback[id]
  }

  /** What the feedback table holds after the cascade that deleting owner's
      row triggers. */
  function WithoutOwner(feedback: map<nat, Feedback>, owner: string): (r: map<nat, Feedback>)
    ensures forall id :: id in r <==> id in feedback && feedback[id].username != owner
    ensures forall id :: id in r ==> r[id] == feedback[id]
  {
    map id | id in feedback && feedback[id].username != owner :: feedback[id]
  }

  /** The cascade splits the table in two: the records it deletes are exactly
      the owner's, the records it keeps are everyone else's, unchanged, and
      no record is lost or duplicated. */
  lemma CascadePartition(feedback: map<nat, Feedback>, owner: string)
    ensures FeedbackOf(feedback, owner).Keys !! WithoutOwner(feedback, owner).Keys
    ensures FeedbackOf(feedback, owner) + WithoutOwner(feedback, owner) == feedback
    ensures |FeedbackOf(feedback, owner)| + |WithoutOwner(feedback, owner)| == |feedback|
  {
  }

  /** After the cascade, deleting the owner's row leaves no orphan, and the
      owner has no feedback left. */
  lemma CascadeLeavesNoOrphans(users: map<string, User>, feedback: map<nat, Feedback>, owner: string)
    requires OwnersExist(users, feedback)
    ensures OwnersExist(users - {owner}, WithoutOwner(feedback, owner))
    ensures FeedbackOf(WithoutOwner(feedback, owner), owner) == map[]
  {
  }

  /** A record added under a fresh id shows up in its owner's list, next to
      the owner's earlier records, and nobody else's list changes. */
  lemma AddedFeedbackListed(feedback: map<nat, Feedback>, id: nat, f: Feedback, who: string)
    requires id !in feedback
    ensures FeedbackOf(feedback[id := f], f.username) == FeedbackOf(feedback, f.username)[id := f]
    ensures who != f.username ==> FeedbackOf(feedback[id := f], who) == FeedbackOf(feedback, who)
  {
  }

  // ---------------------------------------------------------------------
  // The store changes the handlers commit keep every table constraint
  // ---------------------------------------------------------------------

  /** The register handler's commit fails with an integrity error exactly
      when the new row would break a constraint of the users table: with a
      fresh primary key, the check that the email is not taken is the same
      as the unique-email constraint holding after the insert. */
  lemma CommitSucceedsIff(users: map<string, User>, u: User)
    requires EmailsUnique(users)
    ensures (u.username !in users && !EmailTaken(users, u.email)) <==>
            (u.username !in users && EmailsUnique(users[u.username := u]))
  {
    var after := users[u.username := u];
    if u.username !in users {
      if EmailTaken(users, u.email) {
        var other :| other in users && users[other].email == u.email;
        assert other in after && other != u.username && after[other].email == after[u.username].email;
      } else {
        forall a, b | a in after && b in after && a != b
          ensures after[a].email != after[b].email
        {
          if a == u.username {
            assert b in users;
          } else if b == u.username {
            assert a in users;
          }
        }
      }
    }
  }

  lemma InsertUserKeepsStore(users: map<string, User>, feedback: map<nat, Feedback>, nextId: nat, u: User)
    requires StoreValid(users, feedback, nextId)
    requires u.username !in users && !EmailTaken(users, u.email) && UserRow(u)
    ensures StoreValid(users[u.username := u], feedback, nextId)
  {
  }

  lemma DeleteUserKeepsStore(users: map<string, User>, feedback: map<nat, Feedback>, nextId: nat, owner: string)
    requires StoreValid(users, feedback, nextId)
    ensures StoreValid(users - {owner}, WithoutOwner(feedback, owner), nextId)
  {
    CascadeLeavesNoOrphans(users, feedback, owner);
  }

  lemma InsertFeedbackKeepsStore(users: map<string, User>, feedback: map<nat, Feedback>, nextId: nat, f: Feedback)
    requires StoreValid(users, feedback, nextId)
    requires f.username in users && FeedbackRow(f)
    ensures nextId !in feedback
    ensures StoreValid(users, feedback[nextId := f], nextId + 1)
  {
  }

  lemma ReplaceFeedbackKeepsStore(users: map<string, User>, feedback: map<nat, Feedback>, nextId: nat,
                                  id: nat, f: Feedback)
    requires StoreValid(users, feedback, nextId)
    requires id in feedback && f.username == feedback[id].username && FeedbackRow(f)
    ensures StoreValid(users, feedback[id := f], nextId)
  {
  }

  lemma DeleteFeedbackKeepsStore(users: map<string, User>, feedback: map<nat, Feedback>, nextId: nat, id: nat)
    requires StoreValid(users, feedback, nextId)
    ensures StoreValid(users, feedback - {id}, nextId)
  {
  }
}
