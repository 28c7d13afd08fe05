/** The request handlers of the feedback application. Each route is a method
    of class App, whose fields are the two tables, the sequence that issues
    feedback ids and the client's session. A handler either refuses with a
    redirect and changes nothing, or commits one change to the tables and the
    session. */
module Handlers {
  import opened Models

  /** What a handler answers: a redirect, a rendered template, or the
      profile page together with the rows it is rendered from. */
  datatype Response =
    | Redirect(path: string)
    | Render(template: string)
    | RenderProfile(user: User, feedback: map<nat, Feedback>)

  function ProfilePath(username: string): string {
    "/users/" + username
  }

  // Submitted forms. A handler receives None for a GET request; a submitted
  // form validates when every field has input.

  datatype RegisterForm = RegisterForm(username: string, password: string, email: string,
                                       firstName: string, lastName: string)
  {
    predicate Filled() {
      |username| > 0 && |password| > 0 && |email| > 0 && |firstName| > 0 && |lastName| > 0
    }
    /** The column widths of the users table. */
    predicate Fits() {
      |username| <= UsernameWidth && |email| <= EmailWidth
      && |firstName| <= NameWidth && |lastName| <= NameWidth
    }
  }

  datatype LoginForm = LoginForm(username: string, password: string)
  {
    predicate Filled() {
      |username| > 0 && |password| > 0
    }
  }

  datatype FeedbackForm = FeedbackForm(title: string, content: string)
  {
    predicate Filled() {
      |title| > 0 && |content| > 0
    }
    predicate Fits() {
      |title| <= TitleWidth
    }
  }

  /** The ownership check of every owner-scoped route: None lets the request
      through, Some(r) refuses it with the redirect r. */
  function Guard(sessionUser: Option<string>, owner: string): (refusal: Option<Response>)
    ensures refusal.None? <==> sessionUser == Some(owner)
    ensures sessionUser.None? ==> refusal == Some(Redirect("/login"))
    ensures sessionUser.Some? && sessionUser.value != owner ==>
              refusal == Some(Redirect(ProfilePath(sessionUser.value)))
  {
    match sessionUser
    case None => Some(Redirect("/login"))
    case Some(name) => if name == owner then None else Some(Redirect(ProfilePath(name)))
  }

  class App {
    /** The password hash's key-derivation function. */
    const kdf: Kdf
    var users: map<string, User>
    var feedback: map<nat, Feedback>
    /** The value the id sequence of the feedback table hands out next. */
    var nextId: nat
    /** session['username'], absent until login. */
    var sessionUser: Option<string>

    /** The table constraints, and a session that names a stored user (only
        one client is modelled, and every handler that removes a user also
        clears the session). */
    ghost predicate Valid()
      reads this
    {
      StoreValid(users, feedback, nextId)
      && (sessionUser.Some? ==> sessionUser.value in users)
    }

    constructor (kdf: Kdf)
      ensures Valid()
      ensures this.kdf == kdf
      ensures users == map[] && feedback == map[] && nextId == 1 && sessionUser == None
    {
      this.kdf := kdf;
      users, feedback, nextId, sessionUser := map[], map[], 1, None;
    }

    /** GET / */
    method HomePage() returns (resp: Response)
      ensures sessionUser.None? ==> resp == Redirect("/register")
      ensures sessionUser.Some? ==> resp == Redirect(ProfilePath(sessionUser.value))
    {
      if sessionUser.None? {
        resp := Redirect("/register");
      } else {
        resp := Redirect(ProfilePath(sessionUser.value));
      }
    }

    /** GET|POST /register. The commit fails, and nothing is stored, when the
        username or the email is already in use. */
    method RegisterUser(form: Option<RegisterForm>, salt: Salt) returns (resp: Response)
      requires Valid()
      requires form.Some? && form.value.Filled() ==> form.value.Fits()
      modifies this
      ensures Valid()
      ensures !(form.Some? && form.value.Filled()) ==>
                resp == Render("register.html") && unchanged(this)
      ensures form.Some? && form.value.Filled() &&
              (form.value.username in old(users) || EmailTaken(old(users), form.value.email)) ==>
                resp == Render("register.html") && unchanged(this)
      ensures form.Some? && form.value.Filled() &&
              form.value.username !in old(users) && !EmailTaken(old(users), form.value.email) ==>
                var f := form.value;
                && users == old(users)[f.username := Register(kdf, salt, f.username, f.password, f.email,
                                                              f.firstName, f.lastName)]
                && sessionUser == Some(f.username)
                && resp == Redirect(ProfilePath(f.username))
                && feedback == old(feedback) && nextId == old(nextId)
    {
      if form.None? || !form.value.Filled() {
        resp := Render("register.html");
        return;
      }
      var f := form.value;
      var newUser := Register(kdf, salt, f.username, f.password, f.email, f.firstName, f.lastName);
      if newUser.username in users || EmailTaken(users, newUser.email) {
        resp := Render("register.html");
        return;
      }
      InsertUserKeepsStore(users, feedback, nextId, newUser);
      users := users[newUser.username := newUser];
      sessionUser := Some(newUser.username);
      resp := Redirect(ProfilePath(newUser.username));
    }

    /** GET|POST /login */
    method LoginUser(form: Option<LoginForm>) returns (resp: Response)
      requires Valid()
      modifies this`sessionUser
      ensures Valid()
      ensures old(sessionUser).Some? ==>
                resp == Redirect(ProfilePath(old(sessionUser).value)) && sessionUser == old(sessionUser)
      ensures old(sessionUser).None? && !(form.Some? && form.value.Filled()) ==>
                resp == Render("login.html") && sessionUser == None
      ensures old(sessionUser).None? && form.Some? && form.value.Filled() ==>
                var f := form.value;
                if Authenticate(kdf, users, f.username, f.password).Some?
                then sessionUser == Some(f.username) && resp == Redirect(ProfilePath(f.username))
                else sessionUser == None && resp == Render("login.html")
    {
      if sessionUser.Some? {
        resp := Redirect(ProfilePath(sessionUser.value));
        return;
      }
      resp := Render("login.html");
      if form.Some? && form.value.Filled() {
        var user := Authenticate(kdf, users, form.value.username, form.value.password);
        if user.Some? {
          sessionUser := Some(user.value.username);
          resp := Redirect(ProfilePath(user.value.username));
        }
      }
    }

    /** GET /logout */
    method LogoutUser() returns (resp: Response)
      requires Valid()
      modifies this`sessionUser
      ensures Valid()
      ensures sessionUser == None && resp == Redirect("/")
    {
      sessionUser := None;
      resp := Redirect("/");
    }

    /** GET /users/{username}: only the owner sees the profile, which shows
        the user and exactly the feedback the user owns. */
    method UserProfile(username: string) returns (resp: Response)
      requires Valid()
      ensures sessionUser.None? ==> resp == Redirect("/login")
      ensures sessionUser.Some? && sessionUser.value != username ==>
                resp == Redirect(ProfilePath(sessionUser.value))
      ensures sessionUser == Some(username) ==>
                username in users && resp == RenderProfile(users[username], FeedbackOf(feedback, username))
    {
      var refusal := Guard(sessionUser, username);
      if refusal.Some? {
        resp := refusal.value;
        return;
      }
      resp := RenderProfile(users[username], FeedbackOf(feedback, username));
    }

    /** POST /users/{username}/delete: removes the user, cascades to the
        user's feedback and ends the session. */
    method DeleteUser(username: string) returns (resp: Response)
      requires Valid()
      modifies this
      ensures Valid()
      ensures old(sessionUser).None? ==> resp == Redirect("/login") && unchanged(this)
      ensures old(sessionUser).Some? && old(sessionUser).value != username ==>
                resp == Redirect(ProfilePath(old(sessionUser).value)) && unchanged(this)
      ensures old(sessionUser) == Some(username) ==>
                && username in old(users)
                && users == old(users) - {username}
                && feedback == WithoutOwner(old(feedback), username)
                && sessionUser == None
                && nextId == old(nextId)
                && resp == Redirect("/")
    {
      var refusal := Guard(sessionUser, username);
      if refusal.Some? {
        resp := refusal.value;
        return;
      }
      DeleteUserKeepsStore(users, feedback, nextId, username);
      users := users - {username};
      feedback := WithoutOwner(feedback, username);
      sessionUser := None;
      resp := Redirect("/");
    }

    /** GET|POST /users/{username}/feedback/add: the new record is owned by
        the session user and stored under the next id of the sequence. */
    method AddFeedback(username: string, form: Option<FeedbackForm>) returns (resp: Response)
      requires Valid()
      requires sessionUser == Some(username) && form.Some? && form.value.Filled() ==> form.value.Fits()
      modifies this
      ensures Valid()
      ensures old(sessionUser).None? ==> resp == Redirect("/login") && unchanged(this)
      ensures old(sessionUser).Some? && old(sessionUser).value != username ==>
                resp == Redirect(ProfilePath(old(sessionUser).value)) && unchanged(this)
      ensures old(sessionUser) == Some(username) && !(form.Some? && form.value.Filled()) ==>
                resp == Render("add_feedback.html") && unchanged(this)
      ensures old(sessionUser) == Some(username) && form.Some? && form.value.Filled() ==>
                && old(nextId) !in old(feedback)
                && feedback == old(feedback)[old(nextId) := Feedback(form.value.title, form.value.content,
                                                                     old(sessionUser).value)]
                && nextId == old(nextId) + 1
                && users == old(users) && sessionUser == old(sessionUser)
                && resp == Redirect(ProfilePath(old(sessionUser).value))
    {
      var refusal := Guard(sessionUser, username);
      if refusal.Some? {
        resp := refusal.value;
        return;
      }
      if form.None? || !form.value.Filled() {
        resp := Render("add_feedback.html");
        return;
      }
      var owner := sessionUser.value;
      var record := Feedback(form.value.title, form.value.content, owner);
      InsertFeedbackKeepsStore(users, feedback, nextId, record);
      feedback := feedback[nextId := record];
      nextId := nextId + 1;
      resp := Redirect(ProfilePath(owner));
    }

    /** GET|POST /feedback/{id}/update: only the owner may change the title
        and content; the id and the owner stay as they were. */
    method UpdateFeedback(feedbackId: nat, form: Option<FeedbackForm>) returns (resp: Response)
      requires Valid()
      requires sessionUser.Some? ==> feedbackId in feedback
      requires sessionUser.Some? && sessionUser.value == feedback[feedbackId].username &&
               form.Some? && form.value.Filled() ==>
                 form.value.Fits()
      modifies this
      ensures Valid()
      ensures old(sessionUser).None? ==> resp == Redirect("/login") && unchanged(this)
      ensures old(sessionUser).Some? && old(sessionUser).value != old(feedback)[feedbackId].username ==>
                resp == Redirect(ProfilePath(old(sessionUser).value)) && unchanged(this)
      ensures old(sessionUser).Some? && old(sessionUser).value == old(feedback)[feedbackId].username &&
              !(form.Some? && form.value.Filled()) ==>
                resp == Render("update_feedback.html") && unchanged(this)
      ensures old(sessionUser).Some? && old(sessionUser).value == old(feedback)[feedbackId].username &&
              form.Some? && form.value.Filled() ==>
                && feedback == old(feedback)[feedbackId := Feedback(form.value.title, form.value.content,
                                                                    old(feedback)[feedbackId].username)]
                && users == old(users) && sessionUser == old(sessionUser) && nextId == old(nextId)
                && resp == Redirect(ProfilePath(old(sessionUser).value))
      // Submitting the stored title and content leaves the table as it was.
      ensures old(sessionUser).Some? && form.Some? &&
              form.value == FeedbackForm(old(feedback)[feedbackId].title, old(feedback)[feedbackId].content) ==>
                feedback == old(feedback)
    {
      if sessionUser.None? {
        resp := Redirect("/login");
        return;
      }
      var current := feedback[feedbackId];
      var refusal := Guard(sessionUser, current.username);
      if refusal.Some? {
        resp := refusal.value;
        return;
      }
      if form.None? || !form.value.Filled() {
        resp := Render("update_feedback.html");
        return;
      }
      var edited := Feedback(form.value.title, form.value.content, current.username);
      ReplaceFeedbackKeepsStore(users, feedback, nextId, feedbackId, edited);
      feedback := feedback[feedbackId := edited];
      resp := Redirect(ProfilePath(sessionUser.value));
    }

    /** POST /feedback/{id}/delete: only the owner may delete, and only that
        record goes. */
    method DeleteFeedback(feedbackId: nat) returns (resp: Response)
      requires Valid()
      requires sessionUser.Some? ==> feedbackId in feedback
      modifies this
      ensures Valid()
      ensures old(sessionUser).None? ==> resp == Redirect("/login") && unchanged(this)
      ensures old(sessionUser).Some? && old(sessionUser).value != old(feedback)[feedbackId].username ==>
                resp == Redirect(ProfilePath(old(sessionUser).value)) && unchanged(this)
      ensures old(sessionUser).Some? && old(sessionUser).value == old(feedback)[feedbackId].username ==>
                && feedback == old(feedback) - {feedbackId}
                && users == old(users) && sessionUser == old(sessionUser) && nextId == old(nextId)
                && resp == Redirect(ProfilePath(old(sessionUser).value))
    {
      if sessionUser.None? {
        resp := Redirect("/login");
        return;
      }
      var current := feedback[feedbackId];
      var refusal := Guard(sessionUser, current.username);
      if refusal.Some? {
        resp := refusal.value;
        return;
      }
      DeleteFeedbackKeepsStore(users, feedback, nextId, feedbackId);
      feedback := feedback - {feedbackId};
      resp := Redirect(ProfilePath(sessionUser.value));
    }
  }
}
