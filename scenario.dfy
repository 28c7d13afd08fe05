/** A client of the handlers: the cascade example in which alice and bob
    each leave one piece of feedback and alice then deletes her account. It
    is proved from the handlers' contracts alone, in three steps. */
module Scenarios {
  import opened Models
  import opened Handlers

  /** The state both users' records are in before anyone is refused. */
  predicate TwoRecords(users: map<string, User>, feedback: map<nat, Feedback>)
  {
    && users.Keys == {"alice", "bob"}
    && feedback.Keys == {1, 2}
    && feedback[1].username == "alice"
    && feedback[2] == Feedback("F2", "from bob", "bob")
  }

  /** Alice and bob register and each add one record; alice is refused on
      bob's page. */
  method AliceAndBobPost(kdf: Kdf, salt: Salt) returns (app: App)
    ensures fresh(app) && app.Valid() && app.kdf == kdf
    ensures TwoRecords(app.users, app.feedback) && app.sessionUser == Some("bob")
    ensures app.users["alice"] == Register(kdf, salt, "alice", "pw-a", "alice@example.com", "Alice", "A")
  {
    app := new App(kdf);
    var r := app.RegisterUser(Some(RegisterForm("alice", "pw-a", "alice@example.com", "Alice", "A")), salt);
    assert r == Redirect("/users/alice") && app.sessionUser == Some("alice");
    r := app.AddFeedback("alice", Some(FeedbackForm("F1", "from alice")));
    assert 1 in app.feedback && app.feedback[1].username == "alice";

    // alice may not add feedback on another user's page
    r := app.AddFeedback("bob", Some(FeedbackForm("F2", "from alice")));
    assert r == Redirect("/users/alice") && 2 !in app.feedback;

    r := app.LogoutUser();
    r := app.RegisterUser(Some(RegisterForm("bob", "pw-b", "bob@example.com", "Bob", "B")), salt);
    assert "bob" in app.users && app.sessionUser == Some("bob");
    r := app.AddFeedback("bob", Some(FeedbackForm("F2", "from bob")));
  }

  /** Bob may neither see alice's profile, add feedback on her page, delete
      her feedback nor delete her account; nor may he log in again. */
  method BobIsRefused(app: App)
    requires app.Valid() && TwoRecords(app.users, app.feedback) && app.sessionUser == Some("bob")
    modifies app
    ensures app.Valid() && unchanged(app)
  {
    var r := app.UserProfile("alice");
    assert r == Redirect("/users/bob");
    r := app.AddFeedback("alice", Some(FeedbackForm("F3", "from bob")));
    assert r == Redirect("/users/bob");
    r := app.DeleteFeedback(1);
    assert r == Redirect("/users/bob");
    r := app.DeleteUser("alice");
    assert r == Redirect("/users/bob");
    r := app.LoginUser(Some(LoginForm("alice", "pw-a")));
    assert r == Redirect("/users/bob");
  }

  /** Alice logs back in and deletes her account, which takes her record
      with it and leaves bob's. */
  method AliceLeaves(app: App, salt: Salt)
    requires app.Valid() && TwoRecords(app.users, app.feedback)
    requires app.users["alice"] == Register(app.kdf, salt, "alice", "pw-a", "alice@example.com", "Alice", "A")
    modifies app
    ensures app.Valid() && app.sessionUser == None
    ensures app.users.Keys == {"bob"}
    ensures app.feedback == map[2 := Feedback("F2", "from bob", "bob")]
  {
    var r := app.LogoutUser();
    r := app.LoginUser(Some(LoginForm("alice", "pw-a")));
    assert app.sessionUser == Some("alice");
    r := app.DeleteUser("alice");
    assert r == Redirect("/");
    assert app.feedback.Keys == {2};
  }

  method AliceAndBob(kdf: Kdf, salt: Salt)
  {
    var app := AliceAndBobPost(kdf, salt);
    BobIsRefused(app);
    AliceLeaves(app, salt);
    assert "alice" !in app.users && "bob" in app.users;
    assert 1 !in app.feedback && 2 in app.feedback && app.feedback[2].title == "F2";
  }
}
