/**
 * Request sequences a client of the blog can rely on, derived from the
 * handlers' contracts alone.
 */
module Scenarios {
  import opened Passwords
  import opened Blog

  /** Register, log out, then log in: a wrong password is refused and the
      registered one logs the new account back in. */
  method RegisterThenLogIn(site: Site, name: string, email: string, password: string,
                           wrong: string, salt: string, newId: UserId)
    returns (registered: Outcome, refused: Outcome, loggedIn: Outcome)
    requires site.Valid()
    requires newId !in site.users
    requires EmailOwner(site.users, email).None?
    requires wrong != password
    modifies site
    ensures site.Valid()
    ensures registered == RedirectHome
    ensures refused == RedirectToLogin(PasswordIncorrect)
    ensures loggedIn == RedirectHome && site.session == Authenticated(newId)
  {
    registered := site.Register(true, name, email, password, salt, newId);
    assert EmailOwner(site.users, email) == Some(newId);
    var _ := site.Logout();
    CheckGeneratedHash(password, wrong, salt);
    refused := site.Login(true, email, wrong);
    CheckGeneratedHash(password, password, salt);
    loggedIn := site.Login(true, email, password);
  }

  /** Registering a second time with the same email is refused and leaves the
      first account's row as it was. */
  method RegisterTwice(site: Site, name: string, email: string, password: string,
                       otherName: string, otherPassword: string, salt: string,
                       first: UserId, second: UserId)
    returns (accepted: Outcome, refused: Outcome)
    requires site.Valid()
    requires first !in site.users && second !in site.users && first != second
    requires EmailOwner(site.users, email).None?
    modifies site
    ensures site.Valid()
    ensures accepted == RedirectHome
    ensures refused == RedirectToLogin(AlreadyRegistered)
    ensures second !in site.users
    ensures first in site.users && site.users[first] == User(email, GeneratePasswordHash(password, salt), name)
    ensures UsersWithEmail(site.users, email) == {first}
  {
    accepted := site.Register(true, name, email, password, salt, first);
    assert EmailOwner(site.users, email) == Some(first);
    refused := site.Register(true, otherName, email, otherPassword, salt, second);
    AtMostOneAccountPerEmail(site.users, email);
    assert first in UsersWithEmail(site.users, email);
  }

  /** The admin creates a post and then another with the same title: the second is
      refused and exactly one post carries the title. */
  method DuplicateTitle(site: Site, title: string, subtitle: string, body: string,
                        imgUrl: string, today: string, first: PostId, second: PostId)
    returns (created: Outcome, rejected: Outcome)
    requires site.Valid()
    requires site.session == Authenticated(AdminId)
    requires first !in site.posts && second !in site.posts && first != second
    requires !TitleInUse(site.posts, title)
    modifies site
    ensures site.Valid()
    ensures created == RedirectHome && rejected == IntegrityError
    ensures PostsTitled(site.posts, title) == {first}
    ensures site.posts[first].authorId == AdminId && site.posts[first].date == today
  {
    created := site.AddNewPost(true, title, subtitle, body, imgUrl, today, first);
    assert site.posts[first].title == title;
    assert TitleInUse(site.posts, title);
    rejected := site.AddNewPost(true, title, subtitle, body, imgUrl, today, second);
    AtMostOnePostPerTitle(site.posts, title);
    assert first in PostsTitled(site.posts, title);
  }
}
