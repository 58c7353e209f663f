/**
 * The blog's request handlers as one state machine over the three tables
 * (users, blog_posts, comments) and the session identity.
 *
 * Each handler is one method of `Site`. What the framework supplies from
 * outside becomes a parameter: whether the submitted form validated, the
 * random salt, today's date as already formatted, and the id the database
 * hands out for a new row (one not yet in the table).
 */
module Blog {
  import opened Passwords

  type UserId = nat
  type PostId = nat
  type CommentId = nat

  /** The one account allowed to manage posts: the first one registered. */
  const AdminId: UserId := 1

  datatype Option<T> = None | Some(value: T)

  /** A row of the users table; the password column holds a `PasswordHash`, not a password string. */
  datatype User = User(email: string, password: PasswordHash, name: string)

  /** A row of the blog_posts table, keyed by its id. */
  datatype BlogPost = BlogPost(
    title: string,
    subtitle: string,
    date: string,
    body: string,
    imgUrl: string,
    authorId: UserId)

  /** A row of the comments table, keyed by its id. */
  datatype Comment = Comment(text: string, authorId: UserId, postId: PostId)

  /** Who the session says is making the request. */
  datatype Identity = Anonymous | Authenticated(id: UserId)

  /** The message flashed before a redirect to the login page. */
  datatype Notice = AlreadyRegistered | PasswordIncorrect | EmailUnknown | LoginToComment

  /** The kind of response a handler gives. */
  datatype Outcome =
    | Rendered                 // the page or form is rendered again; nothing is written
    | Forbidden                // abort(403)
    | NotFound                 // get_or_404 found no row
    | IntegrityError           // the commit broke a unique constraint and was rolled back
    | RedirectHome             // redirect to the list of all posts
    | RedirectToLogin(notice: Notice)
    | RedirectToPost(post: PostId)

  /** What the post page shows: the post and the comments attached to it. */
  datatype PostPage = PostPage(post: BlogPost, comments: map<CommentId, Comment>)

  /** users.email is declared unique. */
  ghost predicate EmailsUnique(users: map<UserId, User>)
  {
    forall a, b :: a in users && b in users && users[a].email == users[b].email ==> a == b
  }

  /** blog_posts.title is declared unique. */
  ghost predicate TitlesUnique(posts: map<PostId, BlogPost>)
  {
    forall a, b :: a in posts && b in posts && posts[a].title == posts[b].title ==> a == b
  }

  /** Some post in `posts` already carries `title`. */
  predicate TitleInUse(posts: map<PostId, BlogPost>, title: string)
  {
    exists id :: id in posts && posts[id].title == title
  }

  /** The ids of the posts titled `title`. */
  function PostsTitled(posts: map<PostId, BlogPost>, title: string): (ids: set<PostId>)
  {
    set id | id in posts && posts[id].title == title
  }

  /** The ids of the users registered with `email`. */
  function UsersWithEmail(users: map<UserId, User>, email: string): (ids: set<UserId>)
  {
    set id | id in users && users[id].email == email
  }

  /** The user a query on the email column returns, if any. */
  ghost function EmailOwner(users: map<UserId, User>, email: string): (owner: Option<UserId>)
    ensures owner.Some? ==> owner.value in users && users[owner.value].email == email
    ensures owner.None? ==> forall id :: id in users ==> users[id].email != email
  {
    if exists id :: id in users && users[id].email == email then
      var id :| id in users && users[id].email == email; Some(id)
    else
      None
  }

  /** With unique titles no title is held by two posts. */
  lemma AtMostOnePostPerTitle(posts: map<PostId, BlogPost>, title: string)
    requires TitlesUnique(posts)
    ensures |PostsTitled(posts, title)| <= 1
  {
    if exists id :: id in posts && posts[id].title == title {
      var id :| id in posts && posts[id].title == title;
      forall other | other in PostsTitled(posts, title) ensures other == id {}
      assert PostsTitled(posts, title) == {id};
    } else {
      assert PostsTitled(posts, title) == {};
    }
  }

  /** The pairwise uniqueness of titles is the same as "no title is held by two posts". */
  lemma TitlesUniqueIffAtMostOne(posts: map<PostId, BlogPost>)
    ensures TitlesUnique(posts) <==> forall t :: |PostsTitled(posts, t)| <= 1
  {
    if TitlesUnique(posts) {
      forall t ensures |PostsTitled(posts, t)| <= 1 {
        AtMostOnePostPerTitle(posts, t);
      }
    } else {
      var a, b :| a in posts && b in posts && posts[a].title == posts[b].title && a != b;
      var s := PostsTitled(posts, posts[a].title);
      assert s == {a, b} + (s - {a, b});
      assert |{a, b}| == 2;
    }
  }

  /** With unique emails no address belongs to two accounts. */
  lemma AtMostOneAccountPerEmail(users: map<UserId, User>, email: string)
    requires EmailsUnique(users)
    ensures |UsersWithEmail(users, email)| <= 1
  {
    if exists id :: id in users && users[id].email == email {
      var id :| id in users && users[id].email == email;
      forall other | other in UsersWithEmail(users, email) ensures other == id {}
      assert UsersWithEmail(users, email) == {id};
    } else {
      assert UsersWithEmail(users, email) == {};
    }
  }

  /** The application: the three tables and the session of the requester. */
  class Site {
    var users: map<UserId, User>
    var posts: map<PostId, BlogPost>
    var comments: map<CommentId, Comment>
    var session: Identity

    /** Unique emails and titles, authors that exist, and a session naming an existing user.
        Comments of a deleted post are not constrained (see DeletePost). */
    ghost predicate Valid()
      reads this
    {
      && EmailsUnique(users)
      && TitlesUnique(posts)
      && (forall id :: id in posts ==> posts[id].authorId in users)
      && (forall id :: id in comments ==> comments[id].authorId in users)
      && (session.Authenticated? ==> session.id in users)
    }

    /** db.create_all() on an empty database; nobody is logged in. */
    constructor ()
      ensures Valid()
      ensures users == map[] && posts == map[] && comments == map[] && session == Anonymous
    {
      users, posts, comments, session := map[], map[], map[], Anonymous;
    }

    /** The admin_only guard: the wrapped handler runs only for the logged-in user with id 1. */
    method AdminOnly() returns (allowed: bool)
      ensures allowed <==> session == Authenticated(AdminId)
    {
      allowed := session.Authenticated? && session.id == AdminId;
    }

    /** db.select(User).where(User.email == email).scalar() */
    method FindUserByEmail(email: string) returns (found: Option<UserId>)
      requires Valid()
      ensures found == EmailOwner(users, email)
      ensures found.Some? <==> email in set id | id in users :: users[id].email
      ensures found.Some? ==> UsersWithEmail(users, email) == {found.value}
    {
      if exists id :: id in users && users[id].email == email {
        var id :| id in users && users[id].email == email;
        found := Some(id);
        AtMostOneAccountPerEmail(users, email);
        assert id in UsersWithEmail(users, email);
      } else {
        found := None;
      }
    }

    /** The page of a post (show_post on GET): the post and exactly its comments. */
    method ShowPost(postId: PostId) returns (page: Option<PostPage>)
      ensures page.None? <==> postId !in posts
      ensures page.Some? ==> page.value.post == posts[postId]
      ensures page.Some? ==>
        forall id :: id in page.value.comments <==> id in comments && comments[id].postId == postId
      ensures page.Some? ==>
        forall id :: id in page.value.comments ==> page.value.comments[id] == comments[id]
    {
      if postId !in posts {
        return None;
      }
      var own := map id | id in comments && comments[id].postId == postId :: comments[id];
      return Some(PostPage(posts[postId], own));
    }

    /** register: a new email adds one user, stored with the hash of the password,
        and logs them in; a known email changes nothing and sends the caller to login. */
    method Register(formValid: bool, name: string, email: string, password: string,
                    salt: string, newId: UserId) returns (outcome: Outcome)
      requires Valid()
      requires newId !in users
      modifies this`users, this`session
      ensures Valid()
      ensures !formValid ==> outcome == Rendered && unchanged(this)
      ensures formValid && EmailOwner(old(users), email).Some? ==>
        outcome == RedirectToLogin(AlreadyRegistered) && unchanged(this)
      ensures formValid && EmailOwner(old(users), email).None? ==>
        && outcome == RedirectHome
        && users == old(users)[newId := User(email, GeneratePasswordHash(password, salt), name)]
        && session == Authenticated(newId)
    {
      if !formValid {
        return Rendered;
      }
      var hashed := GeneratePasswordHash(password, salt);
      var existing := FindUserByEmail(email);
      if existing.None? {
        users := users[newId := User(email, hashed, name)];
        session := Authenticated(newId);
        return RedirectHome;
      }
      return RedirectToLogin(AlreadyRegistered);
    }

    /** login: an unknown email and a wrong password each leave everything as it was,
        with their own notice; a password that checks logs that user in. */
    method Login(formValid: bool, email: string, password: string) returns (outcome: Outcome)
      requires Valid()
      modifies this`session
      ensures Valid()
      ensures !formValid ==> outcome == Rendered && session == old(session)
      ensures formValid && EmailOwner(users, email).None? ==>
        outcome == RedirectToLogin(EmailUnknown) && session == old(session)
      ensures formValid && EmailOwner(users, email).Some? ==>
        var id := EmailOwner(users, email).value;
        if CheckPasswordHash(users[id].password, password) then
          outcome == RedirectHome && session == Authenticated(id)
        else
          outcome == RedirectToLogin(PasswordIncorrect) && session == old(session)
    {
      if !formValid {
        return Rendered;
      }
      var found := FindUserByEmail(email);
      if found.Some? {
        if CheckPasswordHash(users[found.value].password, password) {
          session := Authenticated(found.value);
          return RedirectHome;
        } else {
          return RedirectToLogin(PasswordIncorrect);
        }
      } else {
        return RedirectToLogin(EmailUnknown);
      }
    }

    /** logout: whoever was logged in, the session becomes anonymous. */
    method Logout() returns (outcome: Outcome)
      requires Valid()
      modifies this`session
      ensures Valid()
      ensures outcome == RedirectHome && session == Anonymous
    {
      session := Anonymous;
      return RedirectHome;
    }

    /** show_post on a submitted comment: 404 for a missing post, a login redirect for an
        anonymous caller, otherwise exactly one new comment by the caller on that post. */
    method AddComment(postId: PostId, formValid: bool, text: string, newId: CommentId)
      returns (outcome: Outcome)
      requires Valid()
      requires newId !in comments
      modifies this`comments
      ensures Valid()
      ensures postId !in posts ==> outcome == NotFound && comments == old(comments)
      ensures postId in posts && !formValid ==> outcome == Rendered && comments == old(comments)
      ensures postId in posts && formValid && session == Anonymous ==>
        outcome == RedirectToLogin(LoginToComment) && comments == old(comments)
      ensures postId in posts && formValid && session.Authenticated? ==>
        && outcome == RedirectToPost(postId)
        && comments == old(comments)[newId := Comment(text, session.id, postId)]
    {
      if postId !in posts {
        return NotFound;
      }
      if !formValid {
        return Rendered;
      }
      if session.Authenticated? {
        comments := comments[newId := Comment(text, session.id, postId)];
        return RedirectToPost(postId);
      }
      return RedirectToLogin(LoginToComment);
    }

    /** delete_comment: 404 for a missing comment; otherwise a redirect to its post, and the
        comment is removed whenever someone (anyone) is logged in. */
    method DeleteComment(commentId: CommentId) returns (outcome: Outcome)
      requires Valid()
      modifies this`comments
      ensures Valid()
      ensures commentId !in old(comments) ==> outcome == NotFound && comments == old(comments)
      ensures commentId in old(comments) ==>
        && outcome == RedirectToPost(old(comments)[commentId].postId)
        && comments == if session.Authenticated? then old(comments) - {commentId} else old(comments)
    {
      if commentId !in comments {
        return NotFound;
      }
      var postId := comments[commentId].postId;
      if session.Authenticated? {
        comments := comments - {commentId};
      }
      return RedirectToPost(postId);
    }

    /** add_new_post behind admin_only: a new post by the admin, stamped with today's date;
        a title already in use is refused by the unique constraint at commit. */
    method AddNewPost(formValid: bool, title: string, subtitle: string, body: string,
                      imgUrl: string, today: string, newId: PostId) returns (outcome: Outcome)
      requires Valid()
      requires newId !in posts
      modifies this`posts
      ensures Valid()
      ensures session != Authenticated(AdminId) ==> outcome == Forbidden && posts == old(posts)
      ensures session == Authenticated(AdminId) && !formValid ==>
        outcome == Rendered && posts == old(posts)
      ensures session == Authenticated(AdminId) && formValid && TitleInUse(old(posts), title) ==>
        outcome == IntegrityError && posts == old(posts)
      ensures session == Authenticated(AdminId) && formValid && !TitleInUse(old(posts), title) ==>
        && outcome == RedirectHome
        && posts == old(posts)[newId := BlogPost(title, subtitle, today, body, imgUrl, session.id)]
    {
      var allowed := AdminOnly();
      if !allowed {
        return Forbidden;
      }
      if !formValid {
        return Rendered;
      }
      if TitleInUse(posts, title) {
        return IntegrityError;
      }
      posts := posts[newId := BlogPost(title, subtitle, today, body, imgUrl, session.id)];
      return RedirectHome;
    }

    /** edit_post behind admin_only: keeps the post's id and date, replaces title, subtitle,
        image and body, and makes the editor the author; 404 for a missing post. */
    method EditPost(postId: PostId, formValid: bool, title: string, subtitle: string,
                    imgUrl: string, body: string) returns (outcome: Outcome)
      requires Valid()
      modifies this`posts
      ensures Valid()
      ensures session != Authenticated(AdminId) ==> outcome == Forbidden && posts == old(posts)
      ensures session == Authenticated(AdminId) && postId !in old(posts) ==>
        outcome == NotFound && posts == old(posts)
      ensures session == Authenticated(AdminId) && postId in old(posts) && !formValid ==>
        outcome == Rendered && posts == old(posts)
      ensures session == Authenticated(AdminId) && postId in old(posts) && formValid
              && TitleInUse(old(posts) - {postId}, title) ==>
        outcome == IntegrityError && posts == old(posts)
      ensures session == Authenticated(AdminId) && postId in old(posts) && formValid
              && !TitleInUse(old(posts) - {postId}, title) ==>
        && outcome == RedirectToPost(postId)
        && posts.Keys == old(posts).Keys
        && posts == old(posts)[postId := BlogPost(title, subtitle, old(posts)[postId].date, body,
                                                  imgUrl, session.id)]
    {
      var allowed := AdminOnly();
      if !allowed {
        return Forbidden;
      }
      if postId !in posts {
        return NotFound;
      }
      if !formValid {
        return Rendered;
      }
      if TitleInUse(posts - {postId}, title) {
        return IntegrityError;
      }
      forall id | id in posts && id != postId ensures posts[id].title != title {
        assert id in posts - {postId};
      }
      var post := posts[postId];
      posts := posts[postId := post.(title := title, subtitle := subtitle, imgUrl := imgUrl,
                                     authorId := session.id, body := body)];
      return RedirectToPost(postId);
    }

    /** delete_post behind admin_only: removes exactly that post; 404 for a missing post.
        Comments on other posts are kept; those on the deleted post are left unspecified. */
    method DeletePost(postId: PostId) returns (outcome: Outcome)
      requires Valid()
      modifies this`posts, this`comments
      ensures Valid()
      ensures session != Authenticated(AdminId) ==> outcome == Forbidden && unchanged(this)
      ensures session == Authenticated(AdminId) && postId !in old(posts) ==>
        outcome == NotFound && unchanged(this)
      ensures session == Authenticated(AdminId) && postId in old(posts) ==>
        outcome == RedirectHome && posts == old(posts) - {postId}
      ensures forall id :: id in comments ==> id in old(comments) && comments[id] == old(comments)[id]
      ensures forall id :: id in old(comments) && old(comments)[id].postId != postId ==>
        id in comments && comments[id] == old(comments)[id]
    {
      var allowed := AdminOnly();
      if !allowed {
        return Forbidden;
      }
      if postId !in posts {
        return NotFound;
      }
      posts := posts - {postId};
      return RedirectHome;
    }
  }
}
