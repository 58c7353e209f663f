# Blog request handlers, modelled in Dafny

The blog is a Flask application with three tables (users, blog_posts,
comments) and a login session. Its route handlers in `main.py` are the part
with rules: who may register, log in, comment, delete comments, and create,
edit or delete posts, and what each request does to the tables.

This project models those handlers as one state machine. The class
`Blog.Site` holds the three tables as maps from id to row, plus the session
identity (`Anonymous` or `Authenticated(id)`). Each handler is one method
that returns the kind of response it gives: `Rendered`, `Forbidden` (403),
`NotFound` (404), `IntegrityError`, `RedirectHome`, `RedirectToLogin` with
the notice it flashes, or `RedirectToPost`. Each method's postcondition
gives the outcome and the new tables for every branch of the handler. Every
method also preserves the invariant `Site.Valid()`:

- emails are unique;
- titles are unique;
- every post and comment has an existing author;
- a logged-in session names an existing user.

Modules:

- `Passwords` (passwords.dfy): the stored password hash, and the check that
  compares a password against it.
- `Blog` (blog.dfy): the rows, the uniqueness predicates and lemmas, and the
  class `Site` with one method per handler.
- `Scenarios` (scenarios.dfy): request sequences proved from the handlers'
  contracts alone.

Values from outside the program become parameters:

- whether the submitted form passed validation (`formValid`);
- the random salt;
- today's date, already formatted;
- the id the database hands out for a new row. Ids are non-negative (`nat`), and the caller must supply an id
  that is not already in the table.

Behaviour as the code has it, where a plain reading might expect otherwise:

- A duplicate registration is not an error response. It redirects to the
  login page with a notice.
- An anonymous request to delete a comment is not refused. It gets the same
  redirect to the post, and nothing is deleted.
- Any logged-in user can delete any comment, not only its author or the
  admin.
- No handler checks for a duplicate title. The unique constraint on
  `blog_posts.title` rejects the commit. The model gives this as the
  `IntegrityError` outcome, and nothing is written.
- Editing a post makes the editor its author.

## Model

| member | source | states |
|---|---|---|
| `Passwords.CheckGeneratedHash` | main.py:138-145 | a hash made by generate_password_hash from one password accepts that password and rejects every other one, so login succeeds exactly with the registered password |
| `Blog.EmailOwner` | main.py:115 | the row a query on the email column returns has that email; no row is returned only when no user has that email |
| `Blog.AtMostOnePostPerTitle` | main.py:58 | when titles are unique, at most one post carries any given title |
| `Blog.TitlesUniqueIffAtMostOne` | main.py:58 | pairwise uniqueness of titles holds exactly when no title is carried by two posts (both directions) |
| `Blog.AtMostOneAccountPerEmail` | main.py:73 | when emails are unique, at most one account has any given email |
| `Blog.Site.constructor` | main.py:94-95 | the tables start empty, nobody is logged in, and the invariant holds |
| `Blog.Site.AdminOnly` | main.py:98-105 | the wrapped handler may run exactly when the session is logged in as user 1; anonymous callers and every other user are refused |
| `Blog.Site.FindUserByEmail` | main.py:115 | returns the account with the given email when one exists, and it is the only one; returns nothing exactly when no account has that email |
| `Blog.Site.ShowPost` | main.py:166-185 | 404 exactly for a missing post; otherwise the post and exactly the comments whose post is that post, unaltered |
| `Blog.Site.Register` | main.py:108-129 | an unvalidated form changes nothing; a known email changes nothing and redirects to login with a notice; a new email adds exactly one user, with that name and email and the `PasswordHash` made from the password (not the password string), and logs that user in; the invariant is kept |
| `Blog.Site.Login` | main.py:132-149 | the tables never change; an unknown email and a wrong password each leave the session as it was, each with its own notice; a password that checks against the stored hash logs that account in |
| `Blog.Site.Logout` | main.py:152-155 | the session becomes anonymous whoever was logged in, and the tables do not change |
| `Blog.Site.AddComment` | main.py:166-185 | 404 for a missing post; an anonymous caller is sent to login and no comment is made; a logged-in caller adds exactly one comment, authored by the caller, on the requested post; users, posts and session do not change |
| `Blog.Site.DeleteComment` | main.py:188-195 | 404 for a missing comment; otherwise a redirect to the comment's post, and the comment is removed exactly when some user (any user) is logged in; nothing else changes |
| `Blog.Site.AddNewPost` | main.py:198-214 | every caller but user 1 gets 403 and nothing changes; for the admin, a title already in use is rejected with nothing written, otherwise exactly one post is added, authored by the admin and stamped with the given date, and no other row changes |
| `Blog.Site.EditPost` | main.py:217-236 | every caller but user 1 gets 403; 404 for a missing post; a title held by another post is rejected with nothing written; otherwise only that post changes: same id and date, new title, subtitle, image and body, and the editor becomes the author |
| `Blog.Site.DeletePost` | main.py:240-246 | every caller but user 1 gets 403 and nothing changes; 404 for a missing post; otherwise exactly that post id is removed, users and session are kept, and no comment is added, altered or removed unless it belongs to the deleted post |
| `Scenarios.RegisterThenLogIn` | main.py:108-155 | after registering with a fresh email and logging out, a wrong password is refused and the registered password logs that account back in |
| `Scenarios.RegisterTwice` | main.py:115-128 | a second registration with the same email is refused, adds no row, and leaves the first account's row as it was |
| `Scenarios.DuplicateTitle` | main.py:198-213 | when the admin creates two posts with the same title, the second is rejected and exactly one post carries the title, authored by the admin with the given date |

## Left out

- Page rendering and routing are not modelled. This covers templates, `url_for`, the flash text, the `logged_in` and `gravatar` template variables, the post list at `/` and the `/about` page. Only the kind of response and the notice kind are kept.
- The contact route's mail sending is left out (main.py:256-273). It is network I/O to an external SMTP server.
- Process set-up is left out (main.py:18-51). This covers environment variables, the CKEditor, Bootstrap and Gravatar extensions, and the LoginManager wiring.
- `load_user` is left out (main.py:43-44). It only matters for a session naming a deleted user, and users are never deleted.
- Passwords.DeriveKey: a stand-in for PBKDF2-HMAC-SHA256. The model treats it as collision-free for a fixed salt. Real one-wayness and the iteration count are not modelled, because they cannot be stated over these values. The stand-in key spells out the salt and the password, so "not the password" holds only of the stored field's type, not of its contents.
- The salt is random in the source and a parameter here. Its length (8 characters in the source) is not modelled.
- `date.today().strftime("%B %d, %Y")` is a string parameter. The clock and the date format are not modelled.
- WTForms validation lives in forms.py, which is not part of this model. It is a boolean parameter, so required fields and non-empty values are not modelled.
- Column length limits (String(100), String(250)) and NOT NULL constraints are not modelled.
- New row ids are parameters that must not already be in the table. The database's own choice of id is not modelled; some engines reuse a deleted row's id.
- Blog.Site.DeletePost: deliberately weaker about comments. It does not say whether the deleted post's comments are removed or left behind. The source leaves this to SQLAlchemy's default relationship cascade, which this code does not show. For the same reason, `Site.Valid()` does not require a comment's post to exist. The model also assumes that removing the post itself succeeds. In the source, `post_id` is NOT NULL (main.py:92), and the default cascade may try to null it on the post's comments, so the commit could fail for a post that still has comments.
- The source returns an HTTP 500 when a commit breaks the title's unique constraint. The model gives this as the `IntegrityError` outcome, with the transaction rolled back.
- Concurrent requests are not modelled. In particular, two simultaneous registrations with one email could both pass the handler's lookup. Requests are taken one at a time.
- The single `session` field stands for whoever makes the current request. Other clients' sessions are not represented; for example, `Register` and `Login` replace that one session.
