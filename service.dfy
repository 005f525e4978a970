/**
 * The two services together: the claims the auth service issues are the
 * claims the notes gate checks.
 */
module Service {
  import opened Collection
  import Notes
  import Auth

  /** A token issued for an account opens that account's notes and nobody else's. */
  lemma IssuedTokenOpensOwnNotes(username: string, password: string, target: string)
    ensures Notes.Authorized(Auth.JwtCreate(username, password), target) <==> target == username
  {
  }

  /** The prefix lookup of "Gro" over alice's "Groceries", "Grocery2" and "Work". */
  lemma PrefixLookupExample(a: Notes.NoteReturn, b: Notes.NoteReturn, c: Notes.NoteReturn)
    requires a.user == "alice" && a.title == "Groceries"
    requires b.user == "alice" && b.title == "Grocery2"
    requires c.user == "alice" && c.title == "Work"
    ensures Filter([a, b, c], Notes.PrefixMatch("Gro", "alice")) == [a, b]
  {
    assert "Gro" <= a.title && "Gro" <= b.title;
    assert c.title[0] != 'G';
    assert [a, b, c][1..] == [b, c] && [b, c][1..] == [c] && [c][1..] == [];
  }

  /** Sign-up issues the token that the notes gate then accepts for the new account only. */
  method SignUpThenCreate(now: Notes.Time)
    requires now != Notes.ZeroTime
  {
    var accounts := new Auth.UserStore([]);
    var alice := accounts.SignUpHandler(Auth.User("alice", "pw", "a@example.org", "2000-01-01"));
    var again := accounts.SignUpHandler(Auth.User("alice", "other", "a@example.org", "2000-01-01"));
    assert |accounts.users| == 2;
    var body, delivered := accounts.SignInHandler(Auth.SignIn("alice", "wrong"));
    assert !Auth.HasCredentials(accounts.users[0], Auth.SignIn("alice", "wrong"));
    assert !Auth.HasCredentials(accounts.users[1], Auth.SignIn("alice", "wrong"));
    assert body == Auth.NoMatchingDocuments && delivered.None?;

    var store := new Notes.NoteStore([]);
    var r := store.Create(alice, Notes.Note("Groceries", "", "alice", Notes.ZeroTime), now, 1);
    assert r == Notes.Text(Notes.CreatedMessage("Groceries"));
    assert store.notes == [Notes.NoteReturn(1, "Groceries", "N/A", "alice", now)];
    r := store.Create(alice, Notes.Note("Spam", "", "bob", Notes.ZeroTime), now, 2);
    assert r == Notes.Text(Notes.NotAuthorized) && |store.notes| == 1;
  }

  /** Reading, editing and deleting alice's notes; bob's token changes nothing. */
  method NoteSession(now: Notes.Time)
    requires now != Notes.ZeroTime
  {
    var alice := Auth.JwtCreate("alice", "pw");
    var bob := Auth.JwtCreate("bob", "pw2");
    var g := Notes.NoteReturn(1, "Groceries", "N/A", "alice", now);
    var store := new Notes.NoteStore([g, Notes.NoteReturn(2, "Grocery2", "x", "alice", now),
                                      Notes.NoteReturn(3, "Work", "y", "alice", now)]);

    var r := store.Delete(bob, "alice", "Groceries");
    assert r == Notes.Text(Notes.NotAuthorized) && store.notes[0] == g;

    r := store.Read(alice, "alice", "Groceries");
    assert !Notes.HasKey(store.notes[1], "Groceries", "alice");
    assert !Notes.HasKey(store.notes[2], "Groceries", "alice");
    assert r.note == g;

    assert Notes.KeyMatch("Groceries", "alice")(store.notes[0]);
    r := store.Update(alice, "alice", "Groceries", Notes.Note("Groceries", "Milk, eggs", "", now), now);
    assert store.notes[0] == Notes.NoteReturn(1, "Groceries", "Milk, eggs", "alice", now);

    r := store.Delete(alice, "alice", "Nothing");
    assert r == Notes.Text(Notes.DeletedMessage("Nothing")) && |store.notes| == 3;
  }
}
