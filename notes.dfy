/**
 * The notes service: the note normaliser, the ownership gate every handler
 * applies to the verified token's claims, and the effect of each of the six
 * handlers (Create, Read, ReadMany, ReadAll, Update, Delete) on the note
 * collection and on the reply.
 */
module Notes {
  import opened Collection
  import opened Jwt

  /** A point in time; 0 stands for Go's zero time.Time. */
  type Time = int
  const ZeroTime: Time := 0

  /** A document id; 0 stands for the nil ObjectID. */
  type ObjectId = nat
  const NilObjectId: ObjectId := 0

  /** A note as decoded from a request body: it carries no id. */
  datatype Note = Note(title: string, description: string, user: string, date: Time)

  /** A note as stored and returned, with the id the store gave it on insert. */
  datatype NoteReturn = NoteReturn(id: ObjectId, title: string, description: string, user: string, date: Time)

  /** The value Read answers with when nothing matches. */
  const ZeroNoteReturn: NoteReturn := NoteReturn(NilObjectId, "", "", "", ZeroTime)

  const NotAvailable: string := "N/A"
  const NotAuthorized: string := "You're not authorized to make this request"

  function CreatedMessage(title: string): string { "Successfully created '" + title + "'" }
  function UpdatedMessage(title: string): string { "Successfully updated '" + title + "'" }
  function DeletedMessage(title: string): string { "Successfully deleted '" + title + "'" }

  /** What a handler writes back: a text message, one note, or a list of notes. */
  datatype Reply = Text(message: string) | Found(note: NoteReturn) | Listed(notes: seq<NoteReturn>)

  // ---------------------------------------------------------------------------
  // The normaliser

  /** The normaliser `defaults`: an unset date becomes now, an empty description "N/A". */
  function Defaults(n: Note, now: Time): (r: Note)
    ensures r.title == n.title && r.user == n.user
    ensures n.date != ZeroTime ==> r.date == n.date
    ensures n.date == ZeroTime ==> r.date == now
    ensures n.description != "" ==> r.description == n.description
    ensures n.description == "" ==> r.description == NotAvailable
  {
    var dated := if n.date == ZeroTime then n.(date := now) else n;
    if dated.description == "" then dated.(description := NotAvailable) else dated
  }

  /** A note the normaliser has nothing left to fill in. */
  predicate Complete(n: Note)
  {
    n.date != ZeroTime && n.description != ""
  }

  lemma DefaultsIdempotent(n: Note, now: Time)
    ensures Defaults(Defaults(n, now), now) == Defaults(n, now)
  {
  }

  lemma DefaultsCompletes(n: Note, now: Time)
    requires now != ZeroTime
    ensures Complete(Defaults(n, now))
  {
  }

  lemma DefaultsFixesComplete(n: Note, now: Time)
    requires Complete(n)
    ensures Defaults(n, now) == n
  {
  }

  /** Once normalised with a real clock, a note is unaffected by any later normalisation. */
  lemma DefaultsStable(n: Note, now: Time, later: Time)
    requires now != ZeroTime
    ensures Defaults(Defaults(n, now), later) == Defaults(n, now)
  {
    DefaultsCompletes(n, now);
    DefaultsFixesComplete(Defaults(n, now), later);
  }

  // ---------------------------------------------------------------------------
  // The ownership gate

  /**
   * The gate every handler applies: the target user must equal the token's
   * username claim. A claim that is missing compares unequal to every
   * string, the empty one included.
   */
  predicate Authorized(claims: Claims, target: string)
  {
    UsernameKey in claims && claims[UsernameKey] == target
  }

  lemma MissingClaimDenies(claims: Claims, target: string)
    requires UsernameKey !in claims
    ensures !Authorized(claims, target)
  {
  }

  /** A token opens the notes of exactly one user. */
  lemma GateAdmitsOneUser(claims: Claims, u: string, v: string)
    requires Authorized(claims, u) && Authorized(claims, v)
    ensures u == v
  {
  }

  // ---------------------------------------------------------------------------
  // Filters and the update document

  /** The exact filter of Read, Update and Delete: title equals t and user equals u. */
  predicate HasKey(d: NoteReturn, t: string, u: string)
  {
    d.title == t && d.user == u
  }

  /** The filter of ReadMany: user equals u and the title starts with t (t read literally). */
  predicate HasPrefix(d: NoteReturn, t: string, u: string)
  {
    d.user == u && t <= d.title
  }

  function KeyMatch(t: string, u: string): NoteReturn -> bool
  {
    d => HasKey(d, t, u)
  }

  function PrefixMatch(t: string, u: string): NoteReturn -> bool
  {
    d => HasPrefix(d, t, u)
  }

  function OwnerMatch(u: string): NoteReturn -> bool
  {
    (d: NoteReturn) => d.user == u
  }

  /** The document InsertOne stores for a decoded note. */
  function Stored(id: ObjectId, n: Note): NoteReturn
  {
    NoteReturn(id, n.title, n.description, n.user, n.date)
  }

  /** Update's `$set`: title, description and date from n; id and user stay. */
  function Revised(d: NoteReturn, n: Note): NoteReturn
  {
    d.(title := n.title, description := n.description, date := n.date)
  }

  function Revise(n: Note): NoteReturn -> NoteReturn
  {
    d => Revised(d, n)
  }

  /** An update never changes who owns a note or its id, and leaves other users' notes alone. */
  lemma UpdateKeepsOwnership(s: seq<NoteReturn>, t: string, u: string, n: Note)
    ensures |UpdateFirst(s, KeyMatch(t, u), Revise(n))| == |s|
    ensures forall i :: 0 <= i < |s| ==>
      UpdateFirst(s, KeyMatch(t, u), Revise(n))[i].user == s[i].user &&
      UpdateFirst(s, KeyMatch(t, u), Revise(n))[i].id == s[i].id
    ensures forall i :: 0 <= i < |s| && !HasKey(s[i], t, u) ==> UpdateFirst(s, KeyMatch(t, u), Revise(n))[i] == s[i]
  {
    UpdateFirstTouchesOnlyFirstMatch(s, KeyMatch(t, u), Revise(n));
  }

  /** Every stored note carries a non-nil id, and no two carry the same one. */
  predicate IdsUnique(s: seq<NoteReturn>)
  {
    (forall i :: 0 <= i < |s| ==> s[i].id != NilObjectId) &&
    (forall i, j :: 0 <= i < j < |s| ==> s[i].id != s[j].id)
  }

  /** Removing one note keeps the ids of the others unique. */
  lemma IdsUniqueAfterRemoval(s: seq<NoteReturn>, k: nat)
    requires IdsUnique(s) && k < |s|
    ensures IdsUnique(s[..k] + s[k + 1..])
  {
    var r := s[..k] + s[k + 1..];
    assert forall i :: 0 <= i < |r| ==> r[i] == s[if i < k then i else i + 1];
  }

  // ---------------------------------------------------------------------------
  // The handlers

  /** The note collection, in the store's natural order. */
  class NoteStore {
    var notes: seq<NoteReturn>

    /** The ids InsertOne generated are non-nil and pairwise distinct. */
    ghost predicate Valid()
      reads this
    {
      IdsUnique(notes)
    }

    constructor (initial: seq<NoteReturn>)
      requires IdsUnique(initial)
      ensures Valid() && notes == initial
    {
      notes := initial;
    }

    /**
     * Create gates on the body's user field: when it is the caller's, the
     * normalised note is appended under the id the store generated, which
     * is non-nil and used by no stored note.
     */
    method Create(claims: Claims, payload: Note, now: Time, id: ObjectId) returns (reply: Reply)
      requires Valid()
      requires id != NilObjectId && forall i :: 0 <= i < |notes| ==> notes[i].id != id
      modifies this
      ensures Valid()
      ensures !Authorized(claims, payload.user) ==> notes == old(notes) && reply == Text(NotAuthorized)
      ensures Authorized(claims, payload.user) ==> notes == old(notes) + [Stored(id, Defaults(payload, now))]
      ensures Authorized(claims, payload.user) ==> reply == Text(CreatedMessage(payload.title))
    {
      var n := Defaults(payload, now);
      if Authorized(claims, n.user) {
        notes := notes + [Stored(id, n)];
        reply := Text(CreatedMessage(n.title));
      } else {
        reply := Text(NotAuthorized);
      }
    }

    /**
     * Read walks every note with title t and user u and keeps the last one;
     * with no match it answers the zero note.
     */
    method Read(claims: Claims, u: string, t: string) returns (reply: Reply)
      ensures !Authorized(claims, u) ==> reply == Text(NotAuthorized)
      ensures Authorized(claims, u) ==> reply.Found?
      ensures Authorized(claims, u) && (forall i :: 0 <= i < |notes| ==> !HasKey(notes[i], t, u)) ==>
        reply.note == ZeroNoteReturn
      ensures Authorized(claims, u) && (exists i :: 0 <= i < |notes| && HasKey(notes[i], t, u)) ==>
        exists i :: 0 <= i < |notes| && notes[i] == reply.note && HasKey(notes[i], t, u) &&
          forall j :: i < j < |notes| ==> !HasKey(notes[j], t, u)
    {
      if !Authorized(claims, u) {
        return Text(NotAuthorized);
      }
      var n := ZeroNoteReturn;
      ghost var last := -1;
      var i := 0;
      while i < |notes|
        invariant 0 <= i <= |notes|
        invariant -1 <= last < i
        invariant last == -1 ==> n == ZeroNoteReturn && forall j :: 0 <= j < i ==> !HasKey(notes[j], t, u)
        invariant last >= 0 ==> notes[last] == n && HasKey(n, t, u)
        invariant forall j :: last < j < i ==> !HasKey(notes[j], t, u)
      {
        if HasKey(notes[i], t, u) {
          n := notes[i];
          last := i;
        }
        i := i + 1;
      }
      reply := Found(n);
    }

    /** ReadMany lists, in store order, exactly the notes of u whose title starts with t. */
    function ReadMany(claims: Claims, u: string, t: string): (r: Reply)
      reads this
      ensures !Authorized(claims, u) ==> r == Text(NotAuthorized)
      ensures Authorized(claims, u) ==> r.Listed? && IsSubsequence(r.notes, notes)
      ensures Authorized(claims, u) ==>
        forall d :: multiset(r.notes)[d] == if HasPrefix(d, t, u) then multiset(notes)[d] else 0
    {
      if Authorized(claims, u) then Listed(Filter(notes, PrefixMatch(t, u))) else Text(NotAuthorized)
    }

    /** ReadAll lists, in store order, exactly the notes of u. */
    function ReadAll(claims: Claims, u: string): (r: Reply)
      reads this
      ensures !Authorized(claims, u) ==> r == Text(NotAuthorized)
      ensures Authorized(claims, u) ==> r.Listed? && IsSubsequence(r.notes, notes)
      ensures Authorized(claims, u) ==>
        forall d :: multiset(r.notes)[d] == if d.user == u then multiset(notes)[d] else 0
    {
      if Authorized(claims, u) then Listed(Filter(notes, OwnerMatch(u))) else Text(NotAuthorized)
    }

    /**
     * Update sets title, description and date of the first note with title t
     * and user u from the normalised payload; the reply names the payload's
     * title whether or not anything matched.
     */
    method Update(claims: Claims, u: string, t: string, payload: Note, now: Time) returns (reply: Reply)
      requires Valid()
      modifies this
      ensures Valid()
      ensures !Authorized(claims, u) ==> notes == old(notes) && reply == Text(NotAuthorized)
      ensures Authorized(claims, u) ==> reply == Text(UpdatedMessage(payload.title))
      ensures Authorized(claims, u) ==> notes == UpdateFirst(old(notes), KeyMatch(t, u), Revise(Defaults(payload, now)))
      ensures Authorized(claims, u) ==> |notes| == |old(notes)|
      ensures Authorized(claims, u) ==>
        match FirstMatch(old(notes), KeyMatch(t, u))
        case None => notes == old(notes)
        case Some(k) => notes == old(notes)[k := Revised(old(notes)[k], Defaults(payload, now))]
    {
      var n := Defaults(payload, now);
      if Authorized(claims, u) {
        UpdateKeepsOwnership(notes, t, u, n);
        notes := UpdateFirst(notes, KeyMatch(t, u), Revise(n));
        reply := Text(UpdatedMessage(n.title));
      } else {
        reply := Text(NotAuthorized);
      }
    }

    /**
     * Delete removes the first note with title t and user u; the reply names
     * t whether or not anything matched.
     */
    method Delete(claims: Claims, u: string, t: string) returns (reply: Reply)
      requires Valid()
      modifies this
      ensures Valid()
      ensures !Authorized(claims, u) ==> notes == old(notes) && reply == Text(NotAuthorized)
      ensures Authorized(claims, u) ==> reply == Text(DeletedMessage(t))
      ensures Authorized(claims, u) ==> notes == DeleteFirst(old(notes), KeyMatch(t, u))
      ensures Authorized(claims, u) ==>
        match FirstMatch(old(notes), KeyMatch(t, u))
        case None => notes == old(notes)
        case Some(k) => notes == old(notes)[..k] + old(notes)[k + 1..]
    {
      if Authorized(claims, u) {
        match FirstMatch(notes, KeyMatch(t, u)) {
          case None =>
          case Some(k) => IdsUniqueAfterRemoval(notes, k);
        }
        notes := DeleteFirst(notes, KeyMatch(t, u));
        reply := Text(DeletedMessage(t));
      } else {
        reply := Text(NotAuthorized);
      }
    }
  }
}
