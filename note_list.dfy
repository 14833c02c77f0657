/**
 * The client-side note collection of the notes app and the pure computations its
 * event handlers use to derive the next collection: `find`, the flipped copy,
 * replace-by-id (`map`), remove-by-id and the important-only view (`filter`).
 */
module NoteList {
  import opened Sequences

  /** Server-assigned note identifier; it is spliced into request URLs, so it is text. */
  type NoteId = string

  /** A note as the server returns it. */
  datatype Note = Note(id: NoteId, content: string, important: bool)

  /** A note not yet created on the server: it has no id. */
  datatype NoteDraft = NoteDraft(content: string, important: bool)

  /** Some entry of `notes` carries `id`. */
  predicate HasId(notes: seq<Note>, id: NoteId)
  {
    exists i :: 0 <= i < |notes| && notes[i].id == id
  }

  /** No two entries of `notes` share an id. */
  ghost predicate UniqueIds(notes: seq<Note>)
  {
    forall i, j :: 0 <= i < j < |notes| ==> notes[i].id != notes[j].id
  }

  function WithId(id: NoteId): Note -> bool
  {
    (n: Note) => n.id == id
  }

  function WithoutId(id: NoteId): Note -> bool
  {
    (n: Note) => n.id != id
  }

  predicate IsImportant(n: Note)
  {
    n.important
  }

  /** The number of entries that carry `id`. */
  function CountId(notes: seq<Note>, id: NoteId): nat
  {
    Count(notes, WithId(id))
  }

  /** `notes.find(n => n.id === id)`: the position of the first entry with `id`. */
  function FindIndex(notes: seq<Note>, id: NoteId): (i: nat)
    requires HasId(notes, id)
    ensures i < |notes| && notes[i].id == id
    ensures forall j :: 0 <= j < i ==> notes[j].id != id
  {
    if notes[0].id == id then 0
    else
      assert HasId(notes[1..], id) by {
        var k :| 0 <= k < |notes| && notes[k].id == id;
        assert notes[1..][k - 1].id == id;
      }
      1 + FindIndex(notes[1..], id)
  }

  /** `{ ...note, important: !note.important }`. */
  function Flip(n: Note): (m: Note)
    ensures m.id == n.id && m.content == n.content
    ensures m.important == !n.important
  {
    n.(important := !n.important)
  }

  /** `notes.map(note => note.id !== id ? note : returned)`. */
  function ReplaceById(notes: seq<Note>, id: NoteId, returned: Note): (r: seq<Note>)
    ensures |r| == |notes|
    ensures forall i :: 0 <= i < |notes| && notes[i].id == id ==> r[i] == returned
    ensures forall i :: 0 <= i < |notes| && notes[i].id != id ==> r[i] == notes[i]
  {
    if notes == [] then []
    else [if notes[0].id != id then notes[0] else returned] + ReplaceById(notes[1..], id, returned)
  }

  /** `notes.filter(n => n.id !== id)`. */
  function RemoveById(notes: seq<Note>, id: NoteId): (r: seq<Note>)
    ensures IsSubsequence(r, notes)
    ensures forall i :: 0 <= i < |r| ==> r[i].id != id && r[i] in notes
    ensures forall i :: 0 <= i < |notes| && notes[i].id != id ==> notes[i] in r
    ensures |r| == |notes| - CountId(notes, id)
  {
    CountComplement(notes, WithoutId(id), WithId(id));
    Filter(notes, WithoutId(id))
  }

  /** `notes.filter(note => note.important === true)`. */
  function ImportantOnly(notes: seq<Note>): (r: seq<Note>)
    ensures IsSubsequence(r, notes)
    ensures forall i :: 0 <= i < |r| ==> r[i].important && r[i] in notes
    ensures forall i :: 0 <= i < |notes| && notes[i].important ==> notes[i] in r
    ensures |r| == Count(notes, IsImportant)
  {
    Filter(notes, IsImportant)
  }

  /** Taking a subsequence cannot make two ids collide. */
  lemma {:induction false} SubsequenceKeepsUniqueIds(a: seq<Note>, b: seq<Note>)
    requires IsSubsequence(a, b) && UniqueIds(b)
    ensures UniqueIds(a)
    decreases |b|
  {
    if a != [] {
      assert UniqueIds(b[1..]) by {
        forall i, j | 0 <= i < j < |b[1..]| ensures b[1..][i].id != b[1..][j].id {
          assert b[1..][i] == b[i + 1] && b[1..][j] == b[j + 1];
        }
      }
      if a[0] == b[0] && IsSubsequence(a[1..], b[1..]) {
        SubsequenceKeepsUniqueIds(a[1..], b[1..]);
        SubsequenceMembers(a[1..], b[1..]);
        forall i, j | 0 <= i < j < |a| ensures a[i].id != a[j].id {
          if i == 0 {
            assert a[j] in a[1..] by { assert a[1..][j - 1] == a[j]; }
            var k :| 0 <= k < |b[1..]| && b[1..][k] == a[j];
            assert b[k + 1] == a[j];
          } else {
            assert a[1..][i - 1] == a[i] && a[1..][j - 1] == a[j];
          }
        }
      } else {
        SubsequenceKeepsUniqueIds(a, b[1..]);
      }
    }
  }

  /** Removing every entry with one id keeps the remaining ids distinct. */
  lemma RemoveKeepsUniqueIds(notes: seq<Note>, id: NoteId)
    requires UniqueIds(notes)
    ensures UniqueIds(RemoveById(notes, id))
  {
    SubsequenceKeepsUniqueIds(RemoveById(notes, id), notes);
  }

  /** Replacing the entries with `id` by a note with that same id keeps ids distinct. */
  lemma ReplaceKeepsUniqueIds(notes: seq<Note>, id: NoteId, returned: Note)
    requires UniqueIds(notes) && returned.id == id
    ensures UniqueIds(ReplaceById(notes, id, returned))
    ensures forall i :: 0 <= i < |notes| ==> ReplaceById(notes, id, returned)[i].id == notes[i].id
  {
  }

  /** Appending a note keeps ids distinct exactly when its id is new to the collection. */
  lemma AppendKeepsUniqueIds(notes: seq<Note>, n: Note)
    ensures UniqueIds(notes + [n]) <==> UniqueIds(notes) && !HasId(notes, n.id)
  {
    var r := notes + [n];
    if UniqueIds(r) {
      forall i, j | 0 <= i < j < |notes| ensures notes[i].id != notes[j].id {
        assert r[i] == notes[i] && r[j] == notes[j];
      }
      forall k | 0 <= k < |notes| ensures notes[k].id != n.id {
        assert r[k] == notes[k] && r[|notes|] == n;
      }
    }
  }
}
