/**
 * The notes app component: its state slots, the browser storage it reads and
 * writes, and one method per event that completes (a network response, the
 * notification timer, a button press). Each network result is an input:
 * `Some(value)` for success, `None` for failure.
 */
module App {
  import opened Options
  import opened Sequences
  import opened NoteList
  import opened NoteService

  /** The session the login endpoint returns and storage keeps. */
  datatype User = User(username: string, name: string, token: string)

  /** What the login form submits. */
  datatype Credentials = Credentials(username: string, password: string)

  /** A snapshot of everything the app can change. */
  datatype AppState = AppState(
    notes: seq<Note>,
    showAll: bool,
    errorMessage: Option<string>,
    username: string,
    password: string,
    user: Option<User>,
    storage: map<string, User>,
    token: Option<string>)

  const StorageKey := "loggedNoteappUser"
  const WrongCredentials := "Wrong credentials"
  const RemovedPrefix := "Note '"
  const RemovedSuffix := "' was already removed from server."

  /** The notification raised when updating a note fails; it names the note's content. */
  function RemovedMessage(content: string): (m: string)
    ensures |m| == |RemovedPrefix| + |content| + |RemovedSuffix|
    ensures m[..|RemovedPrefix|] == RemovedPrefix
    ensures m[|RemovedPrefix|..|m| - |RemovedSuffix|] == content
    ensures m[|m| - |RemovedSuffix|..] == RemovedSuffix
  {
    RemovedPrefix + content + RemovedSuffix
  }

  /** Different notes' contents give different notifications, and none reads "Wrong credentials". */
  lemma RemovedMessageDistinct(a: string, b: string)
    ensures RemovedMessage(a) == RemovedMessage(b) <==> a == b
    ensures RemovedMessage(a) != WrongCredentials
  {
  }

  class App {
    var notes: seq<Note>
    var showAll: bool
    var errorMessage: Option<string>
    var username: string
    var password: string
    var user: Option<User>
    /** Browser storage, as a map from key to the stored session. */
    var storage: map<string, User>
    /** The notes API client module, whose token the app sets. */
    const service: Service

    ghost function State(): AppState
      reads this, service
    {
      AppState(notes, showAll, errorMessage, username, password, user, storage, service.token)
    }

    /** First render: the initial value of every state slot, with freshly loaded API client. */
    constructor (storage: map<string, User>)
      ensures fresh(service)
      ensures State() == AppState([], true, None, "", "", None, storage, None)
    {
      notes := [];
      showAll := true;
      errorMessage := None;
      username := "";
      password := "";
      user := None;
      this.storage := storage;
      service := new Service();
    }

    /** What is shown: every note, or only the important ones in their order; the collection is untouched. */
    function NotesToShow(): (r: seq<Note>)
      reads this
      ensures showAll ==> r == notes
      ensures !showAll ==> IsSubsequence(r, notes)
      ensures !showAll ==> forall i :: 0 <= i < |r| ==> r[i].important && r[i] in notes
      ensures !showAll ==> forall i :: 0 <= i < |notes| && notes[i].important ==> notes[i] in r
      ensures !showAll ==> |r| == Count(notes, IsImportant)
    {
      if showAll then notes else ImportantOnly(notes)
    }

    /** The initial-load effect: the GET it sends, and the fetched array replacing the collection. */
    method LoadInitialNotes(fetched: Option<seq<Note>>) returns (req: Request)
      modifies this
      ensures req.verb == Get && req.url == BaseUrl && req.authorization == NotSent && req.body == NoBody
      ensures fetched.Some? ==> State() == old(State()).(notes := fetched.value)
      ensures fetched.None? ==> State() == old(State())
    {
      req := service.GetAll();
      if fetched.Some? {
        notes := fetched.value;
      }
    }

    /** The session-restore effect: a stored session becomes the user and sets the token. */
    method RestoreSession()
      modifies this, service
      ensures StorageKey in old(storage) ==>
        State() == old(State()).(user := Some(old(storage)[StorageKey]),
                                 token := Some(Bearer(old(storage)[StorageKey].token)))
      ensures StorageKey !in old(storage) ==> State() == old(State())
    {
      if StorageKey in storage {
        var stored := storage[StorageKey];
        user := Some(stored);
        service.SetToken(stored.token);
      }
    }

    /**
     * `toggleImportanceOf(id)`: the PUT of the flipped copy of the first note with `id`,
     * then the server's note replacing every entry with `id` on success, or every
     * entry with `id` removed and a notification naming the note on failure.
     */
    method ToggleImportanceOf(id: NoteId, returned: Option<Note>) returns (req: Request)
      requires HasId(notes, id)
      modifies this
      ensures var note := old(notes)[FindIndex(old(notes), id)];
        req.verb == Put && UrlId(req.url) == Some(id) && req.authorization == NotSent &&
        req.body == NoteBody(Flip(note))
      ensures returned.Some? ==> State() == old(State()).(notes := ReplaceById(old(notes), id, returned.value))
      ensures returned.None? ==>
        State() == old(State()).(notes := RemoveById(old(notes), id),
                                 errorMessage := Some(RemovedMessage(old(notes)[FindIndex(old(notes), id)].content)))
      ensures old(UniqueIds(notes)) && (returned.Some? ==> returned.value.id == id) ==> UniqueIds(notes)
      ensures returned.None? ==> !HasId(notes, id)
    {
      ghost var before := notes;
      var note := notes[FindIndex(notes, id)];
      var changeNote := Flip(note);
      req := service.Update(id, changeNote);
      match returned
      case Some(returnedNote) =>
        notes := ReplaceById(notes, id, returnedNote);
        if UniqueIds(before) && returnedNote.id == id {
          ReplaceKeepsUniqueIds(before, id, returnedNote);
        }
      case None =>
        errorMessage := Some(RemovedMessage(note.content));
        notes := RemoveById(notes, id);
        if UniqueIds(before) {
          RemoveKeepsUniqueIds(before, id);
        }
    }

    /** The notification timer firing: the message is cleared, whichever message it is. */
    method ClearMessage()
      modifies this
      ensures State() == old(State()).(errorMessage := None)
    {
      errorMessage := None;
    }

    /**
     * `handleLogin`: the credentials it submits; on success the session is stored,
     * the token set, the user set and both fields emptied; on failure only the
     * notification changes.
     */
    method HandleLogin(response: Option<User>) returns (sent: Credentials)
      modifies this, service
      ensures sent == Credentials(old(username), old(password))
      ensures response.Some? ==>
        State() == old(State()).(storage := old(storage)[StorageKey := response.value],
                                 token := Some(Bearer(response.value.token)),
                                 user := Some(response.value),
                                 username := "", password := "")
      ensures response.Some? ==> forall d :: service.Create(d).authorization == Sent(Some(Bearer(response.value.token)))
      ensures response.None? ==> State() == old(State()).(errorMessage := Some(WrongCredentials))
    {
      sent := Credentials(username, password);
      match response
      case Some(u) =>
        storage := storage[StorageKey := u];
        service.SetToken(u.token);
        user := Some(u);
        username := "";
        password := "";
      case None =>
        errorMessage := Some(WrongCredentials);
    }

    /** `addNote`: the POST of the draft, then the server's note appended on success. */
    method AddNote(newObject: NoteDraft, returned: Option<Note>) returns (req: Request)
      modifies this
      ensures req.verb == Post && req.url == BaseUrl && req.authorization == Sent(service.token)
      ensures req.body == DraftBody(newObject)
      ensures returned.Some? ==> State() == old(State()).(notes := old(notes) + [returned.value])
      ensures returned.None? ==> State() == old(State())
      ensures returned.Some? && old(UniqueIds(notes)) && !old(HasId(notes, returned.value.id)) ==> UniqueIds(notes)
    {
      req := service.Create(newObject);
      if returned.Some? {
        AppendKeepsUniqueIds(notes, returned.value);
        notes := notes + [returned.value];
      }
    }

    /** The "show important / show all" button. */
    method ToggleShowAll()
      modifies this
      ensures State() == old(State()).(showAll := !old(showAll))
    {
      showAll := !showAll;
    }

    /** Typing in the username field. */
    method SetUsername(value: string)
      modifies this
      ensures State() == old(State()).(username := value)
    {
      username := value;
    }

    /** Typing in the password field. */
    method SetPassword(value: string)
      modifies this
      ensures State() == old(State()).(password := value)
    {
      password := value;
    }
  }

  /** A fresh app walked through three event sequences, with the resulting state asserted: toggling note "1" is accepted, toggling note "2" is rejected, and a login fails. */
  method Scenarios()
  {
    var app := new App(map[]);
    var a := Note("1", "A", false);
    var _ := app.LoadInitialNotes(Some([a]));
    assert app.notes[0].id == "1";
    var _ := app.ToggleImportanceOf("1", Some(Note("1", "A", true)));
    assert app.notes == [Note("1", "A", true)];

    var b := Note("2", "B", true);
    var _ := app.LoadInitialNotes(Some([b]));
    assert app.notes[0].id == "2";
    assert FindIndex(app.notes, "2") == 0;
    var _ := app.ToggleImportanceOf("2", None);
    assert app.notes == [];
    assert app.errorMessage == Some(RemovedMessage("B"));

    var before := app.State();
    var _ := app.HandleLogin(None);
    assert app.notes == before.notes && app.service.token == before.token;
    assert app.errorMessage == Some(WrongCredentials);
    app.ClearMessage();
    assert app.errorMessage == None;
  }
}
