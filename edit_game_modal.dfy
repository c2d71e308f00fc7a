/** The edit form of a game: its fields are filled from the game when the dialog opens,
    each input event rewrites one field, and saving hands back the game overlaid with the
    form's values. */
module EditGameModal {
  import opened Common
  import opened GamesSlice

  /** The six form fields, as the inputs hold them. Text inputs produce strings; the
      genre and hours start from the game's own values, which may be missing or a number. */
  datatype FormData = FormData(
    title: string,
    genre: Option<string>,
    hours: JsField,
    score: string,
    status: string,
    review: string)

  /** The form's inputs: `title`, `genre`, `hours`, `score` and `review` by element id,
      `status` by the radio group's name. */
  datatype Field = Title | Genre | Hours | Score | Status | Review

  /** An input's change event: its id, its name, whether it is a radio button, its value. */
  datatype ChangeEvent = ChangeEvent(id: string, name: string, isRadio: bool, value: string)

  /** What `handleSave` emits: the game with the form's fields laid over it. */
  datatype EditedGame = EditedGame(
    id: int,
    title: string,
    genre: Option<string>,
    cover: Option<string>,
    lastPlayed: string,
    status: string,
    statusColor: string,
    hours: JsField,
    dateFinished: Option<string>,
    score: string,
    releaseYear: Option<int>,
    review: string,
    hltb: Option<int>,
    vibes: seq<string>)

  const PlaceholderReview: string :=
    "A masterpiece of world design, challenging combat, and open-ended exploration. Truly one of the best games I've ever played. The boss fights are unforgettable."

  /** The form before the game is loaded into it. */
  const EmptyForm: FormData := FormData("", Some(""), Text(""), "9.5", "completed", "")

  /** `s.replace(' ', '-')`: only the first space is replaced. */
  function ReplaceFirstSpace(s: string): (r: string)
    ensures |r| == |s|
    ensures forall i :: 0 <= i < |s| && s[i] != ' ' ==> r[i] == s[i]
    ensures forall i :: 0 <= i < |s| && s[i] == ' ' ==>
              (r[i] == '-' <==> forall j :: 0 <= j < i ==> s[j] != ' ')
    decreases |s|
  {
    if s == [] then []
    else if s[0] == ' ' then ['-'] + s[1..]
    else
      var rest := ReplaceFirstSpace(s[1..]);
      assert forall i :: 1 <= i < |s| ==> s[i] == s[1..][i - 1];
      [s[0]] + rest
  }

  /** The radio value the form starts with for a game status. */
  function FormStatus(status: string): (r: string)
    ensures r != ""
    ensures status != "" ==> r == ReplaceFirstSpace(Lower(status))
  {
    var s := ReplaceFirstSpace(Lower(status));
    if s == "" then "completed" else s
  }

  /** The form filled from a game: title, genre and hours are copied, the score and the
      review are fixed placeholders, and the status is the radio value of the game's status. */
  function InitForm(g: Game): (f: FormData)
    ensures f.title == g.title && f.genre == g.genre
    ensures f.hours == (match g.hours case None => Absent case Some(n) => Int(n))
    ensures f.score == "9.5" && f.review == PlaceholderReview
    ensures f.status == FormStatus(g.status)
  {
    FormData(g.title, g.genre, match g.hours case None => Absent case Some(n) => Int(n),
             "9.5", FormStatus(g.status), PlaceholderReview)
  }

  /** A status without spaces starts the form as its lower-case spelling. */
  lemma FormStatusNoSpace(status: string)
    requires status != ""
    requires forall i :: 0 <= i < |status| ==> status[i] != ' '
    ensures FormStatus(status) == Lower(status)
  {
    var l := Lower(status);
    assert forall i :: 0 <= i < |l| ==> l[i] != ' ';
    NoSpaceUnchanged(l);
  }

  lemma NoSpaceUnchanged(s: string)
    requires forall i :: 0 <= i < |s| ==> s[i] != ' '
    ensures ReplaceFirstSpace(s) == s
  {
  }

  /** A status the store holds is the capitalised backend status; the form starts with
      the backend status itself when it is one lower-case word. */
  lemma InitStatusOfStoreStatus(backend: string)
    requires backend != "" && IsLowerCase(backend)
    requires forall i :: 0 <= i < |backend| ==> backend[i] != ' '
    ensures FormStatus(Capitalize(backend)) == backend
  {
    var shown := Capitalize(backend);
    assert shown[0] == UpperChar(backend[0]);
    assert forall i :: 0 <= i < |shown| ==> shown[i] != ' ';
    FormStatusNoSpace(shown);
    CapitalizeRoundTrip(backend);
  }

  /** `type === 'radio' ? name : id`, read as one of the form's fields. */
  function FieldOf(e: ChangeEvent): Option<Field> {
    var key := if e.isRadio then e.name else e.id;
    if key == "title" then Some(Title)
    else if key == "genre" then Some(Genre)
    else if key == "hours" then Some(Hours)
    else if key == "score" then Some(Score)
    else if key == "status" then Some(Status)
    else if key == "review" then Some(Review)
    else None
  }

  function SetField(f: FormData, field: Field, v: string): FormData {
    match field
    case Title => f.(title := v)
    case Genre => f.(genre := Some(v))
    case Hours => f.(hours := Text(v))
    case Score => f.(score := v)
    case Status => f.(status := v)
    case Review => f.(review := v)
  }

  /** The text a field shows. */
  function Shown(f: FormData, field: Field): JsField {
    match field
    case Title => Text(f.title)
    case Genre => if f.genre.Some? then Text(f.genre.value) else Absent
    case Hours => f.hours
    case Score => Text(f.score)
    case Status => Text(f.status)
    case Review => Text(f.review)
  }

  /** Writing a field makes it show the value and leaves every other field as it was. */
  lemma SetFieldOnly(f: FormData, field: Field, v: string)
    ensures Shown(SetField(f, field, v), field) == Text(v)
    ensures forall other :: other != field ==> Shown(SetField(f, field, v), other) == Shown(f, other)
  {
  }

  /** `{...game, ...formData}`. */
  function Merge(g: Game, f: FormData): (r: EditedGame)
    ensures r.id == g.id && r.cover == g.cover && r.lastPlayed == g.lastPlayed
    ensures r.statusColor == g.statusColor && r.dateFinished == g.dateFinished
    ensures r.releaseYear == g.releaseYear && r.hltb == g.hltb && r.vibes == g.vibes
    ensures r.title == f.title && r.genre == f.genre && r.hours == f.hours
    ensures r.score == f.score && r.status == f.status && r.review == f.review
  {
    EditedGame(g.id, f.title, f.genre, g.cover, g.lastPlayed, f.status, g.statusColor, f.hours,
               g.dateFinished, f.score, g.releaseYear, f.review, g.hltb, g.vibes)
  }

  /** Saving an untouched form gives back the game's title, genre and hours, the
      placeholder score and review, and the status as a radio value. */
  lemma SaveUntouched(g: Game)
    ensures var r := Merge(g, InitForm(g));
      && r.id == g.id && r.title == g.title && r.genre == g.genre
      && ParseInt(r.hours) == g.hours
      && r.score == "9.5" && r.review == PlaceholderReview
  {
  }

  class EditForm {
    var formData: FormData

    constructor ()
      ensures formData == EmptyForm
    {
      formData := EmptyForm;
    }

    /** The effect that runs when the dialog gets a game. */
    method Load(g: Game)
      modifies this
      ensures formData == InitForm(g)
    {
      formData := InitForm(g);
    }

    /** `handleChange`: the field named by the event's id (or, for a radio button, its
        name) takes the event's value. The form's inputs are the only event sources. */
    method HandleChange(e: ChangeEvent)
      requires FieldOf(e).Some?
      modifies this
      ensures formData == SetField(old(formData), FieldOf(e).value, e.value)
    {
      formData := SetField(formData, FieldOf(e).value, e.value);
    }

    /** `handleSave`: the game passed up takes the six form fields from the form and
        everything else from the game being edited. */
    method Save(g: Game) returns (r: EditedGame)
      ensures r.title == formData.title && r.genre == formData.genre && r.hours == formData.hours
      ensures r.score == formData.score && r.status == formData.status && r.review == formData.review
      ensures r.id == g.id && r.cover == g.cover && r.lastPlayed == g.lastPlayed
      ensures r.statusColor == g.statusColor && r.dateFinished == g.dateFinished
      ensures r.releaseYear == g.releaseYear && r.hltb == g.hltb && r.vibes == g.vibes
    {
      r := Merge(g, formData);
    }
  }
}
