/** The stored-values panel (ComponentsUI.tsx): the note is cut to twenty characters plus an
    ellipsis unless shown in full, a button toggles the full view, and the flag shows as a label. */
module ComponentsUi {

  const MaxNoteLength: nat := 20
  const Ellipsis: string := "..."

  /** `truncatedNote`: a note longer than the maximum keeps its first twenty characters and
      gains "..."; any other note is shown as it is. */
  function TruncatedNote(note: string): (r: string)
    ensures |note| <= MaxNoteLength ==> r == note
    ensures |note| > MaxNoteLength ==>
              |r| == MaxNoteLength + 3 && r[..MaxNoteLength] == note[..MaxNoteLength] && r[MaxNoteLength..] == Ellipsis
  {
    if note != "" && |note| > MaxNoteLength then note[..MaxNoteLength] + Ellipsis else note
  }

  /** Truncating a truncated note changes nothing more. */
  lemma TruncationIdempotent(note: string)
    ensures TruncatedNote(TruncatedNote(note)) == TruncatedNote(note)
  {
    var t := TruncatedNote(note);
    if |note| > MaxNoteLength {
      assert t == t[..MaxNoteLength] + t[MaxNoteLength..];
    }
  }

  /** The "Show more"/"Show less" button is offered exactly for notes longer than the maximum. */
  predicate ShowMoreButton(note: string) {
    |note| > MaxNoteLength
  }

  /** `toggleNote` flips whether the full note is shown. */
  function ToggleNote(showFullNote: bool): (r: bool)
    ensures r != showFullNote
  {
    !showFullNote
  }

  /** The note text on screen: the full note when `showFullNote` is set, else the truncated note. */
  function DisplayedNote(showFullNote: bool, note: string): string {
    if showFullNote then note else TruncatedNote(note)
  }

  /** Without the button the note is always shown whole, so the toggle has no visible effect;
      with it, the collapsed view has exactly twenty-three characters and the expanded view is the note. */
  lemma DisplayedNoteCases(showFullNote: bool, note: string)
    ensures !ShowMoreButton(note) ==> DisplayedNote(showFullNote, note) == note
    ensures !ShowMoreButton(note) ==> DisplayedNote(ToggleNote(showFullNote), note) == note
    ensures ShowMoreButton(note) && !showFullNote ==> |DisplayedNote(showFullNote, note)| == MaxNoteLength + 3
    ensures ShowMoreButton(note) && showFullNote ==> DisplayedNote(showFullNote, note) == note
  {
  }

  /** A value read back from browser storage, as JavaScript sees it. */
  datatype JsValue = JsBool(b: bool) | JsNumber(n: int) | JsString(s: string) | JsNull | JsUndefined

  /** JavaScript truthiness: false, 0, "", null and undefined are falsy. */
  predicate JsTruthy(v: JsValue) {
    match v
    case JsBool(b) => b
    case JsNumber(n) => n != 0
    case JsString(s) => s != ""
    case JsNull => false
    case JsUndefined => false
  }

  const TrueLabel: string := "TRUE"
  const FalseLabel: string := "FALSE"

  /** The flag label: "TRUE" exactly for a truthy flag value, "FALSE" otherwise. */
  function FlagLabel(flag: JsValue): (r: string)
    ensures r == TrueLabel || r == FalseLabel
    ensures r == TrueLabel <==> JsTruthy(flag)
  {
    if JsTruthy(flag) then TrueLabel else FalseLabel
  }

  /** The label tests truthiness, not the boolean: a flag that reads back as the text "false"
      is labelled "TRUE", while the empty text and the default flag show "FALSE". */
  lemma FlagLabelOfStoredText()
    ensures FlagLabel(JsString("false")) == TrueLabel
    ensures FlagLabel(JsString("")) == FalseLabel
    ensures FlagLabel(JsBool(false)) == FalseLabel
  {
  }
}
