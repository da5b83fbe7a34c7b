/** The notes page: the `input` state as submit changes it, and what a
    successful ingest invalidates. */
module Notes {
  import opened JsStrings
  import opened PageEffects

  class NotesPage {
    var input: string

    constructor ()
      ensures input == ""
    {
      input := "";
    }

    /** `handleInput`: the textarea's new value becomes the input. */
    method HandleInput(value: string)
      modifies this
      ensures input == value
    {
      input := value;
    }

    /** `handleSubmit`: blank input is ignored; otherwise exactly one ingest
        is issued with the raw, untrimmed input, and the `finally` block
        clears the input whatever the ingest does later. */
    method HandleSubmit() returns (effects: seq<Effect>)
      modifies this
      ensures IsBlank(old(input)) ==> input == old(input) && effects == []
      ensures !IsBlank(old(input)) ==> input == "" && effects == [IngestNote(old(input))]
    {
      if IsBlank(input) {
        return [];
      }
      effects := [IngestNote(input)];
      input := "";
    }

    /** `handleKeyDown`: Enter without Shift submits; every other key or
        chord leaves everything as it was. */
    method HandleKeyDown(key: string, shift: bool) returns (effects: seq<Effect>)
      modifies this
      ensures !IsSubmitChord(key, shift) ==> input == old(input) && effects == []
      ensures IsSubmitChord(key, shift) && IsBlank(old(input)) ==> input == old(input) && effects == []
      ensures IsSubmitChord(key, shift) && !IsBlank(old(input)) ==>
        input == "" && effects == [IngestNote(old(input))]
    {
      effects := [];
      if IsSubmitChord(key, shift) {
        effects := HandleSubmit();
      }
    }

    /** The ingest mutation's `onSuccess`: exactly the notes list is
        invalidated. The mutation has no `onError`. */
    method OnIngestSuccess() returns (effects: seq<Effect>)
      ensures effects == [Invalidate(NotesKey)]
    {
      effects := [Invalidate(NotesKey)];
    }
  }
}
