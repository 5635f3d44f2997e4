/** The reading cursor of the invisinote NVDA add-on: a list of note paths,
    the lines of the current note, and four positions (note, line, character,
    word) that the user steps one at a time.

    The file system is a parameter: `entries` stands for what listing the
    notes directory returns and `fs` for the text each note file holds.
    What the add-on would speak is returned instead. */
module Invisinote {
  import opened LineWords
  import opened NoteFiles

  datatype Option<T> = None | Some(value: T)

  /** The largest offset into a string of length n, or 0 when it is empty. */
  function LastOffset(n: nat): nat {
    if n == 0 then 0 else n - 1
  }

  class GlobalPlugin {
    /** The directory the notes are listed from. */
    const notesPath: string

    var notes: seq<string>
    var currentNoteIndex: int
    var currentLineIndex: int
    var currentNoteLines: seq<string>
    var currentWordIndex: int
    var currentCharIndex: int

    /** `_current_line()`: the current line without its trailing newlines, or
        "" when the line index is outside the current note's lines. */
    function CurrentLine(): (line: string)
      reads this`currentNoteLines, this`currentLineIndex
      ensures 0 <= currentLineIndex < |currentNoteLines| ==>
        && line <= currentNoteLines[currentLineIndex]
        && (forall k :: |line| <= k < |currentNoteLines[currentLineIndex]| ==>
              currentNoteLines[currentLineIndex][k] == '\n')
      ensures line == "" || line[|line| - 1] != '\n'
      ensures !(0 <= currentLineIndex < |currentNoteLines|) ==> line == ""
    {
      if currentNoteLines != [] && 0 <= currentLineIndex < |currentNoteLines| then
        StripNewlines(currentNoteLines[currentLineIndex])
      else ""
    }

    /** The positions stay inside what they index. The note index lies
        inside the note list when there are notes; after a reload that finds
        none it keeps its last value. The line index lies inside the note's
        lines, or is 0 when there are none. The character index lies inside
        the current line and the word index inside the current line's words,
        each 0 when the line or its word list is empty. */
    ghost predicate Valid()
      reads this
    {
      && (notes != [] ==> 0 <= currentNoteIndex < |notes|)
      && (if currentNoteLines == [] then currentLineIndex == 0
          else 0 <= currentLineIndex < |currentNoteLines|)
      && 0 <= currentCharIndex <= LastOffset(|CurrentLine()|)
      && 0 <= currentWordIndex <= LastWordIndex(Words(CurrentLine()))
    }

    /** A fresh plugin: no notes loaded and every position 0. */
    constructor (notesPath: string)
      ensures this.notesPath == notesPath
      ensures notes == [] && currentNoteLines == []
      ensures currentNoteIndex == 0 && currentLineIndex == 0
      ensures currentCharIndex == 0 && currentWordIndex == 0
      ensures Valid()
    {
      this.notesPath := notesPath;
      notes := [];
      currentNoteIndex := 0;
      currentLineIndex := 0;
      currentNoteLines := [];
      currentWordIndex := 0;
      currentCharIndex := 0;
    }

    /** `_loadNotes()`: keep the ".txt" entries of the listing as note paths;
        when there are any, go to the first and load its lines. With no notes
        the rest of the state is left as it was. */
    method LoadNotes(entries: seq<string>, fs: string -> string) returns (msg: string)
      modifies this
      ensures notes == NotePaths(notesPath, entries)
      ensures notes != [] ==>
        && currentNoteIndex == 0
        && currentNoteLines == ReadLines(fs(notes[0]))
        && currentLineIndex == 0 && currentCharIndex == 0 && currentWordIndex == 0
        && msg == "Loaded " + Decimal(|notes|) + " notes."
      ensures notes == [] ==>
        && currentNoteIndex == old(currentNoteIndex)
        && currentNoteLines == old(currentNoteLines)
        && currentLineIndex == old(currentLineIndex)
        && currentCharIndex == old(currentCharIndex)
        && currentWordIndex == old(currentWordIndex)
        && msg == "No notes found"
      ensures old(Valid()) || notes != [] ==> Valid()
    {
      notes := NotePaths(notesPath, entries);
      if notes != [] {
        currentNoteIndex := 0;
        LoadCurrentNoteLines(fs);
        msg := "Loaded " + Decimal(|notes|) + " notes.";
      } else {
        msg := "No notes found";
      }
    }

    /** `_loadCurrentNoteLines()`: read the current note's lines and go to its
        first line; with no notes, the lines become empty and the positions
        stay as they were. */
    method LoadCurrentNoteLines(fs: string -> string)
      requires notes != [] ==> 0 <= currentNoteIndex < |notes|
      modifies this`currentNoteLines, this`currentLineIndex, this`currentCharIndex, this`currentWordIndex
      ensures notes != [] ==>
        && currentNoteLines == ReadLines(fs(notes[currentNoteIndex]))
        && currentLineIndex == 0 && currentCharIndex == 0 && currentWordIndex == 0
        && Valid()
      ensures notes == [] ==>
        && currentNoteLines == []
        && currentLineIndex == old(currentLineIndex)
        && currentCharIndex == old(currentCharIndex)
        && currentWordIndex == old(currentWordIndex)
    {
      if notes != [] {
        var notePath := notes[currentNoteIndex];
        currentNoteLines := ReadLines(fs(notePath));
        SetCurrentLine(0);
      } else {
        currentNoteLines := [];
      }
    }

    /** `set_current_line(index)`: go to line index, unchecked, and to its
        first character and word. */
    method SetCurrentLine(index: int)
      modifies this`currentLineIndex, this`currentCharIndex, this`currentWordIndex
      ensures currentLineIndex == index && currentCharIndex == 0 && currentWordIndex == 0
      ensures (notes != [] ==> 0 <= currentNoteIndex < |notes|)
        && (if currentNoteLines == [] then index == 0 else 0 <= index < |currentNoteLines|)
        ==> Valid()
    {
      currentLineIndex := index;
      currentCharIndex := 0;
      currentWordIndex := 0;
    }

    /** `_update_word_index_from_char()`: the word index becomes that of the
        first word covering the character index, or else the last word (0 on
        a line without words). */
    method UpdateWordIndexFromChar()
      modifies this`currentWordIndex
      ensures currentWordIndex == WordIndexFor(Words(CurrentLine()), currentCharIndex)
      ensures old(Valid()) ==> Valid()
    {
      var line := CurrentLine();
      var words := Words(line);
      var idx := currentCharIndex;
      var i := 0;
      while i < |words|
        invariant 0 <= i <= |words|
        invariant forall k :: 0 <= k < i ==> !Covers(words[k], idx)
      {
        if words[i].start <= idx < words[i].end {
          currentWordIndex := i;
          return;
        }
        i := i + 1;
      }
      currentWordIndex := if words != [] then |words| - 1 else 0;
    }

    /** `_update_char_index_from_word()`: the character index becomes the
        start of the current word, or 0 when the word index names no word. */
    method UpdateCharIndexFromWord()
      modifies this`currentCharIndex
      ensures currentCharIndex == WordStart(Words(CurrentLine()), currentWordIndex)
      ensures 0 <= currentWordIndex < |Words(CurrentLine())| ==>
        !IsWhitespace(CurrentLine()[currentCharIndex])
      ensures old(Valid()) ==> Valid()
    {
      var line := CurrentLine();
      var words := Words(line);
      if 0 <= currentWordIndex < |words| {
        currentCharIndex := words[currentWordIndex].start;
        assert IsMaximalRun(line, words[currentWordIndex]);
      } else {
        currentCharIndex := 0;
      }
    }

    /** `script_next_note`: step to the next note and load it, announcing its
        file name; at the last note, or with no notes, nothing changes. */
    method ScriptNextNote(fs: string -> string) returns (msg: string)
      requires Valid()
      modifies this`currentNoteIndex, this`currentNoteLines, this`currentLineIndex,
        this`currentCharIndex, this`currentWordIndex
      ensures Valid()
      ensures if old(notes != [] && currentNoteIndex < |notes| - 1) then
          && currentNoteIndex == old(currentNoteIndex) + 1
          && currentNoteLines == ReadLines(fs(notes[currentNoteIndex]))
          && currentLineIndex == 0 && currentCharIndex == 0 && currentWordIndex == 0
          && msg == Basename(notes[currentNoteIndex])
        else unchanged(this) && msg == "No next note"
    {
      if notes != [] && currentNoteIndex < |notes| - 1 {
        currentNoteIndex := currentNoteIndex + 1;
        LoadCurrentNoteLines(fs);
        msg := Basename(notes[currentNoteIndex]);
      } else {
        msg := "No next note";
      }
    }

    /** `script_previous_note`: step to the previous note and load it,
        announcing its file name; at the first note, or with no notes,
        nothing changes. */
    method ScriptPreviousNote(fs: string -> string) returns (msg: string)
      requires Valid()
      modifies this`currentNoteIndex, this`currentNoteLines, this`currentLineIndex,
        this`currentCharIndex, this`currentWordIndex
      ensures Valid()
      ensures if old(notes != [] && currentNoteIndex > 0) then
          && currentNoteIndex == old(currentNoteIndex) - 1
          && currentNoteLines == ReadLines(fs(notes[currentNoteIndex]))
          && currentLineIndex == 0 && currentCharIndex == 0 && currentWordIndex == 0
          && msg == Basename(notes[currentNoteIndex])
        else unchanged(this) && msg == "No previous note"
    {
      if notes != [] && currentNoteIndex > 0 {
        currentNoteIndex := currentNoteIndex - 1;
        LoadCurrentNoteLines(fs);
        msg := Basename(notes[currentNoteIndex]);
      } else {
        msg := "No previous note";
      }
    }

    /** `script_next_line`: step to the next line, at its first character and
        word, and announce the line that is current afterwards; at the last
        line, or with no lines, nothing changes. */
    method ScriptNextLine() returns (msg: string)
      requires Valid()
      modifies this`currentLineIndex, this`currentCharIndex, this`currentWordIndex
      ensures Valid()
      ensures if old(currentNoteLines != [] && currentLineIndex < |currentNoteLines| - 1) then
          currentLineIndex == old(currentLineIndex) + 1 && currentCharIndex == 0 && currentWordIndex == 0
        else unchanged(this)
      ensures msg == CurrentLine()
    {
      if currentNoteLines != [] && currentLineIndex < |currentNoteLines| - 1 {
        SetCurrentLine(currentLineIndex + 1);
      }
      msg := CurrentLine();
    }

    /** `script_previous_line`: step to the previous line, at its first
        character and word, and announce the line that is current afterwards;
        at the first line, or with no lines, nothing changes. */
    method ScriptPreviousLine() returns (msg: string)
      requires Valid()
      modifies this`currentLineIndex, this`currentCharIndex, this`currentWordIndex
      ensures Valid()
      ensures if old(currentNoteLines != [] && currentLineIndex > 0) then
          currentLineIndex == old(currentLineIndex) - 1 && currentCharIndex == 0 && currentWordIndex == 0
        else unchanged(this)
      ensures msg == CurrentLine()
    {
      if currentNoteLines != [] && currentLineIndex > 0 {
        SetCurrentLine(currentLineIndex - 1);
      }
      msg := CurrentLine();
    }

    /** `script_next_character`: step the character index up unless it is at
        the line's last character, and announce the character there (nothing
        on an empty line). The word index is not touched. */
    method ScriptNextCharacter() returns (msg: Option<string>)
      requires Valid()
      modifies this`currentCharIndex
      ensures Valid()
      ensures currentCharIndex ==
        if old(currentCharIndex) < |CurrentLine()| - 1 then old(currentCharIndex) + 1
        else old(currentCharIndex)
      ensures currentWordIndex == old(currentWordIndex)
      ensures msg == if CurrentLine() == "" then None else Some([CurrentLine()[currentCharIndex]])
    {
      var line := CurrentLine();
      if currentCharIndex < |line| - 1 {
        currentCharIndex := currentCharIndex + 1;
      }
      if line != "" {
        msg := Some([line[currentCharIndex]]);
      } else {
        msg := None;
      }
    }

    /** `script_previous_character`: step the character index down unless it
        is 0, and announce the character there (nothing on an empty line).
        The word index is not touched. */
    method ScriptPreviousCharacter() returns (msg: Option<string>)
      requires Valid()
      modifies this`currentCharIndex
      ensures Valid()
      ensures currentCharIndex ==
        if old(currentCharIndex) > 0 then old(currentCharIndex) - 1 else old(currentCharIndex)
      ensures currentWordIndex == old(currentWordIndex)
      ensures msg == if CurrentLine() == "" then None else Some([CurrentLine()[currentCharIndex]])
    {
      var line := CurrentLine();
      if currentCharIndex > 0 {
        currentCharIndex := currentCharIndex - 1;
      }
      if line != "" {
        msg := Some([line[currentCharIndex]]);
      } else {
        msg := None;
      }
    }

    /** `script_next_word`: step to the next word of the line and put the
        character index on its first character, announcing the word that is
        current afterwards; at the last word, or with no words, nothing
        changes. */
    method ScriptNextWord() returns (msg: Option<string>)
      requires Valid()
      modifies this`currentWordIndex, this`currentCharIndex
      ensures Valid()
      ensures var words := Words(CurrentLine());
        if old(words != [] && currentWordIndex < |words| - 1) then
          && currentWordIndex == old(currentWordIndex) + 1
          && currentCharIndex == words[currentWordIndex].start
          && !IsWhitespace(CurrentLine()[currentCharIndex])
          && WordIndexFor(words, currentCharIndex) == currentWordIndex
        else currentWordIndex == old(currentWordIndex) && currentCharIndex == old(currentCharIndex)
      ensures var words := Words(CurrentLine());
        msg == if words == [] then None else Some(words[currentWordIndex].text)
    {
      var line := CurrentLine();
      var words := Words(line);
      if words != [] && currentWordIndex < |words| - 1 {
        currentWordIndex := currentWordIndex + 1;
        UpdateCharIndexFromWord();
        WordStartRoundTrip(line, currentWordIndex);
      }
      if words != [] {
        msg := Some(words[currentWordIndex].text);
      } else {
        msg := None;
      }
    }

    /** `script_previous_word`: step to the previous word of the line and put
        the character index on its first character, announcing the word that
        is current afterwards; at the first word, or with no words, nothing
        changes. */
    method ScriptPreviousWord() returns (msg: Option<string>)
      requires Valid()
      modifies this`currentWordIndex, this`currentCharIndex
      ensures Valid()
      ensures var words := Words(CurrentLine());
        if old(words != [] && currentWordIndex > 0) then
          && currentWordIndex == old(currentWordIndex) - 1
          && currentCharIndex == words[currentWordIndex].start
          && !IsWhitespace(CurrentLine()[currentCharIndex])
          && WordIndexFor(words, currentCharIndex) == currentWordIndex
        else currentWordIndex == old(currentWordIndex) && currentCharIndex == old(currentCharIndex)
      ensures var words := Words(CurrentLine());
        msg == if words == [] then None else Some(words[currentWordIndex].text)
    {
      var line := CurrentLine();
      var words := Words(line);
      if words != [] && currentWordIndex > 0 {
        currentWordIndex := currentWordIndex - 1;
        UpdateCharIndexFromWord();
        WordStartRoundTrip(line, currentWordIndex);
      }
      if words != [] {
        msg := Some(words[currentWordIndex].text);
      } else {
        msg := None;
      }
    }
  }

  /** Stepping to the next word and back, from any word but the last,
      returns to the same word with the character index on its start; only
      the word and character positions are touched. */
  method NextWordThenPreviousWord(p: GlobalPlugin)
    requires p.Valid()
    requires p.currentWordIndex < |Words(p.CurrentLine())| - 1
    modifies p`currentWordIndex, p`currentCharIndex
    ensures p.Valid()
    ensures p.currentWordIndex == old(p.currentWordIndex)
    ensures p.currentCharIndex == Words(p.CurrentLine())[p.currentWordIndex].start
  {
    ghost var line := p.CurrentLine();
    ghost var wi := p.currentWordIndex;
    var _ := p.ScriptNextWord();
    assert p.CurrentLine() == line && p.currentWordIndex == wi + 1;
    var _ := p.ScriptPreviousWord();
  }

  /** Stepping to the previous word and forward again, from any word but the
      first, returns to the same word with the character index on its start. */
  method PreviousWordThenNextWord(p: GlobalPlugin)
    requires p.Valid()
    requires 0 < p.currentWordIndex
    modifies p`currentWordIndex, p`currentCharIndex
    ensures p.Valid()
    ensures p.currentWordIndex == old(p.currentWordIndex)
    ensures p.currentCharIndex == Words(p.CurrentLine())[p.currentWordIndex].start
  {
    ghost var line := p.CurrentLine();
    ghost var wi := p.currentWordIndex;
    var _ := p.ScriptPreviousWord();
    assert p.CurrentLine() == line && p.currentWordIndex == wi - 1;
    var _ := p.ScriptNextWord();
  }
}
