# invisinote reading cursor, in Dafny

invisinote is an NVDA add-on for reading plain-text notes from a `notes`
folder one note, line, word or character at a time. All of its logic sits in
the `GlobalPlugin` class. The class keeps the list of note paths and the lines
of the current note, plus four positions: note index, line index, character
index and word index. Each keyboard script moves one of these positions one
step and announces what is under it.

This project models that cursor:

- `words.dfy` (module `LineWords`): how a line is cut into words, meaning
  matches of `\S+` with their `[start, end)` offsets. It also holds the two
  derivations between a character offset and a word index.
- `notefiles.dfy` (module `NoteFiles`): which directory entries count as
  notes, how a note path is joined and named, how `readlines()` cuts a note's
  text, how `rstrip("\n")` trims a line, and how the count of loaded notes is
  written out.
- `plugin.dfy` (module `Invisinote`): the class `GlobalPlugin` with the six
  fields the add-on updates in place. Its methods model `_loadNotes`,
  `_loadCurrentNoteLines`, `set_current_line`, the two derivation helpers and
  the eight `script_next_*` / `script_previous_*` scripts.

Each method states the whole new state and what it would announce.
`Valid()` is the class invariant. The note index lies inside the note list
when there are notes; after a reload that finds none it keeps its last value.
Every other position lies inside what it indexes, or is 0 when that is empty.
The constructor establishes it and every script keeps it.

The file system is passed in as parameters. `entries` is what listing the
notes directory returns, and `fs: string -> string` gives each note path's
text. What the add-on would speak through `ui.message` is returned instead:
a `string`, or an `Option<string>` for the scripts that can stay silent: the
character scripts on an empty line, the word scripts on a line without words
(which includes a line of only whitespace).

Behaviour of the code that the model keeps, although a tidier design would differ:

- The character moves do not re-derive the word index. `ScriptNextCharacter`
  and `ScriptPreviousCharacter` leave `currentWordIndex` as it was, so a later
  word move starts from the old word. `_update_word_index_from_char` is never
  called by any script, but it is modelled (`UpdateWordIndexFromChar`).
- `set_current_line` does not clamp its argument. Its callers keep it in range.
- The note list is not sorted. It keeps the listing's order.
- The `.txt` test is case-sensitive.
- Note moves clamp at both ends. Nothing wraps around.
- A reload that finds no notes keeps the old note index and lines.
  `_loadNotes` resets nothing in that case, so after `LoadNotes` with an
  empty listing `currentNoteIndex` may still be 1 or more while `notes` is empty.
- `_update_word_index_from_char` maps an offset on whitespace to the last word
  of the line. This holds between words too, not only after the last word.

## Model

| member | source | states |
|---|---|---|
| `LineWords.IsWhitespace` | addon/globalPlugins/invisinote/__init__.py:64 | the complement of `\S`: space, tab, newline and carriage return are whitespace; digits, ASCII letters and `_` never are; no whitespace character lies above U+3000 |
| `LineWords.WordsFrom` | addon/globalPlugins/invisinote/__init__.py:61-66 | each word the scan finds is a maximal run of non-whitespace, and its text is the slice `line[start..end]` it spans; the words come strictly left to right with a gap between neighbours |
| `LineWords.WordsFromCovers` | addon/globalPlugins/invisinote/__init__.py:61-66 | a character at or after the scan's start is non-whitespace exactly when some found word covers it |
| `LineWords.Words` | addon/globalPlugins/invisinote/__init__.py:61-66 | `_words_with_indices(line)` returns maximal runs of non-whitespace, with `0 <= start < end <= len(line)` and no overlap, in increasing order |
| `LineWords.WordsSplitLine` | addon/globalPlugins/invisinote/__init__.py:61-66 | the words of a line are exactly its maximal runs: together with the ordering, every character no word covers is whitespace and every covered one is not |
| `LineWords.SplitIsUnique` | addon/globalPlugins/invisinote/__init__.py:61-66 | any two lists that are both ordered splits of the line into maximal runs are equal, so the characterisation determines the `\S+` matches completely |
| `LineWords.ExampleLine` | addon/globalPlugins/invisinote/__init__.py:61-66 | `"hello world  foo"` splits into the words at [0,5), [6,11) and [13,16) |
| `LineWords.FirstCovering` | addon/globalPlugins/invisinote/__init__.py:72-75 | the loop's search: the index of the first word from i on whose range holds the offset, with no earlier word holding it, or the word count when none does |
| `LineWords.WordIndexFor` | addon/globalPlugins/invisinote/__init__.py:68-76 | the derived word index is the first word whose `[start, end)` holds the offset if there is one; otherwise it is `len(words)-1`, or 0 with no words; it always lies in `[0, max(0, len(words)-1)]` |
| `LineWords.WordIndexForOffset` | addon/globalPlugins/invisinote/__init__.py:68-76 | on a non-whitespace character the derived word covers the offset and starts at or before it; on a whitespace character the derived word is the last one |
| `LineWords.WordStart` | addon/globalPlugins/invisinote/__init__.py:78-84 | the offset `_update_char_index_from_word` derives: 0 for a word index that names no word; for a valid index into ordered non-empty words, an offset inside that word from which `WordIndexFor` derives the same index back |
| `LineWords.WordStartRoundTrip` | addon/globalPlugins/invisinote/__init__.py:78-84 | for a valid word index the derived offset is that word's first character, which is non-whitespace and preceded by whitespace or the line start; deriving the word from it gives the same word index back |
| `NoteFiles.NoteNames` | addon/globalPlugins/invisinote/__init__.py:30-34 | an entry is kept exactly when it is in the listing and ends with ".txt"; never more names than entries |
| `NoteFiles.NoteNamesOfConcat` | addon/globalPlugins/invisinote/__init__.py:30-34 | filtering two pieces of a listing and concatenating gives the filter of the whole: the order of the listing is kept |
| `NoteFiles.Join` | addon/globalPlugins/invisinote/__init__.py:31 | the joined path starts with the directory and ends with the name; exactly one `'\\'` is inserted between them when the directory is non-empty and does not already end with a separator, and nothing is inserted otherwise; a separator always precedes the name unless the directory is empty |
| `NoteFiles.Basename` | addon/globalPlugins/invisinote/__init__.py:130 | the basename is the suffix of the path after its last separator and contains no separator |
| `NoteFiles.BasenameOfJoin` | addon/globalPlugins/invisinote/__init__.py:130-131 | the basename of a directory joined with a plain name is that name |
| `NoteFiles.NotePaths` | addon/globalPlugins/invisinote/__init__.py:30-34 | one path per ".txt" entry, never more than the listing holds; the k-th path is the k-th note entry joined onto the notes directory, so it starts with the directory and ends with ".txt" |
| `NoteFiles.JoinKeepsNoteSuffix` | addon/globalPlugins/invisinote/__init__.py:31-33 | joining a name that ends with ".txt" onto a directory gives a path that ends with ".txt" |
| `NoteFiles.NotePathNames` | addon/globalPlugins/invisinote/__init__.py:30-34 | for a listing of plain names, the name of the k-th note path is the k-th ".txt" entry, taken from the listing |
| `NoteFiles.ReadLines` | addon/globalPlugins/invisinote/__init__.py:45-46 | `readlines()` pieces are non-empty, hold a newline only as their last character, all but the last end with one, and concatenate back to the text |
| `NoteFiles.StripNewlines` | addon/globalPlugins/invisinote/__init__.py:58 | `rstrip("\n")` gives a prefix that does not end with a newline, and everything it removed is newlines |
| `NoteFiles.ShownLineHasNoNewline` | addon/globalPlugins/invisinote/__init__.py:56-59 | a line from `readlines()` loses at most its single trailing newline when shown, and the shown text holds no newline |
| `NoteFiles.Decimal` | addon/globalPlugins/invisinote/__init__.py:38 | the count in "Loaded {} notes." is written in decimal digits, with no leading zero unless the count is 0 and is then written "0" alone, and the digits read back as the count |
| `Invisinote.GlobalPlugin.CurrentLine` | addon/globalPlugins/invisinote/__init__.py:56-59 | the current line is "" when the line index is out of range; otherwise it is a prefix of the stored line without a trailing newline, and only newlines were cut |
| `Invisinote.GlobalPlugin.constructor` | addon/globalPlugins/invisinote/__init__.py:11-16 | a new plugin has no notes and no lines, every position is 0, and the invariant holds |
| `Invisinote.GlobalPlugin.LoadNotes` | addon/globalPlugins/invisinote/__init__.py:29-40 | the notes become the ".txt" paths of the listing; with some, the first is loaded at line, character and word 0 and "Loaded N notes." is announced; with none, nothing else changes and "No notes found" is announced |
| `Invisinote.GlobalPlugin.LoadCurrentNoteLines` | addon/globalPlugins/invisinote/__init__.py:42-49 | with notes, the lines become `readlines()` of the current note and all positions go to 0, which satisfies the invariant; without notes, the lines become empty and the positions stay |
| `Invisinote.GlobalPlugin.SetCurrentLine` | addon/globalPlugins/invisinote/__init__.py:51-54 | the line index becomes the argument, unclamped; character and word indices become 0; nothing else changes; an in-range argument keeps the invariant |
| `Invisinote.GlobalPlugin.UpdateWordIndexFromChar` | addon/globalPlugins/invisinote/__init__.py:68-76 | the loop sets the word index to `WordIndexFor` of the current line's words and the character index; only the word index changes and the invariant is kept |
| `Invisinote.GlobalPlugin.UpdateCharIndexFromWord` | addon/globalPlugins/invisinote/__init__.py:78-84 | the character index becomes the current word's start, or 0 when the word index is not valid; with a valid word it points at a non-whitespace character; nothing else changes |
| `Invisinote.GlobalPlugin.ScriptNextNote` | addon/globalPlugins/invisinote/__init__.py:125-133 | below the last note: the note index goes up by one, that note's lines are loaded at line, character and word 0, and its file name is announced; otherwise nothing changes and "No next note" is announced; the invariant is kept |
| `Invisinote.GlobalPlugin.ScriptPreviousNote` | addon/globalPlugins/invisinote/__init__.py:135-143 | above the first note: the note index goes down by one and the note is loaded as for next; otherwise nothing changes and "No previous note" is announced |
| `Invisinote.GlobalPlugin.ScriptNextLine` | addon/globalPlugins/invisinote/__init__.py:145-149 | the line index goes up by exactly one, with character and word at 0, only when it stays below the line count; at the end or with no lines the whole state is unchanged; the announcement is the current line afterwards |
| `Invisinote.GlobalPlugin.ScriptPreviousLine` | addon/globalPlugins/invisinote/__init__.py:151-155 | the line index goes down by exactly one, with character and word at 0, only when it is above 0; otherwise nothing changes; the current line is announced |
| `Invisinote.GlobalPlugin.ScriptNextCharacter` | addon/globalPlugins/invisinote/__init__.py:166-172 | the character index goes up only when it is below `len(line)-1`; it stays in `[0, max(0, len(line)-1)]`; the word index is untouched; the character there is announced, nothing on an empty line |
| `Invisinote.GlobalPlugin.ScriptPreviousCharacter` | addon/globalPlugins/invisinote/__init__.py:174-180 | the character index goes down only when it is above 0; the word index is untouched; the character there is announced, nothing on an empty line |
| `Invisinote.GlobalPlugin.ScriptNextWord` | addon/globalPlugins/invisinote/__init__.py:182-190 | with words and below the last: the word index goes up by one and the character index lands on that word's non-whitespace first character, from which the same word is derived back; otherwise nothing changes; the current word is announced, nothing with no words |
| `Invisinote.GlobalPlugin.ScriptPreviousWord` | addon/globalPlugins/invisinote/__init__.py:192-200 | with words and above the first: the word index goes down by one and the character index lands on that word's start; otherwise nothing changes; the current word is announced |
| `Invisinote.NextWordThenPreviousWord` | addon/globalPlugins/invisinote/__init__.py:182-200 | from any word but the last, next word then previous word restores the word index and leaves the character index on that word's start |
| `Invisinote.PreviousWordThenNextWord` | addon/globalPlugins/invisinote/__init__.py:182-200 | from any word but the first, previous word then next word restores the word index and leaves the character index on that word's start |

## Left out

- Creating the notes directory and its "Path created" announcement in `__init__` (lines 25-27): file-system side effect. The constructor takes the notes path as given.
- `script_open_path` (lines 86-92): it launches Explorer through the OS shell.
- `script_read_note` and `script_copy_note` (lines 94-119): they read a whole note and hand it to speech or the clipboard, with no cursor logic.
- `script_copy_line` (lines 157-164): it only hands `_current_line()` to the clipboard.
- `script_load_notes` (lines 121-123): it only calls `_loadNotes`, which `LoadNotes` models.
- Plugin registration, the `@script` decorators, `scriptCategory`, the gesture map and the `_()` translations: host glue with no logic.
- File reading: `fs` gives the text of a note after UTF-8 decoding and newline translation. Decoding errors, missing files and read errors are not modelled. In the add-on they raise exceptions that nothing catches.
- Directory listing: `entries` is taken as given, in the order the listing returns it. Listing errors are not modelled.
- `Join` and `Basename` cover plain names under the Windows rules. Drive letters and UNC prefixes are not modelled. The add-on's notes path is absolute and listing names hold no separator, so neither case arises.
- `IsWhitespace` is Python's `str.isspace()` set, written out for the current Unicode data. A later Unicode version may add characters.
- The class-level defaults (lines 11-16) become per-instance fields set by the constructor. The add-on never mutates its lists in place, only reassigns them, so the shared class attributes behave the same way.
- Python's negative indexing: the scripts require the invariant `Valid()`, under which no negative index occurs. `LoadCurrentNoteLines` requires the note index to be in range, which every caller ensures.
