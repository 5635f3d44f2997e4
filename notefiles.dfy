/** What the invisinote plugin does with the notes folder and a note's text,
    with the file system taken out: which directory entries are notes, how a
    note's path is formed and named, how its text is cut into lines and how a
    line is shown. */
module NoteFiles {

  /** The extension a directory entry must end with to be taken as a note. */
  const NoteSuffix: string := ".txt"

  /** `name.endswith(".txt")`, case-sensitively. */
  predicate HasNoteSuffix(name: string) {
    |name| >= |NoteSuffix| && name[|name| - |NoteSuffix|..] == NoteSuffix
  }

  /** The entries of a directory listing that are notes, in listing order. */
  function NoteNames(entries: seq<string>): (names: seq<string>)
    ensures |names| <= |entries|
    ensures forall f :: f in names <==> f in entries && HasNoteSuffix(f)
  {
    if entries == [] then []
    else (if HasNoteSuffix(entries[0]) then [entries[0]] else []) + NoteNames(entries[1..])
  }

  /** Filtering a listing in two pieces and concatenating gives the filter of
      the whole listing: the filter keeps the listing's order. */
  lemma {:induction false} NoteNamesOfConcat(a: seq<string>, b: seq<string>)
    ensures NoteNames(a + b) == NoteNames(a) + NoteNames(b)
    decreases |a|
  {
    if a == [] {
      assert a + b == b;
    } else {
      assert (a + b)[1..] == a[1..] + b;
      NoteNamesOfConcat(a[1..], b);
    }
  }

  /** A path separator on Windows, where the plugin runs. */
  predicate IsSeparator(c: char) {
    c == '\\' || c == '/'
  }

  /** The name contains no path separator, as every name a directory listing
      returns. */
  predicate IsPlainName(name: string) {
    forall k :: 0 <= k < |name| ==> !IsSeparator(name[k])
  }

  /** `os.path.join(directory, name)` under the Windows rules, for a plain
      name: a backslash goes between them unless the directory is empty or
      already ends with a separator. */
  function Join(directory: string, name: string): (path: string)
    ensures |path| >= |directory| + |name| && path[..|directory|] == directory
    ensures path[|path| - |name|..] == name
    ensures directory == "" <==> |path| == |name|
    ensures |path| > |name| ==> IsSeparator(path[|path| - |name| - 1])
    ensures |path| <= |directory| + |name| + 1
    ensures |path| == |directory| + |name| <==> directory == "" || IsSeparator(directory[|directory| - 1])
    ensures |path| > |directory| + |name| ==> path[|directory|] == '\\'
  {
    if directory == "" || IsSeparator(directory[|directory| - 1]) then directory + name
    else directory + "\\" + name
  }

  /** `os.path.basename(path)`: everything after the last separator. */
  function Basename(path: string): (name: string)
    ensures |name| <= |path| && name == path[|path| - |name|..]
    ensures IsPlainName(name)
    ensures |name| == |path| || IsSeparator(path[|path| - |name| - 1])
  {
    if path == [] || IsSeparator(path[|path| - 1]) then []
    else Basename(path[..|path| - 1]) + [path[|path| - 1]]
  }

  /** The name of the path formed by joining a plain name onto a directory is
      that name back. */
  lemma BasenameOfJoin(directory: string, name: string)
    requires IsPlainName(name)
    ensures Basename(Join(directory, name)) == name
  {
    var path := Join(directory, name);
    var b := Basename(path);
    var n := |path|;
    if |b| < |name| {
      assert false;
    } else if |b| > |name| {
      assert false;
    }
  }

  /** The note paths `_loadNotes` keeps for a listing of the notes directory:
      each note entry joined onto the directory, in listing order. */
  function NotePaths(directory: string, entries: seq<string>): (paths: seq<string>)
    ensures |paths| == |NoteNames(entries)| <= |entries|
    ensures forall k :: 0 <= k < |paths| ==>
      && |paths[k]| >= |directory| && paths[k][..|directory|] == directory
      && HasNoteSuffix(paths[k])
    ensures forall k :: 0 <= k < |paths| ==> paths[k] == Join(directory, NoteNames(entries)[k])
  {
    var names := NoteNames(entries);
    assert forall k :: 0 <= k < |names| ==> HasNoteSuffix(Join(directory, names[k])) by {
      forall k | 0 <= k < |names| ensures HasNoteSuffix(Join(directory, names[k])) {
        assert names[k] in names;
        JoinKeepsNoteSuffix(directory, names[k]);
      }
    }
    seq(|names|, k requires 0 <= k < |names| => Join(directory, names[k]))
  }

  /** Joining a note name onto a directory keeps the note extension at the end. */
  lemma JoinKeepsNoteSuffix(directory: string, name: string)
    requires HasNoteSuffix(name)
    ensures HasNoteSuffix(Join(directory, name))
  {
    var path := Join(directory, name);
    assert path[|path| - |NoteSuffix|..] == path[|path| - |name|..][|name| - |NoteSuffix|..];
  }

  /** When the listing holds plain names, the name of the k-th note path is
      the k-th note entry, so it ends with the note extension and comes from
      the listing. */
  lemma NotePathNames(directory: string, entries: seq<string>, k: int)
    requires forall f :: f in entries ==> IsPlainName(f)
    requires 0 <= k < |NotePaths(directory, entries)|
    ensures Basename(NotePaths(directory, entries)[k]) == NoteNames(entries)[k]
    ensures HasNoteSuffix(Basename(NotePaths(directory, entries)[k]))
    ensures Basename(NotePaths(directory, entries)[k]) in entries
  {
    var names := NoteNames(entries);
    assert names[k] in names;
    BasenameOfJoin(directory, names[k]);
  }

  /** The offset just past the first newline at or after i, or |text| when
      there is none. */
  function LineEnd(text: string, i: nat): (e: nat)
    requires i < |text|
    ensures i < e <= |text|
    ensures forall k :: i <= k < e - 1 ==> text[k] != '\n'
    ensures e < |text| ==> text[e - 1] == '\n'
    decreases |text| - i
  {
    if text[i] == '\n' || i + 1 == |text| then i + 1 else LineEnd(text, i + 1)
  }

  /** The text of a list of lines put back together. */
  function Concat(lines: seq<string>): string {
    if lines == [] then "" else lines[0] + Concat(lines[1..])
  }

  /** A newline can occur in s only as its last character. */
  predicate NewlineOnlyAtEnd(s: string) {
    forall k :: 0 <= k < |s| - 1 ==> s[k] != '\n'
  }

  /** `file.readlines()` on a note's text: the text cut after every newline,
      each piece keeping its newline, and the pieces put together give the
      text back. */
  function ReadLines(text: string): (lines: seq<string>)
    ensures Concat(lines) == text
    ensures forall k :: 0 <= k < |lines| ==> lines[k] != "" && NewlineOnlyAtEnd(lines[k])
    ensures forall k :: 0 <= k < |lines| - 1 ==> lines[k][|lines[k]| - 1] == '\n'
    decreases |text|
  {
    if text == "" then []
    else
      var e := LineEnd(text, 0);
      var rest := ReadLines(text[e..]);
      var lines := [text[..e]] + rest;
      assert lines[1..] == rest;
      assert text[..e] + text[e..] == text;
      assert forall k :: 1 <= k < |lines| ==> lines[k] == rest[k - 1];
      lines
  }

  /** `s.rstrip("\n")`: s without the newlines at its end. */
  function StripNewlines(s: string): (r: string)
    ensures |r| <= |s| && r == s[..|r|]
    ensures r == "" || r[|r| - 1] != '\n'
    ensures forall k :: |r| <= k < |s| ==> s[k] == '\n'
  {
    if s != "" && s[|s| - 1] == '\n' then StripNewlines(s[..|s| - 1]) else s
  }

  /** A line that readlines produced loses at most its one newline when shown,
      and what is shown holds no newline at all. */
  lemma ShownLineHasNoNewline(text: string, k: int)
    requires 0 <= k < |ReadLines(text)|
    ensures var line := ReadLines(text)[k];
      var shown := StripNewlines(line);
      && (shown == line || shown + "\n" == line)
      && forall j :: 0 <= j < |shown| ==> shown[j] != '\n'
  {
    var line := ReadLines(text)[k];
    var shown := StripNewlines(line);
    assert NewlineOnlyAtEnd(line);
    if shown != line {
      assert line[|shown|] == '\n';
      assert |shown| == |line| - 1;
      assert shown + "\n" == line;
    }
  }

  /** The decimal digit for d. */
  function Digit(d: nat): char
    requires d < 10
  {
    "0123456789"[d]
  }

  /** The value of a string of decimal digits. */
  function DecimalValue(s: string): nat
    requires forall k :: 0 <= k < |s| ==> '0' <= s[k] <= '9'
  {
    if s == "" then 0 else 10 * DecimalValue(s[..|s| - 1]) + (s[|s| - 1] as int - '0' as int)
  }

  /** `str(n)` for a count: the decimal digits of n, without leading zeros. */
  function Decimal(n: nat): (s: string)
    ensures s != "" && forall k :: 0 <= k < |s| ==> '0' <= s[k] <= '9'
    ensures s[0] == '0' ==> n == 0
    ensures |s| > 1 ==> s[0] != '0'
    ensures DecimalValue(s) == n
  {
    if n < 10 then [Digit(n)]
    else
      var s := Decimal(n / 10) + [Digit(n % 10)];
      assert s[..|s| - 1] == Decimal(n / 10);
      s
  }
}
