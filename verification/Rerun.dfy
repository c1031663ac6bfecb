/** The command line that copies one range again, and the shell that reads it. */
module Rerun {
  import opened Wrappers
  import opened Text
  import opened RangePartition
  import opened Destination

  // ----- quoting -----

  /** Characters that the quoter leaves bare. */
  predicate PlainChar(c: char) {
    ('a' <= c <= 'z') || ('A' <= c <= 'Z') || ('0' <= c <= '9') || c in "-_./=:@%+,"
  }

  predicate AllPlain(s: string) { forall i :: 0 <= i < |s| ==> PlainChar(s[i]) }

  /** A single quote inside single quotes: end, an escaped quote, begin again. */
  function Escaped(s: string): string {
    if s == "" then "" else (if s[0] == '\'' then "'\\''" else [s[0]]) + Escaped(s[1..])
  }

  function ShQuote(s: string): string {
    if s != "" && AllPlain(s) then s else "'" + Escaped(s) + "'"
  }

  // ----- reading a command line: POSIX.1-2017, XCU, section 2.2 -----

  /** Characters that a shell may read as something else than themselves when they
      are bare (section 2.2). The section names `=` and `%` too: the one makes an
      assignment only before the command name, the other a job number only for the
      shell's own commands, so after a command name that is neither they stand for
      themselves. */
  predicate Special(c: char) { c in "|&;<>()$`\\\"' \t\n" || c in "*?[#~" }

  /** Between words, in a word, or between single quotes; the word so far, and
      whether one has begun. */
  datatype Reader = Reader(quoted: bool, begun: bool, word: string, words: seq<string>)

  /** Reads to the end. A backslash outside quotes takes the next character as it
      is (section 2.2.1; a backslash before a newline joins lines); between single
      quotes every character is itself (section 2.2.2). A space ends a word. Any
      other special character is more than one command of plain words, and there is
      no reading; what is not special is itself. */
  function Read(r: Reader, s: string): Option<seq<string>>
    decreases |s|
  {
    if s == "" then (if r.quoted then None else Some(if r.begun then r.words + [r.word] else r.words))
    else if r.quoted then
      Read(if s[0] == '\'' then r.(quoted := false) else r.(word := r.word + [s[0]]), s[1..])
    else if s[0] == '\'' then Read(r.(quoted := true, begun := true), s[1..])
    else if s[0] == '\\' then
      if |s| == 1 then None
      else if s[1] == '\n' then Read(r, s[2..])
      else Read(r.(begun := true, word := r.word + [s[1]]), s[2..])
    else if s[0] == ' ' then
      Read(if r.begun then Reader(false, false, "", r.words + [r.word]) else r, s[1..])
    else if Special(s[0]) then None
    else Read(r.(begun := true, word := r.word + [s[0]]), s[1..])
  }

  function Words(s: string): Option<seq<string>> { Read(Reader(false, false, "", []), s) }

  // ----- one argument -----

  /** What the quoter leaves bare means itself to the shell. */
  lemma {:induction false} PlainIsNotSpecial(c: char)
    requires PlainChar(c)
    ensures !Special(c)
  {
  }

  lemma {:induction false} ReadBareChar(r: Reader, c: char, rest: string)
    requires !r.quoted && !Special(c)
    ensures Read(r, [c] + rest) == Read(r.(begun := true, word := r.word + [c]), rest)
  {
    assert ([c] + rest)[0] == c && ([c] + rest)[1..] == rest;
    assert c != '\'' && c != '\\' && c != ' ';
  }

  predicate NoneSpecial(s: string) { forall i :: 0 <= i < |s| ==> !Special(s[i]) }

  lemma {:induction false} ReadBare(r: Reader, s: string, rest: string)
    requires !r.quoted && NoneSpecial(s)
    ensures Read(r, s + rest) == Read(r.(begun := r.begun || s != "", word := r.word + s), rest)
    decreases |s|
  {
    if s == "" {
      assert s + rest == rest && r.word + s == r.word;
    } else {
      var next := r.(begun := true, word := r.word + [s[0]]);
      assert s + rest == [s[0]] + (s[1..] + rest);
      assert next.word + s[1..] == r.word + s;
      ReadBareChar(r, s[0], s[1..] + rest);
      ReadBare(next, s[1..], rest);
    }
  }

  // ----- what may stay bare -----

  function Letters(words: seq<string>): nat {
    if words == [] then 0 else Letters(words[..|words| - 1]) + |words[|words| - 1]|
  }

  lemma {:induction false} LettersNext(words: seq<string>, word: string)
    ensures Letters(words + [word]) == Letters(words) + |word|
  {
    assert (words + [word])[..|words|] == words;
  }

  /** The shell adds no letters to the words, and a bare special character is not
      among them. */
  lemma {:induction false} ReadShrinks(r: Reader, s: string)
    requires (!r.begun ==> r.word == "") && (r.quoted ==> r.begun) && Read(r, s).Some?
    ensures Letters(Read(r, s).value) <= Letters(r.words) + |r.word| + |s|
    ensures !r.quoted && !NoneSpecial(s) ==> Letters(Read(r, s).value) < Letters(r.words) + |r.word| + |s|
    decreases |s|
  {
    LettersNext(r.words, r.word);
    if s == "" {
    } else if r.quoted {
      ReadShrinks(if s[0] == '\'' then r.(quoted := false) else r.(word := r.word + [s[0]]), s[1..]);
    } else if s[0] == '\'' {
      ReadShrinks(r.(quoted := true, begun := true), s[1..]);
    } else if s[0] == '\\' {
      ReadShrinks(if s[1] == '\n' then r else r.(begun := true, word := r.word + [s[1]]), s[2..]);
    } else if s[0] == ' ' {
      ReadShrinks(if r.begun then Reader(false, false, "", r.words + [r.word]) else r, s[1..]);
    } else {
      ReadShrinks(r.(begun := true, word := r.word + [s[0]]), s[1..]);
    }
  }

  /** A word may stay bare exactly when none of its characters is special: only then
      does the shell read it as the one word it is. */
  lemma {:induction false} BareIff(s: string)
    ensures Words(s) == Some([s]) <==> s != "" && NoneSpecial(s)
  {
    var r := Reader(false, false, "", []);
    if NoneSpecial(s) {
      ReadBare(r, s, "");
      assert s + "" == s && "" + s == s && [] + [s] == [s];
    } else if Words(s) == Some([s]) {
      LettersNext([], s);
      assert [] + [s] == [s];
      ReadShrinks(r, s);
    }
  }

  // ----- quoted -----

  lemma {:induction false} ReadEscape(r: Reader, rest: string)
    requires r.quoted && r.begun
    ensures Read(r, "'\\''" + rest) == Read(r.(word := r.word + ['\'']), rest)
  {
    var open, added := r.(quoted := false), r.(quoted := false, word := r.word + ['\'']);
    var s, s1, s2 := "'\\''" + rest, "\\''" + rest, "'" + rest;
    assert s[0] == '\'' && s[1..] == s1;
    assert Read(r, s) == Read(open, s1);
    assert s1[0] == '\\' && s1[1] == '\'' && s1[2..] == s2;
    assert Read(open, s1) == Read(added, s2);
    assert s2[0] == '\'' && s2[1..] == rest;
  }

  lemma {:induction false} ReadInside(r: Reader, c: char, rest: string)
    requires r.quoted && c != '\''
    ensures Read(r, [c] + rest) == Read(r.(word := r.word + [c]), rest)
  {
    assert ([c] + rest)[0] == c && ([c] + rest)[1..] == rest;
  }

  lemma {:induction false} EscapedNext(s: string, rest: string)
    requires s != ""
    ensures Escaped(s) + rest == (if s[0] == '\'' then "'\\''" else [s[0]]) + (Escaped(s[1..]) + rest)
  {
  }

  lemma {:induction false} ReadEscaped(r: Reader, s: string, rest: string)
    requires r.quoted && r.begun
    ensures Read(r, Escaped(s) + rest) == Read(r.(word := r.word + s), rest)
    decreases |s|
  {
    if s == "" {
      assert Escaped(s) + rest == rest && r.word + s == r.word;
    } else {
      var next := r.(word := r.word + [s[0]]);
      assert next.word + s[1..] == r.word + s;
      EscapedNext(s, rest);
      ReadEscaped(next, s[1..], rest);
      if s[0] == '\'' { ReadEscape(r, Escaped(s[1..]) + rest); } else { ReadInside(r, s[0], Escaped(s[1..]) + rest); }
    }
  }

  /** A quoted argument is read as one word, the argument itself. */
  lemma {:induction false} ReadQuoted(words: seq<string>, s: string, rest: string)
    ensures Read(Reader(false, false, "", words), ShQuote(s) + rest) == Read(Reader(false, true, s, words), rest)
  {
    var r := Reader(false, false, "", words);
    if s != "" && AllPlain(s) {
      forall i | 0 <= i < |s| ensures !Special(s[i]) { PlainIsNotSpecial(s[i]); }
      ReadBare(r, s, rest);
      assert "" + s == s;
    } else {
      var open := Reader(true, true, "", words);
      var tail := "'" + rest;
      assert ShQuote(s) + rest == "'" + (Escaped(s) + tail);
      assert ("'" + (Escaped(s) + tail))[1..] == Escaped(s) + tail;
      ReadEscaped(open, s, tail);
      assert "" + s == s && tail[0] == '\'' && tail[1..] == rest;
    }
  }

  lemma {:induction false} EscapedIsNoShorter(s: string)
    ensures |Escaped(s)| >= |s|
  {
    if s != "" { EscapedIsNoShorter(s[1..]); }
  }

  /** A value is printed as it is exactly when it is not empty and has just letters, digits
      and `-_./=:@%+,`. */
  lemma {:induction false} BareWhen(s: string)
    ensures ShQuote(s) == s <==>
            s != "" && forall i :: 0 <= i < |s| ==>
              'a' <= s[i] <= 'z' || 'A' <= s[i] <= 'Z' || '0' <= s[i] <= '9' || s[i] in "-_./=:@%+,"
  {
    EscapedIsNoShorter(s);
    assert |"'" + Escaped(s) + "'"| > |s|;
  }

  // ----- the command -----

  function Quoted(argv: seq<string>): seq<string> {
    if argv == [] then [] else [ShQuote(argv[0])] + Quoted(argv[1..])
  }

  function Command(argv: seq<string>): string { Join(Quoted(argv), " ") }

  lemma {:induction false} CommandOf(a: string, more: seq<string>)
    ensures Command([a] + more) == ShQuote(a) + if more == [] then "" else " " + Command(more)
  {
    assert ([a] + more)[1..] == more;
    assert Quoted([a] + more) == [ShQuote(a)] + Quoted(more);
    assert ([ShQuote(a)] + Quoted(more))[1..] == Quoted(more);
    if more == [] {
      assert ShQuote(a) + "" == ShQuote(a);
    } else {
      assert ShQuote(a) + " " + Command(more) == ShQuote(a) + (" " + Command(more));
    }
  }

  lemma {:induction false} ReadBlank(word: string, words: seq<string>, rest: string)
    ensures Read(Reader(false, true, word, words), " " + rest) == Read(Reader(false, false, "", words + [word]), rest)
  {
    assert (" " + rest)[0] == ' ' && (" " + rest)[1..] == rest;
  }

  lemma {:induction false} ReadCommand(words: seq<string>, argv: seq<string>)
    ensures Read(Reader(false, false, "", words), Command(argv)) == Some(words + argv)
    decreases |argv|
  {
    if argv == [] {
      assert words + argv == words;
    } else {
      var a, more := argv[0], argv[1..];
      assert argv == [a] + more;
      CommandOf(a, more);
      ReadQuoted(words, a, if more == [] then "" else " " + Command(more));
      assert words + [a] + more == words + argv;
      if more == [] {
        assert words + [a] == words + argv;
      } else {
        ReadBlank(a, words, Command(more));
        ReadCommand(words + [a], more);
      }
    }
  }

  /** For any arguments at all, empty ones and quotes in them included: the shell
      splits the printed command into exactly those arguments. */
  lemma {:induction false} CommandRoundTrip(argv: seq<string>)
    ensures Words(Command(argv)) == Some(argv)
  {
    ReadCommand([], argv);
    assert [] + argv == argv;
  }

  // ----- the re-run of a range -----

  function Flagged(flag: string, values: seq<string>): seq<string> {
    if values == [] then [] else [flag, values[0]] + Flagged(flag, values[1..])
  }

  function Bound(flag: string, value: Option<string>): seq<string> {
    if value.Some? then [flag, value.value] else []
  }

  function Head(url: string, dest: BucketRef, r: PlannedRange): seq<string> {
    ["hf-s3ream", url, Uri(dest)] + Bound("--start-after", r.startAfter) + Bound("--stop-at", r.stopAt)
  }

  function Tail(globs: seq<string>, unsigned: bool): seq<string> {
    Flagged("--exclude", globs) + ["--skip-existing"] + if unsigned then ["--no-sign-request"] else []
  }

  /** The arguments that copy the range again. */
  function Argv(url: string, dest: BucketRef, globs: seq<string>, r: PlannedRange, unsigned: bool): seq<string> {
    Head(url, dest, r) + Tail(globs, unsigned)
  }

  /** The printed command: flags as they are, values quoted. */
  function PrintedFlagged(flag: string, values: seq<string>): seq<string> {
    if values == [] then [] else [flag, ShQuote(values[0])] + PrintedFlagged(flag, values[1..])
  }

  function PrintedBound(flag: string, value: Option<string>): seq<string> {
    if value.Some? then [flag, ShQuote(value.value)] else []
  }

  function PrintedHead(url: string, dest: BucketRef, r: PlannedRange): seq<string> {
    ["hf-s3ream", ShQuote(url), ShQuote(Uri(dest))] + PrintedBound("--start-after", r.startAfter)
      + PrintedBound("--stop-at", r.stopAt)
  }

  function PrintedTail(globs: seq<string>, unsigned: bool): seq<string> {
    PrintedFlagged("--exclude", globs) + ["--skip-existing"] + if unsigned then ["--no-sign-request"] else []
  }

  function RerunCommand(url: string, dest: BucketRef, globs: seq<string>, r: PlannedRange, unsigned: bool): string {
    Join(PrintedHead(url, dest, r) + PrintedTail(globs, unsigned), " ")
  }

  lemma {:induction false} QuotedAppend(a: seq<string>, b: seq<string>)
    ensures Quoted(a + b) == Quoted(a) + Quoted(b)
  {
    if a == [] {
      assert a + b == b && [] + Quoted(b) == Quoted(b);
    } else {
      assert (a + b)[1..] == a[1..] + b;
      QuotedAppend(a[1..], b);
    }
  }

  lemma {:induction false} QuotedOne(s: string)
    ensures Quoted([s]) == [ShQuote(s)]
  {
    assert [s][1..] == [];
  }

  lemma {:induction false} QuotedTwo(a: string, b: string)
    ensures Quoted([a, b]) == [ShQuote(a), ShQuote(b)]
  {
    assert [a, b][1..] == [b];
    QuotedOne(b);
  }

  lemma {:induction false} QuotedFlagged(flag: string, values: seq<string>)
    requires ShQuote(flag) == flag
    ensures Quoted(Flagged(flag, values)) == PrintedFlagged(flag, values)
  {
    if values != [] {
      QuotedFlagged(flag, values[1..]);
      QuotedAppend([flag, values[0]], Flagged(flag, values[1..]));
      QuotedTwo(flag, values[0]);
    }
  }

  lemma {:induction false} QuotedBound(flag: string, value: Option<string>)
    requires ShQuote(flag) == flag
    ensures Quoted(Bound(flag, value)) == PrintedBound(flag, value)
  {
    if value.Some? { QuotedTwo(flag, value.value); }
  }

  /** The words of our own that are printed as they are. */
  predicate OwnWord(s: string) {
    s in ["hf-s3ream", "--start-after", "--stop-at", "--exclude", "--skip-existing", "--no-sign-request"]
  }

  lemma {:induction false} OwnWordsArePlain(s: string)
    requires OwnWord(s)
    ensures ShQuote(s) == s
  {
    assert AllPlain("hf-s3ream") && AllPlain("--start-after") && AllPlain("--stop-at");
    assert AllPlain("--exclude") && AllPlain("--skip-existing") && AllPlain("--no-sign-request");
  }

  lemma {:induction false} QuotedHead(program: string, url: string, uri: string, f: string, v: Option<string>,
                                      g: string, w: Option<string>)
    requires ShQuote(program) == program && ShQuote(f) == f && ShQuote(g) == g
    ensures Quoted([program, url, uri] + Bound(f, v) + Bound(g, w)) ==
            [program, ShQuote(url), ShQuote(uri)] + PrintedBound(f, v) + PrintedBound(g, w)
  {
    var a := [program, url, uri];
    assert a[1..] == [url, uri];
    QuotedTwo(url, uri);
    QuotedBound(f, v);
    QuotedBound(g, w);
    QuotedAppend(a, Bound(f, v));
    QuotedAppend(a + Bound(f, v), Bound(g, w));
  }

  lemma {:induction false} QuotedTail(f: string, values: seq<string>, g: string, last: seq<string>)
    requires ShQuote(f) == f && ShQuote(g) == g && Quoted(last) == last
    ensures Quoted(Flagged(f, values) + [g] + last) == PrintedFlagged(f, values) + [g] + last
  {
    QuotedFlagged(f, values);
    QuotedOne(g);
    QuotedAppend(Flagged(f, values), [g]);
    QuotedAppend(Flagged(f, values) + [g], last);
  }

  lemma {:induction false} PrintedIsQuoted(url: string, dest: BucketRef, globs: seq<string>, r: PlannedRange,
                                           unsigned: bool)
    ensures RerunCommand(url, dest, globs, r, unsigned) == Command(Argv(url, dest, globs, r, unsigned))
  {
    OwnWordsArePlain("hf-s3ream");
    OwnWordsArePlain("--start-after");
    OwnWordsArePlain("--stop-at");
    OwnWordsArePlain("--exclude");
    OwnWordsArePlain("--skip-existing");
    OwnWordsArePlain("--no-sign-request");
    QuotedOne("--no-sign-request");
    QuotedHead("hf-s3ream", url, Uri(dest), "--start-after", r.startAfter, "--stop-at", r.stopAt);
    QuotedTail("--exclude", globs, "--skip-existing", if unsigned then ["--no-sign-request"] else []);
    QuotedAppend(Head(url, dest, r), Tail(globs, unsigned));
  }

  lemma {:induction false} ArgvStart(url: string, dest: BucketRef, globs: seq<string>, r: PlannedRange, unsigned: bool)
    ensures var argv := Argv(url, dest, globs, r, unsigned); |argv| >= 3 && argv[1] == url && argv[2] == Uri(dest)
  {
    var a := ["hf-s3ream", url, Uri(dest)];
    var rest := Bound("--start-after", r.startAfter) + Bound("--stop-at", r.stopAt) + Tail(globs, unsigned);
    assert Argv(url, dest, globs, r, unsigned) == a + rest;
  }

  // ----- what the copier makes of the arguments -----

  /** What the command line says to copy, where to, and how. */
  datatype Args = Args(places: seq<string>, startAfter: Option<string>, stopAt: Option<string>,
                       excludes: seq<string>, skipExisting: bool, unsigned: bool)

  /** Which arguments may stand for a value; the others are taken for flags. */
  type Takes = string -> bool

  /** Reads the arguments after the program's name: a flag with a value takes the next
      argument; a bound given twice, or an argument that stands for nothing, is an error. */
  function ReadArgs(takes: Takes, argv: seq<string>, a: Args): Option<Args>
    decreases |argv|
  {
    if argv == [] then Some(a)
    else if argv[0] == "--skip-existing" then ReadArgs(takes, argv[1..], a.(skipExisting := true))
    else if argv[0] == "--no-sign-request" then ReadArgs(takes, argv[1..], a.(unsigned := true))
    else if argv[0] !in ["--start-after", "--stop-at", "--exclude"] then
      if takes(argv[0]) then ReadArgs(takes, argv[1..], a.(places := a.places + [argv[0]])) else None
    else if |argv| == 1 || !takes(argv[1]) then None
    else if argv[0] == "--exclude" then ReadArgs(takes, argv[2..], a.(excludes := a.excludes + [argv[1]]))
    else if argv[0] == "--start-after" then
      if a.startAfter.Some? then None else ReadArgs(takes, argv[2..], a.(startAfter := Some(argv[1])))
    else if a.stopAt.Some? then None
    else ReadArgs(takes, argv[2..], a.(stopAt := Some(argv[1])))
  }

  const NO_ARGS := Args([], None, None, [], false, false)

  predicate Flag(s: string) {
    s in ["--start-after", "--stop-at", "--exclude", "--skip-existing", "--no-sign-request"]
  }

  predicate AllTaken(takes: Takes, values: seq<string>) { forall i :: 0 <= i < |values| ==> takes(values[i]) }

  lemma {:induction false} ReadValue(takes: Takes, flag: string, value: string, rest: seq<string>, a: Args)
    requires flag in ["--start-after", "--stop-at", "--exclude"]
    ensures !takes(value) ==> ReadArgs(takes, [flag, value] + rest, a) == None
    ensures takes(value) && flag == "--exclude" ==>
              ReadArgs(takes, [flag, value] + rest, a) == ReadArgs(takes, rest, a.(excludes := a.excludes + [value]))
    ensures takes(value) && flag == "--start-after" && a.startAfter.None? ==>
              ReadArgs(takes, [flag, value] + rest, a) == ReadArgs(takes, rest, a.(startAfter := Some(value)))
    ensures takes(value) && flag == "--stop-at" && a.stopAt.None? ==>
              ReadArgs(takes, [flag, value] + rest, a) == ReadArgs(takes, rest, a.(stopAt := Some(value)))
  {
    assert ([flag, value] + rest)[2..] == rest && ([flag, value] + rest)[1] == value;
  }

  lemma {:induction false} FlaggedNext(flag: string, values: seq<string>, rest: seq<string>)
    requires values != []
    ensures Flagged(flag, values) + rest == [flag, values[0]] + (Flagged(flag, values[1..]) + rest)
  {
  }

  lemma {:induction false} ReadExcludes(takes: Takes, globs: seq<string>, rest: seq<string>, a: Args)
    ensures ReadArgs(takes, Flagged("--exclude", globs) + rest, a) ==
            if AllTaken(takes, globs) then ReadArgs(takes, rest, a.(excludes := a.excludes + globs)) else None
    decreases |globs|
  {
    if globs == [] {
      assert [] + rest == rest && a.excludes + globs == a.excludes;
    } else {
      var more := Flagged("--exclude", globs[1..]) + rest;
      FlaggedNext("--exclude", globs, rest);
      ReadValue(takes, "--exclude", globs[0], more, a);
      ReadExcludes(takes, globs[1..], rest, a.(excludes := a.excludes + [globs[0]]));
      assert globs == [globs[0]] + globs[1..];
      assert a.excludes + [globs[0]] + globs[1..] == a.excludes + globs;
    }
  }

  lemma {:induction false} ReadTail(takes: Takes, globs: seq<string>, unsigned: bool, a: Args)
    requires a.excludes == []
    ensures ReadArgs(takes, Tail(globs, unsigned), a) ==
            if AllTaken(takes, globs)
            then Some(a.(excludes := globs, skipExisting := true, unsigned := a.unsigned || unsigned)) else None
  {
    var last := if unsigned then ["--no-sign-request"] else [];
    var end := ["--skip-existing"] + last;
    assert Tail(globs, unsigned) == Flagged("--exclude", globs) + end;
    ReadExcludes(takes, globs, end, a);
    assert [] + globs == globs;
    ReadEnd(takes, unsigned, a.(excludes := globs));
  }

  lemma {:induction false} ReadEnd(takes: Takes, unsigned: bool, a: Args)
    ensures ReadArgs(takes, ["--skip-existing"] + (if unsigned then ["--no-sign-request"] else []), a)
            == Some(a.(skipExisting := true, unsigned := a.unsigned || unsigned))
  {
    var last := if unsigned then ["--no-sign-request"] else [];
    var b := a.(skipExisting := true);
    assert (["--skip-existing"] + last)[1..] == last;
    assert ReadArgs(takes, ["--skip-existing"] + last, a) == ReadArgs(takes, last, b);
    if unsigned {
      assert last[1..] == [];
      assert ReadArgs(takes, last, b) == ReadArgs(takes, [], b.(unsigned := true));
    } else {
      assert b == b.(unsigned := a.unsigned);
    }
  }

  lemma {:induction false} ReadPlace(takes: Takes, place: string, rest: seq<string>, a: Args)
    requires takes(place) && !Flag(place)
    ensures ReadArgs(takes, [place] + rest, a) == ReadArgs(takes, rest, a.(places := a.places + [place]))
  {
    assert ([place] + rest)[1..] == rest;
  }

  /** The value, if there is one, may stand for one. */
  predicate Taken(takes: Takes, value: Option<string>) { value.None? || takes(value.value) }

  lemma {:induction false} ReadBounds(takes: Takes, r: PlannedRange, rest: seq<string>, a: Args)
    requires a.startAfter.None? && a.stopAt.None?
    ensures ReadArgs(takes, Bound("--start-after", r.startAfter) + (Bound("--stop-at", r.stopAt) + rest), a) ==
            if Taken(takes, r.startAfter) && Taken(takes, r.stopAt)
            then ReadArgs(takes, rest, a.(startAfter := r.startAfter, stopAt := r.stopAt)) else None
  {
    var b := a.(startAfter := r.startAfter);
    var more := Bound("--stop-at", r.stopAt) + rest;
    if r.startAfter.Some? {
      ReadValue(takes, "--start-after", r.startAfter.value, more, a);
    } else {
      assert [] + more == more && b == a;
    }
    if r.stopAt.Some? {
      ReadValue(takes, "--stop-at", r.stopAt.value, rest, b);
    } else {
      assert [] + rest == rest;
    }
  }

  lemma {:induction false} ArgvIs(url: string, dest: BucketRef, globs: seq<string>, r: PlannedRange, unsigned: bool,
                                  bounds: seq<string>)
    requires bounds == Bound("--start-after", r.startAfter) + (Bound("--stop-at", r.stopAt) + Tail(globs, unsigned))
    ensures Argv(url, dest, globs, r, unsigned)[0] == "hf-s3ream"
    ensures Argv(url, dest, globs, r, unsigned)[1..] == [url] + ([Uri(dest)] + bounds)
  {
    var argv := Argv(url, dest, globs, r, unsigned);
    assert argv == ["hf-s3ream"] + ([url] + ([Uri(dest)] + bounds));
  }

  /** The arguments say just the range: its source and destination, its bounds, each
      glob, and to skip what is there. They are read so exactly when every bound and
      every glob may stand for a value. */
  lemma {:induction false} ArgsAreTheRange(takes: Takes, url: string, dest: BucketRef, globs: seq<string>,
                                           r: PlannedRange, unsigned: bool)
    requires takes(url) && takes(Uri(dest)) && !Flag(url) && !Flag(Uri(dest))
    ensures var argv := Argv(url, dest, globs, r, unsigned);
            argv[0] == "hf-s3ream" &&
            ReadArgs(takes, argv[1..], NO_ARGS) ==
            if Taken(takes, r.startAfter) && Taken(takes, r.stopAt) && AllTaken(takes, globs)
            then Some(Args([url, Uri(dest)], r.startAfter, r.stopAt, globs, true, unsigned)) else None
  {
    var uri, tail := Uri(dest), Tail(globs, unsigned);
    var bounds := Bound("--start-after", r.startAfter) + (Bound("--stop-at", r.stopAt) + tail);
    var argv := Argv(url, dest, globs, r, unsigned);
    ArgvIs(url, dest, globs, r, unsigned, bounds);
    var a := NO_ARGS.(places := [url, uri]);
    assert [] + [url] == [url] && [url] + [uri] == [url, uri];
    ReadPlace(takes, url, [uri] + bounds, NO_ARGS);
    ReadPlace(takes, uri, bounds, NO_ARGS.(places := [url]));
    ReadBounds(takes, r, tail, a);
    ReadTail(takes, globs, unsigned, a.(startAfter := r.startAfter, stopAt := r.stopAt));
  }

  /** Pasted into a shell, the printed command starts the copier with exactly the
      arguments meant, for any key and any glob; and the destination argument is
      read as the destination that was checked. */
  lemma {:induction false} RerunIsFaithful(url: string, given: string, globs: seq<string>, r: PlannedRange,
                                           unsigned: bool)
    requires ParseDest(given).Ok?
    ensures var dest := ParseDest(given).value;
            var argv := Argv(url, dest, globs, r, unsigned);
            && Words(RerunCommand(url, dest, globs, r, unsigned)) == Some(argv)
            && |argv| >= 3 && argv[1] == url && ParseDest(argv[2]) == Ok(dest)
  {
    var dest := ParseDest(given).value;
    ArgvStart(url, dest, globs, r, unsigned);
    PrintedIsQuoted(url, dest, globs, r, unsigned);
    CommandRoundTrip(Argv(url, dest, globs, r, unsigned));
    PrintedDestinationIsTheSame(given);
  }
}
