/** Strings as the original compares and cuts them: one character per byte, byte
    order, split and join at a separator. */
module Text {
  import opened Wrappers

  // ----- order -----

  /** Byte order, the order S3 lists keys in. */
  predicate Less(a: string, b: string) {
    b != [] && (a == [] || a[0] < b[0] || (a[0] == b[0] && Less(a[1..], b[1..])))
  }

  predicate AtMost(a: string, b: string) { a == b || Less(a, b) }

  lemma {:induction false} LessTransitive(a: string, b: string, c: string)
    requires Less(a, b) && Less(b, c)
    ensures Less(a, c)
  {
    if a != [] && a[0] == b[0] == c[0] { LessTransitive(a[1..], b[1..], c[1..]); }
  }

  lemma {:induction false} LessTotal(a: string, b: string)
    ensures a == b || Less(a, b) || Less(b, a)
    ensures !(Less(a, b) && Less(b, a)) && (a == b ==> !Less(a, b))
  {
    if a != [] && b != [] {
      LessTotal(a[1..], b[1..]);
      assert a == [a[0]] + a[1..] && b == [b[0]] + b[1..];
    }
  }

  /** At the first place where they differ the one has the smaller byte, or it ends there. */
  lemma {:induction false} LessIff(a: string, b: string)
    ensures Less(a, b) <==>
            exists i :: 0 <= i <= |a| && i < |b| && a[..i] == b[..i] && (i == |a| || a[i] < b[i])
  {
    if Less(a, b) {
      var i := FirstDifference(a, b);
    }
    if i :| 0 <= i <= |a| && i < |b| && a[..i] == b[..i] && (i == |a| || a[i] < b[i]) { LessAt(a, b, i); }
  }

  lemma {:induction false} FirstDifference(a: string, b: string) returns (i: nat)
    requires Less(a, b)
    ensures i <= |a| && i < |b| && a[..i] == b[..i] && (i == |a| || a[i] < b[i])
  {
    if a == [] || a[0] < b[0] {
      i := 0;
    } else {
      i := FirstDifference(a[1..], b[1..]);
      assert a[..i + 1] == [a[0]] + a[1..][..i] && b[..i + 1] == [b[0]] + b[1..][..i];
      i := i + 1;
    }
  }

  lemma {:induction false} LessAt(a: string, b: string, i: nat)
    requires i <= |a| && i < |b| && a[..i] == b[..i] && (i == |a| || a[i] < b[i])
    ensures Less(a, b)
  {
    if i > 0 {
      assert a[0] == a[..i][0] == b[..i][0] == b[0];
      assert a[1..][..i - 1] == a[..i][1..] && b[1..][..i - 1] == b[..i][1..];
      LessAt(a[1..], b[1..], i - 1);
    }
  }

  // ----- split and join -----

  /** The pieces between separators; a string without any is one piece. */
  function Split(s: string, sep: char): (parts: seq<string>)
    ensures |parts| >= 1
  {
    if s == [] then [""]
    else
      var rest := Split(s[1..], sep);
      if s[0] == sep then [""] + rest else [[s[0]] + rest[0]] + rest[1..]
  }

  function Join(parts: seq<string>, sep: string): string {
    if parts == [] then ""
    else if |parts| == 1 then parts[0]
    else parts[0] + sep + Join(parts[1..], sep)
  }

  lemma {:induction false} JoinSplit(s: string, sep: char)
    ensures Join(Split(s, sep), [sep]) == s
  {
    if s != [] {
      JoinSplit(s[1..], sep);
      var rest := Split(s[1..], sep);
      if s[0] == sep {
        assert ([""] + rest)[1..] == rest;
      } else {
        var parts := [[s[0]] + rest[0]] + rest[1..];
        assert parts[1..] == rest[1..];
        if |rest| > 1 { assert Join(parts, [sep]) == [s[0]] + (rest[0] + [sep] + Join(rest[1..], [sep])); }
      }
    }
  }

  lemma {:induction false} SplitPiece(s: string, sep: char)
    requires sep !in s
    ensures Split(s, sep) == [s]
  {
    if s != [] {
      assert s[0] in s && s == [s[0]] + s[1..];
      SplitPiece(s[1..], sep);
    }
  }

  lemma {:induction false} SplitAppend(a: string, b: string, sep: char)
    ensures Split(a + [sep] + b, sep) == Split(a, sep) + Split(b, sep)
  {
    var s := a + [sep] + b;
    if a == [] {
      assert s[1..] == b;
    } else {
      assert s[1..] == a[1..] + [sep] + b;
      SplitAppend(a[1..], b, sep);
    }
  }

  lemma {:induction false} SplitJoin(parts: seq<string>, sep: char)
    requires parts != [] && forall i :: 0 <= i < |parts| ==> sep !in parts[i]
    ensures Split(Join(parts, [sep]), sep) == parts
  {
    if |parts| == 1 {
      SplitPiece(parts[0], sep);
    } else {
      SplitJoin(parts[1..], sep);
      SplitPiece(parts[0], sep);
      SplitAppend(parts[0], Join(parts[1..], [sep]), sep);
    }
  }

  lemma {:induction false} SplitHasNoSep(s: string, sep: char)
    ensures forall i :: 0 <= i < |Split(s, sep)| ==> sep !in Split(s, sep)[i]
  {
    if s != [] {
      SplitHasNoSep(s[1..], sep);
      var rest := Split(s[1..], sep);
      forall i | 0 <= i < |Split(s, sep)| ensures sep !in Split(s, sep)[i] {
        if s[0] == sep { assert i > 0 ==> Split(s, sep)[i] == rest[i - 1]; }
        else { assert i > 0 ==> Split(s, sep)[i] == rest[i]; }
      }
    }
  }

  /** A separator after which nothing comes, or another separator. */
  predicate Hanging(s: string, sep: char) {
    exists i :: 0 <= i < |s| && s[i] == sep && (i + 1 == |s| || s[i + 1] == sep)
  }

  lemma {:induction false} HangingNext(s: string, sep: char)
    requires s != []
    ensures Hanging(s, sep) <==> (s[0] == sep && (|s| == 1 || s[1] == sep)) || Hanging(s[1..], sep)
  {
    var t := s[1..];
    assert forall i :: 0 <= i < |t| ==> t[i] == s[i + 1];
    if Hanging(t, sep) {
      var i :| 0 <= i < |t| && t[i] == sep && (i + 1 == |t| || t[i + 1] == sep);
      assert s[i + 1] == sep;
    }
    if Hanging(s, sep) {
      var i :| 0 <= i < |s| && s[i] == sep && (i + 1 == |s| || s[i + 1] == sep);
      if i > 0 { assert t[i - 1] == sep; }
    }
  }

  /** An empty piece is one before a leading separator, or after a hanging one. */
  lemma {:induction false} EmptyPieceIff(s: string, sep: char)
    ensures Split(s, sep)[0] == "" <==> s == "" || s[0] == sep
    ensures "" in Split(s, sep)[1..] <==> Hanging(s, sep)
  {
    if s != [] {
      var rest := Split(s[1..], sep);
      EmptyPieceIff(s[1..], sep);
      HangingNext(s, sep);
      if s[0] == sep {
        assert Split(s, sep)[1..] == rest;
        assert rest == [rest[0]] + rest[1..];
      } else {
        assert Split(s, sep)[1..] == rest[1..];
      }
    }
  }

  // ----- prefixes -----

  predicate EndsWith(s: string, c: char) { s != [] && s[|s| - 1] == c }

  function StripPrefix(s: string, p: string): (r: Option<string>)
    ensures r.Some? <==> exists t: string :: s == p + t
    ensures r.Some? ==> s == p + r.value
  {
    if p <= s then
      assert s == p + s[|p|..];
      Some(s[|p|..])
    else None
  }

  function TrimStart(s: string, c: char): (t: string)
    ensures t == [] || t[0] != c
    ensures (s == [] || s[0] != c) ==> t == s
  {
    if s != [] && s[0] == c then TrimStart(s[1..], c) else s
  }

  function TrimEnd(s: string, c: char): (t: string)
    ensures !EndsWith(t, c)
    ensures !EndsWith(s, c) ==> t == s
  {
    if EndsWith(s, c) then TrimEnd(s[..|s| - 1], c) else s
  }
}
