/** A destination bucket: the URI it is printed as, and how one is read. */
module Destination {
  import opened Wrappers
  import opened Text

  datatype BucketRef = BucketRef(org: string, name: string, path: string)

  datatype Refusal = NotABucketUri | BadShape | Revision | EmptySegment

  const SCHEME := "hf://"
  const BUCKETS := "hf://buckets/"

  function Id(d: BucketRef): string { d.org + "/" + d.name }

  function Uri(d: BucketRef): string {
    if d.path == "" then BUCKETS + Id(d) else BUCKETS + Id(d) + "/" + d.path
  }

  function Trimmed(s: string): string { TrimEnd(TrimStart(s, '/'), '/') }

  /** The pieces of a destination, after the scheme. */
  function FromParts(parts: seq<string>, allowPath: bool): Result<BucketRef, Refusal>
    requires parts != []
  {
    var org, name := parts[0], if |parts| > 1 then parts[1] else "";
    var path := if |parts| > 2 then parts[2..] else [];
    if org == "" || name == "" || (!allowPath && path != []) then Err(BadShape)
    else if '@' in org || '@' in name then Err(Revision)
    else if "" in path then Err(EmptySegment)
    else Ok(BucketRef(org, name, Join(path, "/")))
  }

  function ParseDest(s: string): Result<BucketRef, Refusal> {
    match StripPrefix(s, BUCKETS)
    case Some(rest) => FromParts(Split(Trimmed(rest), '/'), true)
    case None => if SCHEME <= s then Err(NotABucketUri) else FromParts(Split(s, '/'), false)
  }

  /** What a bucket reference can be: no empty piece, no slash inside one, no
      revision mark. */
  ghost predicate WellFormed(d: BucketRef) {
    && d.org != "" && d.name != "" && '/' !in d.org && '/' !in d.name && '@' !in d.org && '@' !in d.name
    && (d.path != "" ==> "" !in Split(d.path, '/'))
  }

  lemma {:induction false} JoinNotEmpty(path: seq<string>)
    requires path != [] && "" !in path
    ensures Join(path, "/") != ""
  {
    assert path[0] in path;
  }

  /** Whatever is read is well formed. */
  lemma {:induction false} PartsAreWellFormed(parts: seq<string>, allowPath: bool)
    requires parts != [] && forall k :: 0 <= k < |parts| ==> '/' !in parts[k]
    requires FromParts(parts, allowPath).Ok?
    ensures WellFormed(FromParts(parts, allowPath).value)
  {
    if |parts| > 2 {
      var path := parts[2..];
      JoinNotEmpty(path);
      SplitJoin(path, '/');
    }
  }

  lemma {:induction false} ParsedIsWellFormed(s: string)
    requires ParseDest(s).Ok?
    ensures WellFormed(ParseDest(s).value)
  {
    match StripPrefix(s, BUCKETS)
    case Some(rest) =>
      SplitHasNoSep(Trimmed(rest), '/');
      PartsAreWellFormed(Split(Trimmed(rest), '/'), true);
    case None =>
      SplitHasNoSep(s, '/');
      PartsAreWellFormed(Split(s, '/'), false);
  }

  function Body(d: BucketRef): string { if d.path == "" then Id(d) else Id(d) + "/" + d.path }

  /** The printed pieces are the reference's own. */
  lemma {:induction false} SplitBody(d: BucketRef)
    requires WellFormed(d)
    ensures Split(Body(d), '/') == [d.org, d.name] + (if d.path == "" then [] else Split(d.path, '/'))
  {
    SplitPiece(d.org, '/');
    SplitPiece(d.name, '/');
    SplitAppend(d.org, d.name, '/');
    if d.path != "" { SplitAppend(Id(d), d.path, '/'); }
  }

  lemma {:induction false} LastPiece(s: string)
    requires EndsWith(s, '/')
    ensures "" in Split(s, '/')
  {
    assert s == s[..|s| - 1] + "/" + "";
    SplitAppend(s[..|s| - 1], "", '/');
    assert Split("", '/') == [""];
    assert Split(s, '/')[|Split(s, '/')| - 1] == "";
  }

  lemma {:induction false} BodyIsTrimmed(d: BucketRef)
    requires WellFormed(d)
    ensures Trimmed(Body(d)) == Body(d)
  {
    var last := if d.path == "" then d.name else d.path;
    assert Body(d)[0] == d.org[0] && d.org[0] in d.org;
    assert Body(d)[|Body(d)| - 1] == last[|last| - 1] && last[|last| - 1] in last;
    if EndsWith(d.path, '/') { LastPiece(d.path); }
  }

  /** Reading the printed URI gives the destination back exactly when it is well
      formed. */
  lemma {:induction false} UriRoundTrip(d: BucketRef)
    ensures ParseDest(Uri(d)) == Ok(d) <==> WellFormed(d)
  {
    assert Uri(d) == BUCKETS + Body(d);
    assert StripPrefix(Uri(d), BUCKETS) == Some(Body(d));
    if ParseDest(Uri(d)) == Ok(d) { ParsedIsWellFormed(Uri(d)); }
    if WellFormed(d) {
      BodyIsTrimmed(d);
      SplitBody(d);
      JoinSplit(d.path, '/');
      var parts := Split(Body(d), '/');
      assert d.path != "" ==> parts[2..] == Split(d.path, '/');
    }
  }

  /** So the URI a re-run prints is read as the destination of this run, however
      that was given. */
  lemma {:induction false} PrintedDestinationIsTheSame(s: string)
    requires ParseDest(s).Ok?
    ensures ParseDest(Uri(ParseDest(s).value)) == ParseDest(s)
  {
    ParsedIsWellFormed(s);
    UriRoundTrip(ParseDest(s).value);
  }

  // ----- what is accepted -----

  function Slashes(n: nat): string { if n == 0 then "" else "/" + Slashes(n - 1) }

  lemma {:induction false} LeadingSlashes(s: string) returns (n: nat)
    ensures s == Slashes(n) + TrimStart(s, '/')
  {
    if s != [] && s[0] == '/' {
      n := LeadingSlashes(s[1..]);
      n := n + 1;
      assert s == "/" + s[1..];
    } else {
      n := 0;
    }
  }

  lemma {:induction false} OneMoreSlash(n: nat)
    ensures Slashes(n) + "/" == Slashes(n + 1)
  {
    if n > 0 { OneMoreSlash(n - 1); }
  }

  lemma {:induction false} TrailingSlashes(s: string) returns (n: nat)
    ensures s == TrimEnd(s, '/') + Slashes(n)
  {
    if EndsWith(s, '/') {
      n := TrailingSlashes(s[..|s| - 1]);
      assert s == s[..|s| - 1] + "/";
      OneMoreSlash(n);
      n := n + 1;
    } else {
      n := 0;
    }
  }

  lemma {:induction false} TrimLeading(t: string, m: nat)
    requires t != "" && t[0] != '/'
    ensures TrimStart(Slashes(m) + t, '/') == t
  {
    if m > 0 {
      TrimLeading(t, m - 1);
      assert Slashes(m) + t == "/" + (Slashes(m - 1) + t);
    } else {
      assert Slashes(m) + t == t;
    }
  }

  lemma {:induction false} TrimTrailing(t: string, n: nat)
    requires t != "" && t[|t| - 1] != '/'
    ensures TrimEnd(t + Slashes(n), '/') == t
  {
    if n > 0 {
      TrimTrailing(t, n - 1);
      OneMoreSlash(n - 1);
      var s := t + Slashes(n - 1);
      assert t + Slashes(n) == s + "/" && (s + "/")[..|s|] == s;
    } else {
      assert t + Slashes(n) == t;
    }
  }

  lemma {:induction false} BodyEnds(d: BucketRef)
    requires WellFormed(d)
    ensures var b := Body(d); b != "" && b[0] != '/' && b[|b| - 1] != '/'
  {
    BodyIsTrimmed(d);
    assert Body(d)[0] == d.org[0] && d.org[0] in d.org;
  }

  lemma {:induction false} JoinTwo(a: string, b: string, more: seq<string>)
    ensures Join([a, b] + more, "/") == if more == [] then a + "/" + b else a + "/" + b + "/" + Join(more, "/")
  {
    assert ([a, b] + more)[1..] == [b] + more && ([b] + more)[1..] == more;
    if more == [] { assert [a, b] + more == [a, b] && [b] + more == [b]; }
  }

  /** What was read is its own pieces, joined. */
  lemma {:induction false} ReadIsBody(s: string, allowPath: bool, d: BucketRef)
    requires FromParts(Split(s, '/'), allowPath) == Ok(d)
    ensures s == Body(d) && WellFormed(d) && (!allowPath ==> d.path == "")
  {
    var parts := Split(s, '/');
    var path := if |parts| > 2 then parts[2..] else [];
    SplitHasNoSep(s, '/');
    PartsAreWellFormed(parts, allowPath);
    JoinSplit(s, '/');
    assert parts == [d.org, d.name] + path;
    JoinTwo(d.org, d.name, path);
    if path != [] { JoinNotEmpty(path); }
  }

  lemma {:induction false} BodyReads(d: BucketRef, allowPath: bool)
    requires WellFormed(d) && (allowPath || d.path == "")
    ensures FromParts(Split(Body(d), '/'), allowPath) == Ok(d)
  {
    SplitBody(d);
    JoinSplit(d.path, '/');
    var parts := Split(Body(d), '/');
    assert d.path != "" ==> parts[2..] == Split(d.path, '/');
  }

  lemma {:induction false} UriHasThreePieces(s: string)
    requires "hf://" <= s
    ensures |Split(s, '/')| >= 3
  {
    var rest := s[5..];
    assert s == "hf:" + "/" + ("" + "/" + rest);
    SplitAppend("hf:", "" + "/" + rest, '/');
    SplitAppend("", rest, '/');
  }

  /** A bare reference is no URI. */
  lemma {:induction false} IdIsNoUri(d: BucketRef)
    requires WellFormed(d)
    ensures !("hf://" <= Id(d))
  {
    SplitBody(d.(path := ""));
    if "hf://" <= Id(d) { UriHasThreePieces(Id(d)); }
  }

  /** Exactly what is accepted as a destination: after `hf://buckets/` the organization,
      the name and the path, if there is one, with any slashes around them; or just
      `org/name`. */
  lemma {:induction false} AcceptedIff(s: string, d: BucketRef)
    ensures ParseDest(s) == Ok(d) <==>
            && WellFormed(d)
            && ((exists m, n :: s == "hf://buckets/" + Slashes(m) + Body(d) + Slashes(n))
                || (d.path == "" && s == d.org + "/" + d.name))
  {
    if ParseDest(s) == Ok(d) { AcceptedIsBody(s, d); }
    if m, n :| s == "hf://buckets/" + Slashes(m) + Body(d) + Slashes(n) && WellFormed(d) {
      UriIsAccepted(s, d, m, n);
    } else if WellFormed(d) && d.path == "" && s == d.org + "/" + d.name {
      IdIsNoUri(d);
      BodyReads(d, false);
    }
  }

  lemma {:induction false} Rebuilt(rest: string) returns (m: nat, n: nat)
    ensures "hf://buckets/" + rest == "hf://buckets/" + Slashes(m) + Trimmed(rest) + Slashes(n)
  {
    m := LeadingSlashes(rest);
    n := TrailingSlashes(TrimStart(rest, '/'));
    assert rest == Slashes(m) + (Trimmed(rest) + Slashes(n));
  }

  lemma {:induction false} AcceptedIsBody(s: string, d: BucketRef)
    requires ParseDest(s) == Ok(d)
    ensures WellFormed(d)
    ensures (exists m, n :: s == "hf://buckets/" + Slashes(m) + Body(d) + Slashes(n)) || (d.path == "" && s == Id(d))
  {
    match StripPrefix(s, BUCKETS)
    case Some(rest) =>
      var m, n := Rebuilt(rest);
      ReadIsBody(Trimmed(rest), true, d);
    case None =>
      ReadIsBody(s, false, d);
  }

  lemma {:induction false} UriIsAccepted(s: string, d: BucketRef, m: nat, n: nat)
    requires WellFormed(d) && s == "hf://buckets/" + Slashes(m) + Body(d) + Slashes(n)
    ensures ParseDest(s) == Ok(d)
  {
    var rest := Slashes(m) + Body(d) + Slashes(n);
    assert s == "hf://buckets/" + rest;
    assert StripPrefix(s, BUCKETS) == Some(rest);
    BodyEnds(d);
    assert rest == Slashes(m) + (Body(d) + Slashes(n));
    TrimLeading(Body(d) + Slashes(n), m);
    TrimTrailing(Body(d), n);
    BodyReads(d, true);
  }
}
