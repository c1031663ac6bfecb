/** Which source keys are copied, where each one goes, and how the destination
    check finds the key again from the path. */
module Keys {
  import opened Wrappers
  import opened Text

  datatype KeyFilter = Keep | Skip | Invalid

  /** A compiled set of --exclude globs, and any other choice of keys. */
  type Exclude = string -> bool

  predicate BelongsTo(key: string, prefix: string) {
    if prefix == "" then true
    else if EndsWith(prefix, '/') then prefix <= key
    else key == prefix || (StripPrefix(key, prefix).Some? && "/" <= StripPrefix(key, prefix).value)
  }

  function FilterKey(key: string, prefix: string, exclude: Exclude): KeyFilter {
    var parts := Split(key, '/');
    if !BelongsTo(key, prefix) then Skip
    else if "" in parts && parts != [""] then Invalid
    else if exclude(key) then Skip
    else Keep
  }

  function RelativePath(key: string, prefix: string): string {
    if prefix == "" then key
    else
      match StripPrefix(key, prefix)
      case None => key
      case Some(rest) =>
        if EndsWith(prefix, '/') then rest
        else if "/" <= rest then TrimStart(rest, '/')
        else key
  }

  function DestinationPath(prefix: string, relative: string): string {
    if prefix == "" then relative else prefix + "/" + relative
  }

  /** Where a key of the source goes. */
  function Target(key: string, src: string, dest: string): string {
    DestinationPath(dest, RelativePath(key, src))
  }

  /** A path relative to the destination; none outside of it. */
  function RelativeTo(path: string, dest: string): Option<string> {
    if dest == "" then Some(path)
    else
      match StripPrefix(path, dest)
      case None => None
      case Some(rest) => StripPrefix(rest, "/")
  }

  function KeyAt(rel: string, src: string): string {
    if rel == src && !EndsWith(src, '/') then rel
    else if src == "" || EndsWith(src, '/') then src + rel
    else src + "/" + rel
  }

  /** The key a destination path came from. */
  function SourceKey(path: string, dest: string, src: string): Option<string> {
    match RelativeTo(path, dest)
    case None => None
    case Some(rel) => Some(KeyAt(rel, src))
  }

  /** The one key its own path does not lead back to: `p/p` under a prefix `p`
      that is not empty and has no trailing slash. */
  predicate Doubled(key: string, src: string) {
    src != "" && !EndsWith(src, '/') && key == src + "/" + src
  }

  // ----- which keys are kept -----

  /** What the keys under a prefix begin with, but for the prefix itself. */
  function Under(prefix: string): string {
    if prefix == "" || EndsWith(prefix, '/') then prefix else prefix + "/"
  }

  /** A slash at an end of the key, or two in a row. */
  predicate HasGap(key: string) { key != "" && (key[0] == '/' || Hanging(key, '/')) }

  lemma {:induction false} BelongsIff(key: string, prefix: string)
    ensures BelongsTo(key, prefix) <==> key == prefix || exists rest: string :: key == Under(prefix) + rest
  {
    if prefix == "" {
      assert key == "" + key;
    } else if EndsWith(prefix, '/') {
      if prefix <= key { assert key == Under(prefix) + key[|prefix|..]; }
      if rest: string :| key == Under(prefix) + rest { assert prefix <= key; }
    } else {
      if rest: string :| key == prefix + "/" + rest {
        assert key == prefix + ("/" + rest);
        StripBack(prefix, "/" + rest);
      }
      if BelongsTo(key, prefix) && key != prefix {
        var rest := StripPrefix(key, prefix).value;
        assert key == Under(prefix) + rest[1..];
      }
    }
  }

  /** A key is copied exactly when it is the prefix or lies below it, has no empty
      segment, and no glob excludes it; what has an empty segment is counted as invalid,
      excluded or not. */
  lemma {:induction false} KeptIff(key: string, prefix: string, exclude: Exclude)
    ensures var under := key == prefix || exists rest: string :: key == Under(prefix) + rest;
            && (FilterKey(key, prefix, exclude).Keep? <==> under && !HasGap(key) && !exclude(key))
            && (FilterKey(key, prefix, exclude).Invalid? <==> under && HasGap(key))
  {
    var parts := Split(key, '/');
    BelongsIff(key, prefix);
    EmptyPieceIff(key, '/');
    assert parts == [parts[0]] + parts[1..];
    JoinSplit(key, '/');
    assert parts == [""] <==> key == "";
  }

  /** Where a kept key goes: below the destination's prefix, what follows the source
      prefix, or the whole key when that is the prefix itself. */
  lemma {:induction false} TargetIs(key: string, src: string, dest: string, exclude: Exclude, rest: string)
    requires FilterKey(key, src, exclude).Keep?
    requires key == Under(src) + rest || (key == src && rest == src)
    ensures Target(key, src, dest) == if dest == "" then rest else dest + "/" + rest
  {
    RelativeOfKept(key, src, exclude);
    var rel := RelativePath(key, src);
    KeptIff(key, src, exclude);
    assert EndsWith(key, '/') ==> Hanging(key, '/');
    assert "" + rest == rest;
    assert (Under(src) + rest)[|Under(src)|..] == rest && (Under(src) + rel)[|Under(src)|..] == rel;
  }

  // ----- what a kept key looks like -----

  /** Below a prefix without a trailing slash, a kept key goes on with one
      slash and a path that is not empty and does not start with a slash. */
  lemma {:induction false} KeptBelow(rest: string, src: string)
    requires var parts := Split(src + "/" + rest, '/'); "" !in parts || parts == [""]
    ensures rest != "" && rest[0] != '/'
  {
    SplitAppend(src, rest, '/');
    var parts := Split(src + "/" + rest, '/');
    assert |parts| >= 2;
    assert Split(rest, '/')[0] == parts[|Split(src, '/')|];
  }

  lemma {:induction false} StripBack(a: string, b: string)
    ensures StripPrefix(a + b, a) == Some(b)
  {
  }

  /** The relative path of a kept key, case by case. */
  lemma {:induction false} RelativeOfKept(key: string, src: string, exclude: Exclude)
    requires FilterKey(key, src, exclude).Keep?
    ensures var rel := RelativePath(key, src);
            if src == "" then rel == key
            else if EndsWith(src, '/') then key == src + rel
            else (key == src && rel == key) || (key == src + "/" + rel && rel != "")
  {
    if src == "" {
    } else if EndsWith(src, '/') {
      assert key == src + StripPrefix(key, src).value;
    } else if key == src {
      assert StripPrefix(key, src) == Some("");
    } else {
      var rest := StripPrefix(key, src).value[1..];
      assert key == src + "/" + rest;
      KeptBelow(rest, src);
      assert StripPrefix(key, src).value == "/" + rest;
      assert "/" <= "/" + rest && ("/" + rest)[1..] == rest;
      assert TrimStart("/" + rest, '/') == TrimStart(rest, '/') == rest;
      assert RelativePath(key, src) == rest;
    }
  }

  // ----- the inverse -----

  lemma {:induction false} RelativeToTarget(rel: string, dest: string)
    ensures RelativeTo(DestinationPath(dest, rel), dest) == Some(rel)
  {
    if dest != "" {
      assert dest + "/" + rel == dest + ("/" + rel);
      StripBack(dest, "/" + rel);
      StripBack("/", rel);
    }
  }

  /** The destination check finds exactly the key a path was copied from, for
      every key that is copied but one: `p/p` under `p`. */
  lemma {:induction false} SourceKeyInverts(key: string, src: string, dest: string, exclude: Exclude)
    requires FilterKey(key, src, exclude).Keep?
    ensures SourceKey(Target(key, src, dest), dest, src) == Some(key) <==> !Doubled(key, src)
    ensures Doubled(key, src) ==> SourceKey(Target(key, src, dest), dest, src) == Some(src)
  {
    var rel := RelativePath(key, src);
    RelativeOfKept(key, src, exclude);
    RelativeToTarget(rel, dest);
    assert "" + rel == rel;
    if src != "" && !EndsWith(src, '/') {
      assert (src + "/" + rel)[|src| + 1..] == rel && (src + "/" + src)[|src| + 1..] == src;
    }
  }

  /** Two kept keys go to one path exactly when they are `p` and `p/p`. */
  lemma {:induction false} TargetsCollideOnlyDoubled(a: string, b: string, src: string, dest: string, exclude: Exclude)
    requires FilterKey(a, src, exclude).Keep? && FilterKey(b, src, exclude).Keep? && a != b
    ensures Target(a, src, dest) == Target(b, src, dest) <==>
            (a == src && Doubled(b, src)) || (b == src && Doubled(a, src))
  {
    SourceKeyInverts(a, src, dest, exclude);
    SourceKeyInverts(b, src, dest, exclude);
    RelativeOfKept(a, src, exclude);
    RelativeOfKept(b, src, exclude);
    if Doubled(a, src) { assert RelativePath(a, src) == src; }
    if Doubled(b, src) { assert RelativePath(b, src) == src; }
  }

  /** The exception happens: under `a`, the keys `a` and `a/a` are both copied,
      to the same path, which is read back as `a`. */
  lemma {:induction false} DoubledKeyIsLost()
    ensures FilterKey("a", "a", k => false).Keep? && FilterKey("a/a", "a", k => false).Keep?
    ensures Target("a", "a", "d") == Target("a/a", "a", "d") == "d/a"
    ensures SourceKey("d/a", "d", "a") == Some("a")
  {
    SplitAppend("a", "a", '/');
    SplitPiece("a", '/');
    assert "a" + "/" + "a" == "a/a";
    assert StripPrefix("a/a", "a") == Some("/a");
    assert StripPrefix("d/a", "d") == Some("/a") && StripPrefix("/a", "/") == Some("a");
  }

  /** A path is inside the destination exactly when it lies below its prefix. */
  lemma {:induction false} SourceKeyNeedsPrefix(path: string, dest: string, src: string)
    ensures SourceKey(path, dest, src).Some? <==> dest == "" || exists rel: string :: path == dest + "/" + rel
  {
    if dest != "" {
      if rel: string :| path == dest + "/" + rel { RelativeToTarget(rel, dest); }
      if SourceKey(path, dest, src).Some? {
        var rel := RelativeTo(path, dest).value;
        assert path == dest + "/" + rel;
      }
    }
  }
}
